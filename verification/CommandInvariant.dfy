/** What every interleaving of the command protocol keeps. */
module CommandInvariant {
  import opened CommandProtocol

  /** How the thread stands to one call. */
  datatype Role = Away | Hand | Post | Crit(ph: Phase) | Fin

  ghost function RoleOf(t: ThreadPc, c: CallId): Role {
    match t
    case Taken(d) => if c == d then Hand else Away
    case Posting(d, _) => if c == d then Post else Away
    case Critical(d, _, ph) => if c == d then Crit(ph) else Away
    case Posted(d, _) => if c == d then Fin else Away
    case _ => Away
  }

  ghost predicate Subject(t: ThreadPc, c: CallId) {
    RoleOf(t, c) != Away
  }

  ghost predicate MayTouchContext(pc: CallerPc) {
    pc == Waiting || pc == Woken || pc == Locked
  }

  /** Past the point where the caller gave up its context. */
  ghost predicate GaveUp(k: Call) {
    if k.cmd.ack then k.pc == Decided || k.pc == Released || k.pc == Returned else k.pc == Returned
  }

  /** Nobody has completed the context; it is attached exactly while its caller is in. */
  ghost predicate Open(k: Call) {
    && k.completions == 0
    && k.status.Submitted?
    && (if k.attached then k.cmd.ack && MayTouchContext(k.pc) else GaveUp(k))
  }

  /** The thread will not touch the context again. */
  ghost predicate Closed(k: Call) {
    && !k.attached
    && (|| (k.completions == 0 && k.status.Submitted? && GaveUp(k))
        || (k.completions == 1 && k.status == Done(k.succeeded) && k.cmd.ack && (MayTouchContext(k.pc) || GaveUp(k))))
  }

  ghost predicate MidCompletion(k: Call, completions: nat) {
    && k.attached && k.cmd.ack && k.status == Done(k.succeeded) && k.completions == completions
    && (k.pc == Waiting || k.pc == Woken)
  }

  ghost predicate Unstarted(k: Call) {
    && (k.pc == Prepared || k.pc == Admitted)
    && k.completions == 0 && k.status.Submitted? && k.attached == k.cmd.ack
    && (k.pc == Admitted ==> !k.cmd.oversize)
  }

  ghost predicate Kept(k: Call) {
    CallbackOf(k.cmd).DisassocCallback? && !k.succeeded
  }

  ghost predicate FinishingOk(k: Call, r: Role) {
    match r
    case Post => Open(k)
    case Crit(Check) => Open(k)
    case Crit(Notify) => MidCompletion(k, 0)
    case Crit(Clear) => MidCompletion(k, 1)
    case Crit(Release) => Closed(k)
    case Fin => Closed(k)
    case _ => false
  }

  /** The invariant of one call, given the thread's role towards it. */
  ghost predicate CallOk(k: Call, r: Role) {
    match k.loc
    case Unqueued => r == Away && Unstarted(k) && k.objFrees == 0 && k.pbufFrees == 0
    case Rejected =>
      r == Away && k.pc == Returned && k.objFrees == 1 && k.pbufFrees == OwnedCount(k.cmd)
      && k.completions == 0 && k.status.Submitted?
    case Queued => r == Away && Open(k) && k.objFrees == 0 && k.pbufFrees == 0 && !k.cmd.oversize
    case InHand => r == Hand && Open(k) && k.objFrees == 0 && k.pbufFrees == 0 && !k.cmd.oversize
    case Finishing => FinishingOk(k, r) && k.objFrees == 0 && k.pbufFrees == OwnedCount(k.cmd)
    case Retired =>
      && r == Away && Closed(k) && k.pbufFrees == OwnedCount(k.cmd)
      && (k.objFrees == 1 || (k.objFrees == 0 && Kept(k)))
  }

  ghost predicate CallsOk(s: State) {
    forall c :: c in s.calls ==> CallOk(s.calls[c], RoleOf(s.thread, c))
  }

  ghost predicate NoDup(q: seq<CallId>) {
    forall i, j :: 0 <= i < j < |q| ==> q[i] != q[j]
  }

  ghost function HandOf(t: ThreadPc): seq<CallId> {
    if t.Taken? then [t.c] else []
  }

  ghost predicate QueueOk(s: State) {
    && NoDup(s.queue)
    && (forall c :: c in s.queue ==> c in s.calls && s.calls[c].loc == Queued)
    && (forall c :: c in s.calls && s.calls[c].loc == Queued ==> c in s.queue)
  }

  ghost predicate HistoryOk(s: State) {
    && s.accepted == s.processed + HandOf(s.thread) + s.queue
    && (forall c :: c in s.processed ==> c in s.calls && (s.calls[c].loc == Finishing || s.calls[c].loc == Retired))
    && NoDup(s.accepted)
    && (if s.thread.Exited? then s.queue == s.late else s.late == [])
  }

  ghost predicate Holds(pc: CallerPc) {
    pc == Locked || pc == Decided
  }

  ghost predicate MutexOk(s: State) {
    && (forall c :: c in s.calls && Holds(s.calls[c].pc) ==>
          s.calls[c].cmd.adapter in s.mutex && s.mutex[s.calls[c].cmd.adapter] == ByCaller(c))
    && (s.thread.Critical? && s.thread.c in s.calls ==>
          s.calls[s.thread.c].cmd.adapter in s.mutex && s.mutex[s.calls[s.thread.c].cmd.adapter] == ByThread)
    && (forall a :: a in s.mutex ==> HeldFor(s, s.mutex[a], a))
  }

  /** A held mutex has a live holder that is inside its critical section. */
  ghost predicate HeldFor(s: State, h: Holder, a: AdapterId) {
    match h
    case ByThread => s.thread.Critical? && s.thread.c in s.calls && s.calls[s.thread.c].cmd.adapter == a
    case ByCaller(c) => c in s.calls && Holds(s.calls[c].pc) && s.calls[c].cmd.adapter == a
  }

  ghost predicate SubjectOk(s: State) {
    && (forall c :: Subject(s.thread, c) ==> c in s.calls)
    && (s.thread.Posting? || s.thread.Critical? ==>
          s.thread.c in s.calls && (s.thread.drain ==> !s.calls[s.thread.c].succeeded))
  }

  ghost predicate Inv(s: State) {
    s.faults == {} && CallsOk(s) && QueueOk(s) && HistoryOk(s) && MutexOk(s) && SubjectOk(s)
  }

  // ---------------------------------------------------------------------------
  // Frame: a step that touches one call and leaves it where it is
  // ---------------------------------------------------------------------------

  ghost predicate SameStanding(t: ThreadPc, u: ThreadPc, c: CallId) {
    && (forall d :: d != c ==> RoleOf(t, d) == RoleOf(u, d))
    && HandOf(t) == HandOf(u)
    && t.Exited? == u.Exited?
  }

  lemma TouchOne(s: State, c: CallId, k: Call, t: ThreadPc, m: map<AdapterId, Holder>)
    requires Inv(s) && c in s.calls
    requires k.loc == s.calls[c].loc && CallOk(k, RoleOf(t, c))
    requires SameStanding(s.thread, t, c)
    requires MutexOk(Put(s, c, k).(thread := t, mutex := m))
    requires k.succeeded == s.calls[c].succeeded
    requires t.Posting? || t.Critical? ==> (s.thread.Posting? || s.thread.Critical?) && t.drain == s.thread.drain && t.c == s.thread.c
    ensures Inv(Put(s, c, k).(thread := t, mutex := m))
  {
    var u := Put(s, c, k).(thread := t, mutex := m);
    forall d | d in u.calls
      ensures CallOk(u.calls[d], RoleOf(u.thread, d))
    {
      if d != c {
        assert CallOk(s.calls[d], RoleOf(s.thread, d));
      }
    }
    assert QueueOk(u) by {
      assert forall d :: d in s.calls ==> u.calls[d].loc == s.calls[d].loc;
    }
    assert SubjectOk(u) by {
      forall d | Subject(u.thread, d) ensures d in u.calls {
        if d != c {
          assert Subject(s.thread, d);
        }
      }
    }
  }

  lemma RelocateMutex(s: State, u: State, c: CallId)
    requires MutexOk(s) && c in s.calls && u.calls.Keys == s.calls.Keys && u.mutex == s.mutex
    requires forall d :: d in s.calls ==> u.calls[d].cmd == s.calls[d].cmd && u.calls[d].pc == s.calls[d].pc
    requires !s.thread.Critical? && !u.thread.Critical?
    ensures MutexOk(u)
  {
    forall a | a in u.mutex ensures HeldFor(u, u.mutex[a], a) {
      assert HeldFor(s, s.mutex[a], a);
    }
  }

  /** The thread moves on from, or starts on, the call it is busy with. */
  lemma Relocate(s: State, u: State, c: CallId)
    requires Inv(s) && c in s.calls
    requires u.calls.Keys == s.calls.Keys && u.mutex == s.mutex && u.faults == {}
    requires forall d :: d in s.calls && d != c ==> u.calls[d] == s.calls[d]
    requires forall d :: d != c ==> RoleOf(s.thread, d) == RoleOf(u.thread, d)
    requires CallOk(u.calls[c], RoleOf(u.thread, c))
    requires u.calls[c].cmd == s.calls[c].cmd
    requires u.calls[c].pc == s.calls[c].pc
    requires !s.thread.Critical? && !u.thread.Critical?
    requires QueueOk(u) && HistoryOk(u)
    requires u.thread.Posting? ==> u.thread.c == c && (u.thread.drain ==> !u.calls[c].succeeded)
    ensures Inv(u)
  {
    RelocateMutex(s, u, c);
    forall d | d in u.calls
      ensures CallOk(u.calls[d], RoleOf(u.thread, d))
    {
      if d != c {
        assert CallOk(s.calls[d], RoleOf(s.thread, d));
      }
    }
    forall d | Subject(u.thread, d) ensures d in u.calls {
      if d != c {
        assert Subject(s.thread, d);
      }
    }
  }

  lemma HeadIsUnique(s: State)
    requires Inv(s) && s.queue != []
    ensures s.queue == [s.queue[0]] + s.queue[1..]
    ensures s.queue[0] in s.calls && s.calls[s.queue[0]].loc == Queued
    ensures s.queue[0] !in s.queue[1..] && NoDup(s.queue[1..])
    ensures CallOk(s.calls[s.queue[0]], RoleOf(s.thread, s.queue[0]))
  {
    assert s.queue[0] in s.queue;
  }

  lemma SubjectIsCall(s: State)
    requires Inv(s)
    ensures s.thread.Taken? || s.thread.Posting? || s.thread.Critical? || s.thread.Posted? ==>
              s.thread.c in s.calls && CallOk(s.calls[s.thread.c], RoleOf(s.thread, s.thread.c))
  {
    if s.thread.Taken? || s.thread.Posting? || s.thread.Critical? || s.thread.Posted? {
      assert Subject(s.thread, s.thread.c);
    }
  }

  // ---------------------------------------------------------------------------
  // One lemma for each kind of step
  // ---------------------------------------------------------------------------

  /** A call that is not on the queue before or after. */
  lemma OffQueue(s: State, c: CallId, k: Call)
    requires QueueOk(s) && HistoryOk(s)
    requires c in s.calls ==> s.calls[c].loc == Unqueued
    requires k.loc == Unqueued || k.loc == Rejected
    ensures QueueOk(Put(s, c, k)) && HistoryOk(Put(s, c, k))
  {
  }

  /** A call whose caller stays outside the mutex. */
  lemma OffMutex(s: State, c: CallId, k: Call)
    requires MutexOk(s) && !Holds(k.pc)
    requires if c in s.calls then !Holds(s.calls[c].pc) && s.calls[c].cmd == k.cmd
             else !(s.thread.Critical? && s.thread.c == c)
    ensures MutexOk(Put(s, c, k))
  {
    var u := Put(s, c, k);
    forall a | a in u.mutex ensures HeldFor(u, u.mutex[a], a) {
      assert HeldFor(s, s.mutex[a], a);
    }
  }

  lemma OffThread(s: State, c: CallId, k: Call)
    requires CallsOk(s) && SubjectOk(s) && !Subject(s.thread, c) && CallOk(k, Away)
    ensures CallsOk(Put(s, c, k)) && SubjectOk(Put(s, c, k))
  {
    var u := Put(s, c, k);
    forall d | d in u.calls
      ensures CallOk(u.calls[d], RoleOf(u.thread, d))
    {
      if d != c {
        assert CallOk(s.calls[d], RoleOf(s.thread, d));
      }
    }
    assert s.thread.Posting? || s.thread.Critical? ==> Subject(s.thread, s.thread.c);
  }

  lemma PrepareKeeps(s: State, c: CallId, cmd: Command)
    requires Inv(s)
    ensures Inv(DoPrepare(s, c, cmd))
  {
    if c !in s.calls {
      var k := Call(cmd, Prepared, cmd.ack, Submitted, 0, false, 0, 0, Unqueued);
      assert !Subject(s.thread, c);
      OffThread(s, c, k);
      OffQueue(s, c, k);
      OffMutex(s, c, k);
    }
  }

  lemma RejectKeeps(s: State, c: CallId, k: Call)
    requires Inv(s) && c in s.calls && s.calls[c].loc == Unqueued && k.cmd == s.calls[c].cmd
    requires k.loc == Rejected && CallOk(k, Away)
    ensures Inv(Put(s, c, k))
  {
    assert CallOk(s.calls[c], RoleOf(s.thread, c));
    OffThread(s, c, k);
    OffQueue(s, c, k);
    OffMutex(s, c, k);
  }

  /** An untouched object, released: each of its parts goes exactly once. */
  lemma ReleaseOnce(s: State, c: CallId)
    requires c in s.calls && s.calls[c].objFrees == 0 && s.calls[c].pbufFrees == 0
    ensures FreePbuf(s, c) == Put(s, c, s.calls[c].(pbufFrees := OwnedCount(s.calls[c].cmd)))
    ensures FreeObj(FreePbuf(s, c), c)
         == Put(s, c, s.calls[c].(pbufFrees := OwnedCount(s.calls[c].cmd), objFrees := 1))
  {
    var k := s.calls[c];
    assert s.calls == s.calls[c := k];
    var s1 := FreePbuf(s, c);
    assert s1.calls[c] == k.(pbufFrees := OwnedCount(k.cmd));
    assert s1.calls[c := s1.calls[c].(objFrees := 1)] == s.calls[c := s1.calls[c].(objFrees := 1)];
  }

  lemma RejectShape(s: State, c: CallId, hwInit: bool)
    requires At(s, c, Prepared) && s.calls[c].objFrees == 0 && s.calls[c].pbufFrees == 0
    requires !Allowed(s.calls[c].cmd, hwInit, s.running) || s.calls[c].cmd.oversize
    ensures DoFilter(s, c, hwInit)
         == Put(s, c, s.calls[c].(pc := Returned, loc := Rejected, objFrees := 1, pbufFrees := OwnedCount(s.calls[c].cmd)))
  {
    ReleaseOnce(s, c);
  }

  lemma FilterKeeps(s: State, c: CallId, hwInit: bool)
    requires Inv(s)
    ensures Inv(DoFilter(s, c, hwInit))
  {
    if At(s, c, Prepared) {
      var k := s.calls[c];
      assert CallOk(k, RoleOf(s.thread, c));
      if !Allowed(k.cmd, hwInit, s.running) || k.cmd.oversize {
        RejectShape(s, c, hwInit);
        RejectKeeps(s, c, k.(pc := Returned, loc := Rejected, objFrees := 1, pbufFrees := OwnedCount(k.cmd)));
      } else {
        AdmitKeeps(s, c);
      }
    }
  }

  lemma AdmitKeeps(s: State, c: CallId)
    requires Inv(s) && At(s, c, Prepared) && !s.calls[c].cmd.oversize
    ensures Inv(Put(s, c, s.calls[c].(pc := Admitted)))
  {
    var k := s.calls[c].(pc := Admitted);
    assert CallOk(s.calls[c], RoleOf(s.thread, c));
    OffThread(s, c, k);
    OffQueue(s, c, k);
    OffMutex(s, c, k);
  }

  lemma UnqueuedIsNew(s: State, c: CallId)
    requires Inv(s) && c in s.calls && s.calls[c].loc == Unqueued
    ensures c !in s.accepted && c !in s.queue && c !in s.processed && !Subject(s.thread, c)
  {
    assert CallOk(s.calls[c], RoleOf(s.thread, c));
  }

  lemma AppendKeepsOrder(s: State, u: State, c: CallId)
    requires QueueOk(s) && HistoryOk(s) && c in s.calls
    requires c !in s.accepted && c !in s.queue
    requires c in u.calls && u.calls[c].loc == Queued && u.calls == s.calls[c := u.calls[c]]
    requires c !in s.processed && u.thread == s.thread && u.processed == s.processed
    requires u.queue == s.queue + [c] && u.accepted == s.accepted + [c]
    requires u.late == if s.thread.Exited? then s.late + [c] else s.late
    ensures QueueOk(u) && HistoryOk(u)
  {
    assert forall d :: d in u.queue <==> d in s.queue || d == c;
    assert u.accepted == u.processed + HandOf(u.thread) + u.queue;
  }

  /** The calls and the mutexes, when a call of an idle caller changes together with the histories. */
  lemma FieldsKeep(s: State, u: State, c: CallId, k: Call)
    requires CallsOk(Put(s, c, k)) && SubjectOk(Put(s, c, k)) && MutexOk(Put(s, c, k)) && s.faults == {}
    requires u.calls == s.calls[c := k] && u.thread == s.thread && u.mutex == s.mutex && u.faults == s.faults
    requires QueueOk(u) && HistoryOk(u)
    ensures Inv(u)
  {
  }

  lemma EnqueueKeeps(s: State, c: CallId)
    requires Inv(s)
    ensures Inv(DoEnqueue(s, c))
  {
    if At(s, c, Admitted) {
      assert CallOk(s.calls[c], RoleOf(s.thread, c));
      UnqueuedIsNew(s, c);
      var u := DoEnqueue(s, c);
      EnqueuedKeeps(s, u, c, u.calls[c]);
    }
  }

  lemma EnqueuedKeeps(s: State, u: State, c: CallId, k: Call)
    requires Inv(s) && c in s.calls && !Holds(s.calls[c].pc) && !Holds(k.pc) && k.cmd == s.calls[c].cmd
    requires c !in s.accepted && c !in s.queue && c !in s.processed && !Subject(s.thread, c)
    requires k.loc == Queued && CallOk(k, Away)
    requires u.calls == s.calls[c := k] && u.thread == s.thread && u.mutex == s.mutex && u.faults == s.faults
    requires u.processed == s.processed && u.queue == s.queue + [c] && u.accepted == s.accepted + [c]
    requires u.late == if s.thread.Exited? then s.late + [c] else s.late
    ensures Inv(u)
  {
    OffThread(s, c, k);
    OffMutex(s, c, k);
    AppendKeepsOrder(s, u, c);
    FieldsKeep(s, u, c, k);
  }

  lemma CallerMutex(s: State, c: CallId, k: Call, m: map<AdapterId, Holder>)
    requires MutexOk(s) && c in s.calls && k.cmd == s.calls[c].cmd
    requires || (m == s.mutex && Holds(k.pc) == Holds(s.calls[c].pc))
             || (m == s.mutex[k.cmd.adapter := ByCaller(c)] && k.cmd.adapter !in s.mutex && Holds(k.pc))
             || (m == s.mutex - {k.cmd.adapter} && Holds(s.calls[c].pc) && !Holds(k.pc))
    ensures MutexOk(Put(s, c, k).(thread := s.thread, mutex := m))
  {
    var u := Put(s, c, k).(thread := s.thread, mutex := m);
    forall a | a in u.mutex ensures HeldFor(u, u.mutex[a], a) {
      assert a in s.mutex ==> HeldFor(s, s.mutex[a], a);
    }
  }

  lemma WakeUp(s: State, c: CallId)
    requires Inv(s) && At(s, c, Waiting)
    ensures Inv(Put(s, c, s.calls[c].(pc := Woken)))
  {
    var k := s.calls[c].(pc := Woken);
    assert CallOk(s.calls[c], RoleOf(s.thread, c));
    CallerMutex(s, c, k, s.mutex);
    TouchOne(s, c, k, s.thread, s.mutex);
    assert Put(s, c, k).(thread := s.thread, mutex := s.mutex) == Put(s, c, k);
  }

  lemma WaitKeeps(s: State, c: CallId)
    requires Inv(s)
    ensures Inv(DoWake(s, c)) && Inv(DoTimeout(s, c))
  {
    if At(s, c, Waiting) {
      WakeUp(s, c);
    }
  }

  lemma CallerLockKeeps(s: State, c: CallId)
    requires Inv(s)
    ensures Inv(DoCallerLock(s, c))
  {
    if At(s, c, Woken) && s.calls[c].cmd.adapter !in s.mutex {
      var k := s.calls[c].(pc := Locked);
      assert CallOk(s.calls[c], RoleOf(s.thread, c));
      CallerMutex(s, c, k, s.mutex[k.cmd.adapter := ByCaller(c)]);
      TouchOne(s, c, k, s.thread, s.mutex[k.cmd.adapter := ByCaller(c)]);
    }
  }

  lemma CallerDecideKeeps(s: State, c: CallId)
    requires Inv(s)
    ensures Inv(DoCallerDecide(s, c))
  {
    if At(s, c, Locked) {
      var k := s.calls[c];
      assert CallOk(k, RoleOf(s.thread, c));
      if k.status.Submitted? {
        DecideKeeps(s, c, k.(pc := Decided, attached := false));
      } else {
        DecideKeeps(s, c, k.(pc := Decided));
      }
    }
  }

  lemma DecideKeeps(s: State, c: CallId, k: Call)
    requires Inv(s) && At(s, c, Locked) && k.pc == Decided && k.cmd == s.calls[c].cmd
    requires k.loc == s.calls[c].loc && k.succeeded == s.calls[c].succeeded
    requires CallOk(k, RoleOf(s.thread, c))
    ensures Inv(Put(s, c, k))
  {
    CallerMutex(s, c, k, s.mutex);
    TouchOne(s, c, k, s.thread, s.mutex);
    assert Put(s, c, k).(thread := s.thread, mutex := s.mutex) == Put(s, c, k);
  }

  lemma CallerUnlockKeeps(s: State, c: CallId)
    requires Inv(s)
    ensures Inv(DoCallerUnlock(s, c))
  {
    if At(s, c, Decided) {
      var k := s.calls[c].(pc := Released);
      assert CallOk(s.calls[c], RoleOf(s.thread, c));
      CallerMutex(s, c, k, s.mutex - {k.cmd.adapter});
      TouchOne(s, c, k, s.thread, s.mutex - {k.cmd.adapter});
    }
  }

  lemma CallerReturnKeeps(s: State, c: CallId)
    requires Inv(s)
    ensures Inv(DoCallerReturn(s, c))
  {
    if At(s, c, Released) {
      var k := s.calls[c].(pc := Returned);
      assert CallOk(s.calls[c], RoleOf(s.thread, c));
      CallerMutex(s, c, k, s.mutex);
      TouchOne(s, c, k, s.thread, s.mutex);
    }
  }

  lemma IdleMove(s: State, t: ThreadPc, running: bool)
    requires Inv(s)
    requires forall c :: RoleOf(s.thread, c) == Away && RoleOf(t, c) == Away
    requires !s.thread.Exited? && !t.Exited? && HandOf(s.thread) == HandOf(t)
    requires !s.thread.Critical? && !t.Critical? && !t.Posting?
    ensures Inv(s.(thread := t, running := running))
  {
    var u := s.(thread := t, running := running);
    forall a | a in u.mutex ensures HeldFor(u, u.mutex[a], a) {
      assert HeldFor(s, s.mutex[a], a);
    }
    forall d | d in u.calls ensures CallOk(u.calls[d], RoleOf(u.thread, d)) {
      assert CallOk(s.calls[d], RoleOf(s.thread, d));
    }
  }

  lemma ThreadStartKeeps(s: State)
    requires Inv(s)
    ensures Inv(DoThreadStart(s))
  {
    if s.thread.NotStarted? {
      IdleMove(s, Idle, true);
    }
  }

  lemma ThreadWakeKeeps(s: State, cannotRun: bool)
    requires Inv(s)
    ensures Inv(DoThreadWake(s, cannotRun))
  {
    if s.thread.Idle? && (cannotRun || s.queue != []) {
      var t := if cannotRun then Stopping else Next;
      IdleMove(s, t, s.running);
      assert s.(thread := t) == s.(thread := t, running := s.running);
    }
  }

  lemma ThreadStopKeeps(s: State)
    requires Inv(s)
    ensures Inv(DoThreadStop(s))
  {
    if s.thread.Stopping? {
      IdleMove(s, Draining, false);
    }
  }

  lemma TakeKeepsOrder(s: State, u: State)
    requires Inv(s) && s.queue != [] && HandOf(s.thread) == [] && !s.thread.Exited?
    requires u.thread == Taken(s.queue[0])
    requires u.calls.Keys == s.calls.Keys && u.calls[s.queue[0]].loc == InHand
    requires forall d :: d in s.calls && d != s.queue[0] ==> u.calls[d] == s.calls[d]
    requires u.queue == s.queue[1..] && u.processed == s.processed
    requires u.accepted == s.accepted && u.late == s.late
    ensures QueueOk(u) && HistoryOk(u)
  {
    HeadIsUnique(s);
    assert u.processed + HandOf(u.thread) + u.queue == s.processed + HandOf(s.thread) + s.queue;
  }

  lemma ThreadNextKeeps(s: State, cannotRun: bool)
    requires Inv(s)
    ensures Inv(DoThreadNext(s, cannotRun))
  {
    if s.thread.Next? {
      if cannotRun || s.queue == [] {
        IdleMove(s, if cannotRun then Stopping else Idle, s.running);
      } else {
        HeadIsUnique(s);
        TakeKeepsOrder(s, DoThreadNext(s, cannotRun));
        Relocate(s, DoThreadNext(s, cannotRun), s.queue[0]);
      }
    }
  }

  lemma SettledOrder(s: State, u: State, c: CallId)
    requires QueueOk(s) && HistoryOk(s) && s.thread == Taken(c) && c in s.calls && s.calls[c].loc == InHand
    requires u.thread.Posting? && c in u.calls && u.calls == s.calls[c := u.calls[c]] && u.calls[c].loc == Finishing
    requires u.queue == s.queue && u.processed == s.processed + [c] && u.accepted == s.accepted && u.late == s.late
    ensures QueueOk(u) && HistoryOk(u)
  {
    assert c !in s.queue;
  }

  lemma SettleKeeps(s: State, c: CallId, k: Call)
    requires Inv(s) && s.thread == Taken(c) && c in s.calls
    requires k.loc == Finishing && CallOk(k, Post) && k.cmd == s.calls[c].cmd && k.pc == s.calls[c].pc
    ensures Inv(Put(s, c, k).(thread := Posting(c, false), processed := s.processed + [c]))
  {
    var u := Put(s, c, k).(thread := Posting(c, false), processed := s.processed + [c]);
    assert CallOk(s.calls[c], RoleOf(s.thread, c));
    SettledOrder(s, u, c);
    Relocate(s, u, c);
  }

  lemma RequeueKeeps(s: State, c: CallId)
    requires Inv(s) && s.thread == Taken(c) && c in s.calls
    ensures Inv(Put(s, c, s.calls[c].(loc := Queued)).(thread := Idle, queue := [c] + s.queue))
  {
    var u := Put(s, c, s.calls[c].(loc := Queued)).(thread := Idle, queue := [c] + s.queue);
    assert CallOk(s.calls[c], RoleOf(s.thread, c));
    assert c !in s.queue;
    assert QueueOk(u) by {
      assert forall d :: d in u.queue <==> d in s.queue || d == c;
    }
    assert HistoryOk(u) by {
      assert s.processed + [c] + s.queue == s.processed + [] + ([c] + s.queue);
    }
    Relocate(s, u, c);
  }

  lemma SettleShape(s: State, c: CallId, ok: bool)
    requires c in s.calls && s.calls[c].objFrees == 0 && s.calls[c].pbufFrees == 0
    ensures Settle(FreePbuf(s, c), c, ok)
         == Put(s, c, s.calls[c].(succeeded := ok, loc := Finishing, pbufFrees := OwnedCount(s.calls[c].cmd)))
              .(thread := Posting(c, false), processed := s.processed + [c])
  {
    ReleaseOnce(s, c);
  }

  lemma ThreadProcessKeeps(s: State, hwInit: bool, alive: bool, ret: bool)
    requires Inv(s)
    ensures Inv(DoThreadProcess(s, hwInit, alive, ret))
  {
    if s.thread.Taken? {
      SubjectIsCall(s);
      var c := s.thread.c;
      var k := s.calls[c];
      if k.cmd.kind.Plain? && (!k.cmd.kind.defined || !k.cmd.kind.hasHandler) {
        SettleKeeps(s, c, k.(succeeded := false, loc := Finishing));
      } else if Allowed(k.cmd, hwInit, s.running) && !k.cmd.noIo && !alive {
        RequeueKeeps(s, c);
      } else {
        var ok := Allowed(k.cmd, hwInit, s.running) && ret;
        SettleShape(s, c, ok);
        SettleKeeps(s, c, k.(succeeded := ok, loc := Finishing, pbufFrees := OwnedCount(k.cmd)));
      }
    }
  }

  lemma ThreadLockKeeps(s: State)
    requires Inv(s)
    ensures Inv(DoThreadLock(s))
  {
  }

  /** A step inside the thread's critical section: the call's context changes, nobody moves. */
  lemma InsideKeeps(s: State, c: CallId, k: Call, ph: Phase)
    requires Inv(s) && s.thread.Critical? && s.thread.c == c && c in s.calls
    requires k == s.calls[c].(status := k.status, completions := k.completions, attached := k.attached)
    requires CallOk(k, Crit(ph))
    ensures Inv(Put(s, c, k).(thread := s.thread.(ph := ph)))
  {
    var u := Put(s, c, k).(thread := s.thread.(ph := ph));
    assert MutexOk(u) by {
      forall a | a in u.mutex ensures HeldFor(u, u.mutex[a], a) {
        assert HeldFor(s, s.mutex[a], a);
      }
    }
    TouchOne(s, c, k, u.thread, s.mutex);
  }

  lemma ThreadCheckKeeps(s: State)
    requires Inv(s)
    ensures Inv(DoThreadCheck(s))
  {
    if InPhase(s, Check) {
      SubjectIsCall(s);
      var c := s.thread.c;
      var k := s.calls[c];
      if k.attached {
        InsideKeeps(s, c, k.(status := Done(k.succeeded && !s.thread.drain)), Notify);
      } else {
        InsideKeeps(s, c, k, Release);
        assert s.calls == s.calls[c := k];
      }
    }
  }

  lemma ThreadCompleteKeeps(s: State)
    requires Inv(s)
    ensures Inv(DoThreadNotify(s)) && Inv(DoThreadClear(s))
  {
    SubjectIsCall(s);
    if InPhase(s, Notify) {
      var k := s.calls[s.thread.c];
      InsideKeeps(s, s.thread.c, k.(completions := k.completions + 1), Clear);
    }
    if InPhase(s, Clear) {
      InsideKeeps(s, s.thread.c, s.calls[s.thread.c].(attached := false), Release);
    }
  }

  lemma ThreadGivesBack(s: State, t: ThreadPc, a: AdapterId)
    requires MutexOk(s) && a in s.mutex && s.mutex[a] == ByThread
    requires s.thread.Critical? && s.thread.c in s.calls && s.calls[s.thread.c].cmd.adapter == a
    requires !t.Critical?
    ensures MutexOk(s.(thread := t, mutex := s.mutex - {a}))
  {
    var u := s.(thread := t, mutex := s.mutex - {a});
    forall b | b in u.mutex ensures HeldFor(u, u.mutex[b], b) {
      assert HeldFor(s, s.mutex[b], b);
    }
  }

  lemma ThreadUnlockKeeps(s: State)
    requires Inv(s)
    ensures Inv(DoThreadUnlock(s))
  {
    if InPhase(s, Release) {
      SubjectIsCall(s);
      var c := s.thread.c;
      var k := s.calls[c];
      var t := Posted(c, s.thread.drain);
      ThreadGivesBack(s, t, k.cmd.adapter);
      assert s.calls == s.calls[c := k];
      TouchOne(s, c, k, t, s.mutex - {k.cmd.adapter});
    }
  }

  lemma RetireKeepsOrder(s: State, u: State)
    requires Inv(s) && s.thread.Posted? && s.thread.c in s.calls
    requires u.thread.Draining? || u.thread.Next?
    requires s.thread.c in u.calls && u.calls[s.thread.c].loc == Retired
    requires u.calls == s.calls[s.thread.c := u.calls[s.thread.c]]
    requires s.calls[s.thread.c].loc == Finishing
    requires u.queue == s.queue && u.processed == s.processed && u.accepted == s.accepted && u.late == s.late
    ensures QueueOk(u) && HistoryOk(u)
  {
  }

  lemma ThreadRetireKeeps(s: State)
    requires Inv(s)
    ensures Inv(DoThreadRetire(s))
  {
    if s.thread.Posted? {
      SubjectIsCall(s);
      var u := DoThreadRetire(s);
      assert u.calls == s.calls[s.thread.c := u.calls[s.thread.c]];
      RetiredKeeps(s, u);
    }
  }

  lemma RetiredKeeps(s: State, u: State)
    requires Inv(s) && s.thread.Posted? && s.thread.c in s.calls && s.thread.c in u.calls
    requires u.thread.Draining? || u.thread.Next?
    requires u.calls == s.calls[s.thread.c := u.calls[s.thread.c]]
    requires var k, l := s.calls[s.thread.c], u.calls[s.thread.c];
             k.loc == Finishing && l.loc == Retired && CallOk(l, Away) && l.cmd == k.cmd && l.pc == k.pc
    requires u.queue == s.queue && u.processed == s.processed && u.accepted == s.accepted && u.late == s.late
    requires u.mutex == s.mutex && u.faults == {}
    ensures Inv(u)
  {
    RetireKeepsOrder(s, u);
    Relocate(s, u, s.thread.c);
  }

  ghost function Drained(k: Call): Call {
    k.(loc := Finishing, succeeded := false, pbufFrees := OwnedCount(k.cmd))
  }

  lemma DrainShape(s: State)
    requires s.thread.Draining? && s.queue != [] && s.queue[0] in s.calls
    requires s.calls[s.queue[0]].objFrees == 0 && s.calls[s.queue[0]].pbufFrees == 0
    ensures DoDrainTake(s)
         == Put(s, s.queue[0], Drained(s.calls[s.queue[0]]))
              .(thread := Posting(s.queue[0], true), queue := s.queue[1..], processed := s.processed + [s.queue[0]])
  {
    ReleaseOnce(s, s.queue[0]);
  }

  lemma PopKeepsOrder(s: State, u: State)
    requires Inv(s) && s.queue != [] && HandOf(s.thread) == [] && !s.thread.Exited?
    requires HandOf(u.thread) == [] && !u.thread.Exited?
    requires u.calls.Keys == s.calls.Keys && u.calls[s.queue[0]].loc == Finishing
    requires forall d :: d in s.calls && d != s.queue[0] ==> u.calls[d] == s.calls[d]
    requires u.queue == s.queue[1..] && u.processed == s.processed + [s.queue[0]]
    requires u.accepted == s.accepted && u.late == s.late
    ensures QueueOk(u) && HistoryOk(u)
  {
    HeadIsUnique(s);
    assert u.processed + HandOf(u.thread) + u.queue == s.processed + HandOf(s.thread) + s.queue;
  }

  lemma DrainTakeKeeps(s: State)
    requires Inv(s)
    ensures Inv(DoDrainTake(s))
  {
    if s.thread.Draining? && s.queue != [] {
      HeadIsUnique(s);
      DrainShape(s);
      var c := s.queue[0];
      PoppedKeeps(s, DoDrainTake(s), c, Drained(s.calls[c]));
    }
  }

  lemma PoppedKeeps(s: State, u: State, c: CallId, k: Call)
    requires Inv(s) && s.thread.Draining? && s.queue != [] && c == s.queue[0] && c in s.calls
    requires k.loc == Finishing && CallOk(k, Post) && k.cmd == s.calls[c].cmd && k.pc == s.calls[c].pc
    requires !k.succeeded && RoleOf(s.thread, c) == Away
    requires u == Put(s, c, k).(thread := Posting(c, true), queue := s.queue[1..], processed := s.processed + [c])
    ensures Inv(u)
  {
    PopKeepsOrder(s, u);
    Relocate(s, u, c);
  }

  /** A step of one of the callers. */
  ghost predicate ByCallers(a: Action) {
    a.Prepare? || a.Filter? || a.Enqueue? || a.Wake? || a.Timeout?
    || a.CallerLock? || a.CallerDecide? || a.CallerUnlock? || a.CallerReturn?
  }

  /** A step of the thread between commands. */
  ghost predicate Between(a: Action) {
    a.ThreadStart? || a.ThreadWake? || a.ThreadNext? || a.ThreadStop?
  }

  /** A step of the thread with a command, outside `sctx_mutex`. */
  ghost predicate Outside(a: Action) {
    a.ThreadProcess? || a.ThreadRetire? || a.DrainTake?
  }

  lemma CallerStepKeeps(s: State, a: Action)
    requires Inv(s) && ByCallers(a)
    ensures Inv(Step(s, a))
  {
    match a
    case Prepare(c, cmd) => PrepareKeeps(s, c, cmd);
    case Filter(c, hwInit) => FilterKeeps(s, c, hwInit);
    case Enqueue(c) => EnqueueKeeps(s, c);
    case Wake(c) => WaitKeeps(s, c);
    case Timeout(c) => WaitKeeps(s, c);
    case CallerLock(c) => CallerLockKeeps(s, c);
    case CallerDecide(c) => CallerDecideKeeps(s, c);
    case CallerUnlock(c) => CallerUnlockKeeps(s, c);
    case CallerReturn(c) => CallerReturnKeeps(s, c);
  }

  lemma BetweenStepKeeps(s: State, a: Action)
    requires Inv(s) && Between(a)
    ensures Inv(Step(s, a))
  {
    match a
    case ThreadStart => ThreadStartKeeps(s);
    case ThreadWake(cannotRun) => ThreadWakeKeeps(s, cannotRun);
    case ThreadNext(cannotRun) => ThreadNextKeeps(s, cannotRun);
    case ThreadStop => ThreadStopKeeps(s);
  }

  lemma OutsideStepKeeps(s: State, a: Action)
    requires Inv(s) && Outside(a)
    ensures Inv(Step(s, a))
  {
    match a
    case ThreadProcess(hwInit, alive, ret) => ThreadProcessKeeps(s, hwInit, alive, ret);
    case ThreadRetire => ThreadRetireKeeps(s);
    case DrainTake => DrainTakeKeeps(s);
  }

  lemma InsideStepKeeps(s: State, a: Action)
    requires Inv(s) && !ByCallers(a) && !Between(a) && !Outside(a)
    ensures Inv(Step(s, a))
  {
    match a
    case ThreadLock => ThreadLockKeeps(s);
    case ThreadCheck => ThreadCheckKeeps(s);
    case ThreadNotify => ThreadCompleteKeeps(s);
    case ThreadClear => ThreadCompleteKeeps(s);
    case ThreadUnlock => ThreadUnlockKeeps(s);
  }

  lemma StepKeeps(s: State, a: Action)
    requires Inv(s)
    ensures Inv(Step(s, a))
  {
    if ByCallers(a) {
      CallerStepKeeps(s, a);
    } else if Between(a) {
      BetweenStepKeeps(s, a);
    } else if Outside(a) {
      OutsideStepKeeps(s, a);
    } else {
      InsideStepKeeps(s, a);
    }
  }

  lemma {:induction false} RunKeeps(acts: seq<Action>)
    ensures Inv(Run(INITIAL, acts))
  {
    if acts != [] {
      RunKeeps(acts[..|acts| - 1]);
      StepKeeps(Run(INITIAL, acts[..|acts| - 1]), acts[|acts| - 1]);
    }
  }
}
