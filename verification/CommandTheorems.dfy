/** The guarantees of the command protocol, over every interleaving. */
module CommandTheorems {
  import opened CommandProtocol
  import opened CommandInvariant

  /**
    The thread never completes the context of a caller that has returned, no
    caller writes into a freed object, nothing is freed twice; and a context is
    completed at most once, with the outcome of its command.  That the outcome is the
    handler's is `CommandOutcomes.OutcomeIsTheHandlers`.
   */
  lemma HandshakeIsSafe(acts: seq<Action>)
    ensures Run(INITIAL, acts).faults == {}
    ensures forall c :: c in Run(INITIAL, acts).calls ==>
              var k := Run(INITIAL, acts).calls[c];
              && k.completions <= 1
              && (k.completions == 1 ==> k.cmd.ack && k.status == Done(k.succeeded))
              && (k.pc == Returned && k.loc != Rejected ==> !k.attached)
  {
    RunKeeps(acts);
    var s := Run(INITIAL, acts);
    forall c | c in s.calls
      ensures s.calls[c].completions <= 1
      ensures s.calls[c].completions == 1 ==> s.calls[c].cmd.ack && s.calls[c].status == Done(s.calls[c].succeeded)
      ensures s.calls[c].pc == Returned && s.calls[c].loc != Rejected ==> !s.calls[c].attached
    {
      assert CallOk(s.calls[c], RoleOf(s.thread, c));
    }
  }

  /** Outcomes are settled in the order of acceptance, head re-insertion included. */
  lemma AcceptanceOrder(acts: seq<Action>)
    ensures var s := Run(INITIAL, acts);
            s.accepted == s.processed + HandOf(s.thread) + s.queue && NoDup(s.accepted)
  {
    RunKeeps(acts);
  }

  /** No object and no pbuf is ever freed twice; once settled, an owned pbuf is gone. */
  lemma OwnershipIsExact(acts: seq<Action>, c: CallId)
    requires c in Run(INITIAL, acts).calls
    ensures var k := Run(INITIAL, acts).calls[c];
            && k.objFrees <= 1
            && k.pbufFrees <= OwnedCount(k.cmd)
            && (OwnedCount(k.cmd) == 1 <==> k.cmd.kind.DrvExtra? && k.cmd.kind.hasPbuf) && OwnedCount(k.cmd) <= 1
            && (c in Run(INITIAL, acts).processed || k.loc == Rejected ==> k.pbufFrees == OwnedCount(k.cmd))
            && (k.loc == Retired && !Kept(k) ==> k.objFrees == 1)
            && (k.loc == Rejected ==> k.objFrees == 1)
  {
    RunKeeps(acts);
    var s := Run(INITIAL, acts);
    assert CallOk(s.calls[c], RoleOf(s.thread, c));
  }

  /**
    After shutdown the queue holds exactly what was enqueued after the drain;
    everything accepted before has its object and its pbuf released, except the
    object of a failed disassociation.
   */
  lemma ShutdownLeavesNothing(acts: seq<Action>)
    requires Run(INITIAL, acts).thread.Exited?
    ensures var s := Run(INITIAL, acts);
            && s.queue == s.late
            && s.accepted == s.processed + s.late
            && forall c :: c in s.processed ==> c in s.calls && Gone(s.calls[c])
  {
    RunKeeps(acts);
    var s := Run(INITIAL, acts);
    ExitedState(s);
  }

  lemma ExitedState(s: State)
    requires Inv(s) && s.thread.Exited?
    ensures s.queue == s.late && s.accepted == s.processed + s.late
    ensures forall c :: c in s.processed ==> c in s.calls && Gone(s.calls[c])
  {
    assert s.processed + [] + s.queue == s.processed + s.queue;
    forall c | c in s.processed
      ensures c in s.calls && Gone(s.calls[c])
    {
      ProcessedIsGone(s, c);
    }
  }

  /** Released for good: nobody holds the object or the context any more. */
  ghost predicate Gone(k: Call) {
    && k.loc == Retired && !k.attached
    && k.pbufFrees == OwnedCount(k.cmd)
    && (k.objFrees == 1 || (k.objFrees == 0 && Kept(k)))
  }

  lemma ProcessedIsGone(s: State, c: CallId)
    requires Inv(s) && s.thread.Exited? && c in s.processed
    ensures c in s.calls && Gone(s.calls[c])
  {
    assert CallOk(s.calls[c], RoleOf(s.thread, c));
  }

  // ---------------------------------------------------------------------------
  // A waiter always gets out
  // ---------------------------------------------------------------------------

  /** The actions that take the holder of a mutex out of its critical section. */
  function ExitSection(h: Holder): seq<Action> {
    match h
    case ByThread => [ThreadCheck, ThreadNotify] + [ThreadClear, ThreadUnlock]
    case ByCaller(c) => [CallerDecide(c), CallerUnlock(c)]
  }

  lemma RunAppend(s: State, xs: seq<Action>, ys: seq<Action>)
    ensures Run(s, xs + ys) == Run(Run(s, xs), ys)
  {
    if ys == [] {
      assert xs + ys == xs;
    } else {
      assert (xs + ys)[..|xs + ys| - 1] == xs + ys[..|ys| - 1];
      RunAppend(s, xs, ys[..|ys| - 1]);
    }
  }

  lemma RunOne(s: State, a: Action)
    ensures Run(s, [a]) == Step(s, a)
  {
    assert [a][..0] == [];
    assert Run(s, []) == s;
  }

  lemma RunFrom(s: State, a: Action, rest: seq<Action>)
    ensures Run(s, [a] + rest) == Run(Step(s, a), rest)
  {
    RunAppend(s, [a], rest);
    RunOne(s, a);
  }

  /** Nobody but c moves; commands stay what they are. */
  ghost predicate OthersStay(s: State, u: State, c: CallId) {
    && u.calls.Keys == s.calls.Keys
    && forall d :: d in s.calls ==> u.calls[d].cmd == s.calls[d].cmd && (d != c ==> u.calls[d].pc == s.calls[d].pc)
  }

  lemma DecideMoves(s: State, c: CallId)
    requires c in s.calls && Holds(s.calls[c].pc)
    ensures var u := DoCallerDecide(s, c); u.mutex == s.mutex && OthersStay(s, u, c) && At(u, c, Decided)
  {
  }

  lemma UnlockMoves(s: State, c: CallId)
    requires At(s, c, Decided)
    ensures var u := DoCallerUnlock(s, c);
            u.mutex == s.mutex - {s.calls[c].cmd.adapter} && OthersStay(s, u, c) && At(u, c, Released)
  {
  }

  lemma CallerExits(s: State, c: CallId)
    requires c in s.calls && Holds(s.calls[c].pc)
    ensures var u := Run(s, [CallerDecide(c), CallerUnlock(c)]);
            u.mutex == s.mutex - {s.calls[c].cmd.adapter} && OthersStay(s, u, c) && At(u, c, Released)
  {
    DecideMoves(s, c);
    UnlockMoves(DoCallerDecide(s, c), c);
    RunTwo(s, CallerDecide(c), CallerUnlock(c));
    assert Step(s, CallerDecide(c)) == DoCallerDecide(s, c);
  }

  /** No caller moves; commands stay what they are. */
  ghost predicate CallersStay(s: State, u: State) {
    && u.calls.Keys == s.calls.Keys
    && forall d :: d in s.calls ==> u.calls[d].pc == s.calls[d].pc && u.calls[d].cmd == s.calls[d].cmd
  }

  ghost predicate StillInside(s: State, u: State)
    requires s.thread.Critical?
  {
    && u.mutex == s.mutex && CallersStay(s, u)
    && u.thread.Critical? && u.thread.c == s.thread.c
  }

  lemma CheckMoves(s: State)
    requires s.thread.Critical? && s.thread.c in s.calls
    ensures var u := DoThreadCheck(s); StillInside(s, u) && u.thread.ph != Check
  {
  }

  lemma NotifyMoves(s: State)
    requires s.thread.Critical? && s.thread.c in s.calls && s.thread.ph != Check
    ensures var u := DoThreadNotify(s); StillInside(s, u) && (u.thread.ph == Clear || u.thread.ph == Release)
  {
  }

  lemma ClearMoves(s: State)
    requires s.thread.Critical? && s.thread.c in s.calls && (s.thread.ph == Clear || s.thread.ph == Release)
    ensures var u := DoThreadClear(s); StillInside(s, u) && u.thread.ph == Release
  {
  }

  lemma SectionRun(s: State)
    ensures Run(s, [ThreadCheck, ThreadNotify] + [ThreadClear, ThreadUnlock])
         == DoThreadUnlock(DoThreadClear(DoThreadNotify(DoThreadCheck(s))))
  {
    var s2 := Step(Step(s, ThreadCheck), ThreadNotify);
    RunAppend(s, [ThreadCheck, ThreadNotify], [ThreadClear, ThreadUnlock]);
    RunTwo(s, ThreadCheck, ThreadNotify);
    RunTwo(s2, ThreadClear, ThreadUnlock);
  }

  lemma ThreadExits(s: State)
    requires s.thread.Critical? && s.thread.c in s.calls
    ensures var u := Run(s, [ThreadCheck, ThreadNotify] + [ThreadClear, ThreadUnlock]);
            u.mutex == s.mutex - {s.calls[s.thread.c].cmd.adapter} && CallersStay(s, u)
  {
    var s1 := DoThreadCheck(s);
    var s2 := DoThreadNotify(s1);
    var s3 := DoThreadClear(s2);
    CheckMoves(s);
    NotifyMoves(s1);
    ClearMoves(s2);
    assert CallersStay(s, s3);
    SectionRun(s);
  }

  function WayOut(c: CallId): seq<Action> {
    [Timeout(c), CallerLock(c)] + [CallerDecide(c), CallerUnlock(c)] + [CallerReturn(c)]
  }

  /** A caller asleep or woken gets the free mutex. */
  lemma LockMoves(s: State, c: CallId)
    requires c in s.calls && (s.calls[c].pc == Waiting || s.calls[c].pc == Woken)
    requires s.calls[c].cmd.adapter !in s.mutex
    ensures At(DoCallerLock(DoTimeout(s, c), c), c, Locked)
  {
  }

  lemma LockRun(s: State, c: CallId)
    ensures Run(s, [Timeout(c), CallerLock(c)]) == DoCallerLock(DoTimeout(s, c), c)
  {
    RunFrom(s, Timeout(c), [CallerLock(c)]);
    RunOne(DoTimeout(s, c), CallerLock(c));
    assert [Timeout(c)] + [CallerLock(c)] == [Timeout(c), CallerLock(c)];
  }

  lemma FreeMutexWayOut(s: State, c: CallId)
    requires c in s.calls && (s.calls[c].pc == Waiting || s.calls[c].pc == Woken)
    requires s.calls[c].cmd.adapter !in s.mutex
    ensures At(Run(s, WayOut(c)), c, Returned)
  {
    LockMoves(s, c);
    LockRun(s, c);
    LockedWayOut(s, DoCallerLock(DoTimeout(s, c), c), c);
  }

  lemma LockedWayOut(s: State, s1: State, c: CallId)
    requires At(s1, c, Locked) && Run(s, [Timeout(c), CallerLock(c)]) == s1
    ensures At(Run(s, WayOut(c)), c, Returned)
  {
    var s2 := Run(s1, [CallerDecide(c), CallerUnlock(c)]);
    CallerExits(s1, c);
    RunAppend(s, [Timeout(c), CallerLock(c)], [CallerDecide(c), CallerUnlock(c)]);
    RunAppend(s, [Timeout(c), CallerLock(c)] + [CallerDecide(c), CallerUnlock(c)], [CallerReturn(c)]);
    RunOne(s2, CallerReturn(c));
  }

  /**
    There is no deadlock around the mutex: from every reachable state, a caller
    asleep on its context (or just woken) can return, once the present holder of
    the mutex, if any, has left its critical section.
   */
  lemma WaiterCanReturn(acts: seq<Action>, c: CallId)
    requires At(Run(INITIAL, acts), c, Waiting) || At(Run(INITIAL, acts), c, Woken)
    ensures var s := Run(INITIAL, acts);
            var a := s.calls[c].cmd.adapter;
            var release := if a in s.mutex then ExitSection(s.mutex[a]) else [];
            At(Run(INITIAL, acts + release + WayOut(c)), c, Returned)
  {
    RunKeeps(acts);
    var s := Run(INITIAL, acts);
    var a := s.calls[c].cmd.adapter;
    var release := if a in s.mutex then ExitSection(s.mutex[a]) else [];
    var u := Run(s, release);
    if a in s.mutex {
      assert HeldFor(s, s.mutex[a], a);
      match s.mutex[a] {
        case ByThread => ThreadExits(s);
        case ByCaller(d) => CallerExits(s, d);
      }
    }
    FreeMutexWayOut(u, c);
    RunAppend(INITIAL, acts, release);
    RunAppend(INITIAL, acts + release, WayOut(c));
  }

  // ---------------------------------------------------------------------------
  // The two exceptions are real
  // ---------------------------------------------------------------------------

  const CREATE_BSS := Command(0, Plain(true, true, NoCallback), false, false, true)

  lemma RunTwo(s: State, a: Action, b: Action)
    ensures Run(s, [a, b]) == Step(Step(s, a), b)
  {
    RunFrom(s, a, [b]);
    RunOne(Step(s, a), b);
    assert [a] + [b] == [a, b];
  }

  const STRANDED := State(
    map[1 := Call(CREATE_BSS, Waiting, true, Submitted, 0, false, 0, 0, Queued)],
    [1], Exited, false, map[], [1], [], [1], {})

  const CALL_PREPARED := Call(CREATE_BSS, Prepared, true, Submitted, 0, false, 0, 0, Unqueued)
  const PRODUCER_READY := INITIAL.(thread := Idle, running := true, calls := map[1 := CALL_PREPARED])
  const PRODUCER_CAUGHT :=
    INITIAL.(thread := Stopping, running := true, calls := map[1 := CALL_PREPARED.(pc := Admitted)])
  const THREAD_GONE := PRODUCER_CAUGHT.(thread := Exited, running := false)

  lemma ProducerReady()
    ensures Run(INITIAL, [ThreadStart, Prepare(1, CREATE_BSS)]) == PRODUCER_READY
  {
    RunTwo(INITIAL, ThreadStart, Prepare(1, CREATE_BSS));
  }

  lemma ProducerCaught()
    ensures Run(PRODUCER_READY, [Filter(1, true), ThreadWake(true)]) == PRODUCER_CAUGHT
  {
    RunTwo(PRODUCER_READY, Filter(1, true), ThreadWake(true));
    assert Step(PRODUCER_READY, Filter(1, true)).calls == PRODUCER_CAUGHT.calls;
  }

  lemma ThreadGone()
    ensures Run(PRODUCER_CAUGHT, [ThreadStop, DrainTake]) == THREAD_GONE
  {
    RunTwo(PRODUCER_CAUGHT, ThreadStop, DrainTake);
  }

  lemma EnqueueLands()
    ensures Run(THREAD_GONE, [Enqueue(1)]) == STRANDED
  {
    RunOne(THREAD_GONE, Enqueue(1));
    assert Step(THREAD_GONE, Enqueue(1)).calls == STRANDED.calls;
  }

  /** A producer caught between filter and queue leaves its command behind. */
  lemma LateEnqueueIsStranded()
    ensures Run(INITIAL, [ThreadStart, Prepare(1, CREATE_BSS)] + [Filter(1, true), ThreadWake(true)]
                         + [ThreadStop, DrainTake] + [Enqueue(1)])
         == STRANDED
  {
    var a, b, d := [ThreadStart, Prepare(1, CREATE_BSS)], [Filter(1, true), ThreadWake(true)], [ThreadStop, DrainTake];
    ProducerReady();
    ProducerCaught();
    ThreadGone();
    EnqueueLands();
    RunAppend(INITIAL, a, b);
    RunAppend(INITIAL, a + b, d);
    RunAppend(INITIAL, a + b + d, [Enqueue(1)]);
  }

  /**
    Retiring keeps the command object exactly outside the drain, for the callback
    of a disassociation that failed; every other object is freed, once.
   */
  lemma RetireKeepsObjectExactly(s: State, c: CallId, drain: bool)
    requires Inv(s) && s.thread == Posted(c, drain)
    ensures c in s.calls && c in Step(s, ThreadRetire).calls
    ensures var k, u := s.calls[c], Step(s, ThreadRetire).calls[c];
            && u.loc == Retired
            && (u.objFrees == 0 <==> !drain && CallbackOf(k.cmd).DisassocCallback? && !k.succeeded)
            && (u.objFrees != 0 ==> u.objFrees == 1)
    ensures Step(s, ThreadRetire).thread == if drain then Draining else Next
  {
    SubjectIsCall(s);
  }
}
