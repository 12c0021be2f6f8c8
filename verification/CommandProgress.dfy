/** What the callers and the thread do next: admission, waiting, and work that gets done. */
module CommandProgress {

  import opened Basics
  import opened CommandProtocol
  import opened CommandInvariant
  import opened CommandTheorems
  import opened CommandOutcomes

  // ---------------------------------------------------------------------------
  // Callers
  // ---------------------------------------------------------------------------

  /** A prepared command is a fresh object that nobody has, with a context exactly if it is to be acknowledged. */
  lemma PreparedIsFresh(s: State, c: CallId, cmd: Command)
    requires c !in s.calls
    ensures var r := Step(s, Prepare(c, cmd));
            && c in r.calls && r == s.(calls := r.calls) && CommandOutcomes.OthersStay(s, r, c)
            && r.calls[c].cmd == cmd && r.calls[c].pc == Prepared && r.calls[c].attached == cmd.ack
  {
  }

  /** Commands go to the tail; a caller that wants no acknowledgement is done. */
  lemma EnqueuedAtTail(s: State, c: CallId)
    requires At(s, c, Admitted)
    ensures var r := Step(s, Enqueue(c));
            && r.queue == s.queue + [c] && r.thread == s.thread && CommandOutcomes.OthersStay(s, r, c)
            && At(r, c, if s.calls[c].cmd.ack then Waiting else Returned)
  {
  }

  /** A waiter is woken by a completion of its own context, or at any time by the clock. */
  lemma WokenExactly(s: State, c: CallId)
    requires At(s, c, Waiting)
    ensures At(Step(s, Wake(c)), c, Woken) <==> s.calls[c].completions > 0
    ensures At(Step(s, Wake(c)), c, Waiting) <==> s.calls[c].completions == 0
    ensures At(Step(s, Timeout(c)), c, Woken)
  {
  }

  /** A caller leaves the mutex with its context detached: by itself, or by the thread that has completed it. */
  lemma LeavesDetached(s: State, c: CallId)
    requires Inv(s) && At(s, c, Locked)
    ensures var k, r := s.calls[c], Step(s, CallerDecide(c));
            && At(r, c, Decided) && r == s.(calls := r.calls) && CommandOutcomes.OthersStay(s, r, c)
            && r.calls[c] == k.(pc := Decided, attached := false)
            && (k.status.Done? ==> !k.attached && k.completions == 1)
            && (k.status.Submitted? ==> k.objFrees == 0)
  {
    assert CallOk(s.calls[c], RoleOf(s.thread, c));
  }

  /** A mutex that is held keeps everybody else out. */
  lemma HeldKeepsOut(s: State, c: CallId)
    requires c in s.calls && s.calls[c].cmd.adapter in s.mutex
    ensures Step(s, CallerLock(c)) == s
    ensures s.thread.Posting? && s.thread.c == c ==> Step(s, ThreadLock) == s
  {
  }

  /**
    In every run an acknowledged command that is through has completed its caller's
    context with the outcome, unless the caller had given up waiting: nobody is forgotten.
   */
  lemma NobodyIsForgotten(acts: seq<Action>, c: CallId)
    requires c in Run(INITIAL, acts).calls && Run(INITIAL, acts).calls[c].loc == Retired
    ensures var k := Run(INITIAL, acts).calls[c];
            && !k.attached
            && (k.cmd.ack ==>
                  || (k.completions == 1 && k.status == Done(HandlerReturned(acts, c) == Some(true)))
                  || (k.completions == 0 && k.status.Submitted? && k.pc in {Decided, Released, Returned}))
            && (!k.cmd.ack ==> k.completions == 0)
  {
    RunKeeps(acts);
    OutcomeIsTheHandlers(acts, c);
    assert CallOk(Run(INITIAL, acts).calls[c], RoleOf(Run(INITIAL, acts).thread, c));
  }

  // ---------------------------------------------------------------------------
  // The thread
  // ---------------------------------------------------------------------------

  /** The thread is in its loop, or on its way out of it. */
  predicate InLoop(t: ThreadPc) {
    match t
    case NotStarted => false
    case Posting(_, drain) => !drain
    case Critical(_, drain, _) => !drain
    case Posted(_, drain) => !drain
    case Draining => false
    case Exited => false
    case _ => true
  }

  /** The running mark that the filter reads is set exactly while the thread is in its loop. */
  lemma {:induction false} RunningMeans(acts: seq<Action>)
    ensures Run(INITIAL, acts).running <==> InLoop(Run(INITIAL, acts).thread)
  {
    if acts != [] {
      var front := acts[..|acts| - 1];
      RunningMeans(front);
      StepRuns(Run(INITIAL, front), acts[|acts| - 1]);
    }
  }

  lemma StepRuns(s: State, a: Action)
    requires s.running <==> InLoop(s.thread)
    ensures Step(s, a).running <==> InLoop(Step(s, a).thread)
  {
    if ByCallers(a) {
      CallersLeaveThread(s, a);
    } else if !Between(a) && !Outside(a) {
      SectionStays(s, a);
    }
  }

  lemma CallersLeaveThread(s: State, a: Action)
    requires ByCallers(a)
    ensures Step(s, a).running == s.running && Step(s, a).thread == s.thread
  {
  }

  lemma SectionStays(s: State, a: Action)
    requires !ByCallers(a) && !Between(a) && !Outside(a)
    ensures Step(s, a).running == s.running && (InLoop(Step(s, a).thread) <==> InLoop(s.thread))
  {
  }

  /** With work on the queue, three steps of the thread settle the command at the head. */
  lemma HeadIsSettled(s: State, hwInit: bool, ret: bool)
    requires Inv(s) && (s.thread.Idle? || s.thread.Next?) && s.queue != []
    ensures var c, r := s.queue[0], Run(s, [ThreadWake(false), ThreadNext(false)] + [ThreadProcess(hwInit, true, ret)]);
            && c in s.calls && s.calls[c].objFrees == 0
            && r.thread == Posting(c, false) && r.queue == s.queue[1..] && r.mutex == s.mutex
            && SettledWith(s, r, c, ret && !TurnedDown(s.calls[c].cmd, hwInit, s.running))
  {
    var c := s.queue[0];
    var s1 := Step(s, ThreadWake(false));
    var s2 := Step(s1, ThreadNext(false));
    HeadIsUnique(s);
    RunTwo(s, ThreadWake(false), ThreadNext(false));
    RunAppend(s, [ThreadWake(false), ThreadNext(false)], [ThreadProcess(hwInit, true, ret)]);
    RunOne(s2, ThreadProcess(hwInit, true, ret));
    WakeIs(s);
    TakenIs(s1, s2, c);
    ProcessOutcome(s2, ThreadProcess(hwInit, true, ret), c);
    ProcessPosts(s2, ThreadProcess(hwInit, true, ret), c);
  }

  lemma WakeIs(s: State)
    requires (s.thread.Idle? || s.thread.Next?) && s.queue != []
    ensures Step(s, ThreadWake(false)) == s.(thread := Next)
  {
  }

  lemma TakenIs(s: State, u: State, c: CallId)
    requires s.thread.Next? && s.queue != [] && c == s.queue[0] && c in s.calls
    requires u == Step(s, ThreadNext(false))
    ensures c in u.calls && u.calls[c] == s.calls[c].(loc := InHand)
    ensures u.thread == Taken(c) && u.queue == s.queue[1..] && u.processed == s.processed
    ensures u.mutex == s.mutex && u.running == s.running && CommandOutcomes.OthersStay(s, u, c)
  {
    assert u == DoThreadNext(s, false);
  }

  lemma ProcessPosts(s: State, a: Action, c: CallId)
    requires a.ThreadProcess? && s.thread == Taken(c) && c in s.calls
    ensures var r := Step(s, a);
            && r.mutex == s.mutex
            && (a.alive || TurnedDown(s.calls[c].cmd, a.hwInit, s.running) ==>
                  r.thread == Posting(c, false) && r.queue == s.queue)
  {
    assert Step(s, a) == DoThreadProcess(s, a.hwInit, a.alive, a.ret);
  }

  /** The steps of the thread between a settled outcome and the next command. */
  const FINISH := [ThreadLock] + [ThreadCheck, ThreadNotify] + [ThreadClear, ThreadUnlock] + [ThreadRetire]

  lemma FinishSplits(s: State)
    ensures Run(s, FINISH)
         == Step(Run(Step(s, ThreadLock), [ThreadCheck, ThreadNotify] + [ThreadClear, ThreadUnlock]), ThreadRetire)
  {
    var b := [ThreadCheck, ThreadNotify] + [ThreadClear, ThreadUnlock];
    assert FINISH == [ThreadLock] + b + [ThreadRetire];
    RunAppend(s, [ThreadLock] + b, [ThreadRetire]);
    RunAppend(s, [ThreadLock], b);
    RunOne(s, ThreadLock);
    RunOne(Run(Step(s, ThreadLock), b), ThreadRetire);
  }

  lemma FinishRun(s: State)
    ensures Run(s, FINISH)
         == DoThreadRetire(DoThreadUnlock(DoThreadClear(DoThreadNotify(DoThreadCheck(DoThreadLock(s))))))
  {
    FinishSplits(s);
    SectionRun(DoThreadLock(s));
  }

  /**
    With the mutex free, the context is completed with the outcome, if it is still there (and then
    its caller is), and the thread moves on; the object has been alive all along.
   */
  lemma OutcomeIsDelivered(s: State, c: CallId, drain: bool)
    requires Inv(s) && s.thread == Posting(c, drain) && c in s.calls && s.calls[c].cmd.adapter !in s.mutex
    ensures var k, r := s.calls[c], Run(s, FINISH);
            && k.objFrees == 0 && (k.attached ==> k.pc in {Waiting, Woken, Locked})
            && r.thread == (if drain then Draining else Next) && r.queue == s.queue && r.mutex == s.mutex
            && CommandOutcomes.OthersStay(s, r, c) && c in r.calls
            && r.calls[c] == k.(loc := Retired, attached := false, objFrees := r.calls[c].objFrees,
                                completions := if k.attached then 1 else 0,
                                status := if k.attached then Done(k.succeeded) else Submitted)
  {
    PostingIsOpen(s, c, drain);
    Delivered(s, c, drain);
  }

  lemma Delivered(s: State, c: CallId, drain: bool)
    requires s.thread == Posting(c, drain) && c in s.calls && s.calls[c].cmd.adapter !in s.mutex
    requires Open(s.calls[c]) && (drain ==> !s.calls[c].succeeded)
    ensures var k, r := s.calls[c], Run(s, FINISH);
            && r.thread == (if drain then Draining else Next) && r.queue == s.queue && r.mutex == s.mutex
            && c in r.calls
            && r.calls == s.calls[c := k.(loc := Retired, attached := false, objFrees := r.calls[c].objFrees,
                                          completions := if k.attached then 1 else 0,
                                          status := if k.attached then Done(k.succeeded) else Submitted)]
  {
    FinishRun(s);
    SectionIs(s, DoThreadLock(s), c, drain);
    var u := DoThreadUnlock(DoThreadClear(DoThreadNotify(DoThreadCheck(DoThreadLock(s)))));
    RetireIs(u, c, drain);
  }

  /** Inside the section, in this phase, with only the call's context changed since it began. */
  ghost predicate Inside(s: State, u: State, c: CallId, drain: bool, ph: Phase, k: Call) {
    && u.thread == Critical(c, drain, ph) && u.queue == s.queue && u.calls == s.calls[c := k]
    && u.mutex == s.mutex[k.cmd.adapter := ByThread]
  }

  lemma LockIs(s: State, c: CallId, drain: bool)
    requires s.thread == Posting(c, drain) && c in s.calls && s.calls[c].cmd.adapter !in s.mutex
    ensures Inside(s, DoThreadLock(s), c, drain, Check, s.calls[c])
  {
    assert s.calls == s.calls[c := s.calls[c]];
  }

  lemma CheckIs(s: State, u: State, c: CallId, drain: bool, k: Call)
    requires Inside(s, u, c, drain, Check, k) && (drain ==> !k.succeeded)
    ensures if k.attached then Inside(s, DoThreadCheck(u), c, drain, Notify, k.(status := Done(k.succeeded)))
            else Inside(s, DoThreadCheck(u), c, drain, Release, k)
  {
  }

  lemma NotifyIs(s: State, u: State, c: CallId, drain: bool, k: Call)
    requires Inside(s, u, c, drain, Notify, k)
    ensures Inside(s, DoThreadNotify(u), c, drain, Clear, k.(completions := k.completions + 1))
  {
  }

  lemma ClearIs(s: State, u: State, c: CallId, drain: bool, k: Call)
    requires Inside(s, u, c, drain, Clear, k)
    ensures Inside(s, DoThreadClear(u), c, drain, Release, k.(attached := false))
  {
  }

  lemma UnlockIs(s: State, u: State, c: CallId, drain: bool, k: Call)
    requires Inside(s, u, c, drain, Release, k) && k.cmd.adapter !in s.mutex
    ensures DoThreadClear(DoThreadNotify(u)) == u
    ensures var r := DoThreadUnlock(u);
            r.thread == Posted(c, drain) && r.queue == s.queue && r.mutex == s.mutex && r.calls == s.calls[c := k]
  {
  }

  lemma PostingIsOpen(s: State, c: CallId, drain: bool)
    requires Inv(s) && s.thread == Posting(c, drain)
    ensures c in s.calls && Open(s.calls[c]) && s.calls[c].objFrees == 0 && (drain ==> !s.calls[c].succeeded)
  {
    SubjectIsCall(s);
  }

  lemma SectionIs(s: State, t: State, c: CallId, drain: bool)
    requires s.thread == Posting(c, drain) && c in s.calls && s.calls[c].cmd.adapter !in s.mutex
    requires Open(s.calls[c]) && (drain ==> !s.calls[c].succeeded) && t == DoThreadLock(s)
    ensures var k, u := s.calls[c], DoThreadUnlock(DoThreadClear(DoThreadNotify(DoThreadCheck(t))));
            && u.thread == Posted(c, drain) && u.queue == s.queue && u.mutex == s.mutex
            && u.calls == s.calls[c := k.(attached := false, completions := if k.attached then 1 else 0,
                                          status := if k.attached then Done(k.succeeded) else Submitted)]
  {
    var k := s.calls[c];
    LockIs(s, c, drain);
    CheckIs(s, t, c, drain, k);
    var u := DoThreadCheck(t);
    if k.attached {
      var written := k.(status := Done(k.succeeded));
      var notified := written.(completions := 1);
      NotifyIs(s, u, c, drain, written);
      ClearIs(s, DoThreadNotify(u), c, drain, notified);
      UnlockIs(s, DoThreadClear(DoThreadNotify(u)), c, drain, notified.(attached := false));
    } else {
      UnlockIs(s, u, c, drain, k);
    }
  }

  lemma RetireIs(s: State, c: CallId, drain: bool)
    requires s.thread == Posted(c, drain) && c in s.calls
    ensures var r := DoThreadRetire(s);
            && r.thread == (if drain then Draining else Next) && r.queue == s.queue && r.mutex == s.mutex
            && c in r.calls
            && r.calls == s.calls[c := s.calls[c].(loc := Retired, objFrees := r.calls[c].objFrees)]
  {
    FreedAlike(s, c);
  }

  /** With nothing to do the thread goes to sleep, and stays asleep. */
  lemma RestsOnEmpty(s: State)
    requires (s.thread.Idle? || s.thread.Next?) && s.queue == []
    ensures Run(s, [ThreadNext(false), ThreadWake(false)]) == s.(thread := Idle)
  {
    RunTwo(s, ThreadNext(false), ThreadWake(false));
  }

  /** Told to stop, the thread leaves its loop from either waiting point, and lets nobody else in. */
  lemma StopsWhenTold(s: State)
    requires s.thread.Idle? || s.thread.Next?
    ensures Run(s, [ThreadWake(true), ThreadNext(true)] + [ThreadStop]) == s.(thread := Draining, running := false)
  {
    var u := Step(Step(s, ThreadWake(true)), ThreadNext(true));
    RunTwo(s, ThreadWake(true), ThreadNext(true));
    RunAppend(s, [ThreadWake(true), ThreadNext(true)], [ThreadStop]);
    RunOne(u, ThreadStop);
  }

  /** Whatever waits on the queue is whole. */
  lemma QueuedIsWhole(acts: seq<Action>, c: CallId)
    requires c in Run(INITIAL, acts).queue
    ensures c in Run(INITIAL, acts).calls
    ensures var k := Run(INITIAL, acts).calls[c];
            k.objFrees == 0 && k.pbufFrees == 0 && !k.cmd.oversize && k.completions == 0
  {
    RunKeeps(acts);
    assert CallOk(Run(INITIAL, acts).calls[c], RoleOf(Run(INITIAL, acts).thread, c));
  }

  /** The final loop takes the head while there is one, and ends only on an empty queue. */
  lemma DrainGoesOn(s: State)
    requires s.thread.Draining? && (s.queue != [] ==> s.queue[0] in s.calls)
    ensures var r := Step(s, DrainTake);
            if s.queue == [] then r == s.(thread := Exited)
            else r.thread == Posting(s.queue[0], true) && r.queue == s.queue[1..] && r.mutex == s.mutex
  {
    assert Step(s, DrainTake) == DoDrainTake(s);
  }
}
