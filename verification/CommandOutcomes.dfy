/** What a caller reads as the outcome is what the handler returned. */
module CommandOutcomes {

  import opened Basics
  import opened CommandProtocol
  import opened CommandInvariant

  /**
    Leaving set mode always passes the filter; otherwise the thread must be running,
    and the hardware up unless the command is a channel plan or needs no I/O.
   */
  predicate Passes(cmd: Command, hwInit: bool, running: bool) {
    || (cmd.kind.DrvExtra? && cmd.kind.leaveSetMode)
    || (running && (hwInit || cmd.kind.SetChanPlan? || cmd.noIo))
  }

  /** The command is turned down without its handler: too long, unknown, or filtered out. */
  predicate TurnedDown(cmd: Command, hwInit: bool, running: bool) {
    cmd.oversize || (cmd.kind.Plain? && !(cmd.kind.defined && cmd.kind.hasHandler)) || !Passes(cmd, hwInit, running)
  }

  /** The thread has the command in hand, nothing turns it down, and the adapter is awake if need be. */
  ghost predicate HandlerRuns(s: State, a: Action, c: CallId) {
    && a.ThreadProcess? && s.thread == Taken(c) && c in s.calls
    && !TurnedDown(s.calls[c].cmd, a.hwInit, s.running)
    && (a.alive || s.calls[c].cmd.noIo)
  }

  /** What the handler returned the last time it ran for the command, if it ever did. */
  ghost function HandlerReturned(acts: seq<Action>, c: CallId): Option<bool> {
    if acts == [] then None
    else
      var front, a := acts[..|acts| - 1], acts[|acts| - 1];
      if HandlerRuns(Run(INITIAL, front), a, c) then Some(a.ret) else HandlerReturned(front, c)
  }

  ghost function TimesRun(acts: seq<Action>, c: CallId): nat {
    if acts == [] then 0
    else
      var front, a := acts[..|acts| - 1], acts[|acts| - 1];
      TimesRun(front, c) + if HandlerRuns(Run(INITIAL, front), a, c) then 1 else 0
  }

  predicate Settled(k: Call) {
    k.loc == Finishing || k.loc == Retired
  }

  // ---------------------------------------------------------------------------
  // One step
  // ---------------------------------------------------------------------------

  /** A release touches the counts of that call only. */
  lemma FreedAlike(s: State, c: CallId)
    requires c in s.calls
    ensures var f, k := FreePbuf(s, c), s.calls[c];
            && f.processed == s.processed && f.queue == s.queue && c in f.calls
            && f.calls == s.calls[c := k.(pbufFrees := f.calls[c].pbufFrees)]
    ensures var f, k := FreeObj(s, c), s.calls[c];
            && f.processed == s.processed && f.queue == s.queue && c in f.calls
            && f.calls == s.calls[c := k.(objFrees := f.calls[c].objFrees)]
  {
    assert s.calls == s.calls[c := s.calls[c]];
  }

  /** The filter in front of the queue lets through exactly what the thread would not turn down. */
  lemma FilterExactly(s: State, c: CallId, hwInit: bool)
    requires At(s, c, Prepared)
    ensures var cmd, r := s.calls[c].cmd, Step(s, Filter(c, hwInit));
            && c in r.calls
            && (r.calls[c].pc == Admitted <==> Passes(cmd, hwInit, s.running) && !cmd.oversize)
            && (r.calls[c].pc != Admitted ==> r.calls[c].pc == Returned && r.calls[c].loc == Rejected)
            && r.calls[c].succeeded == s.calls[c].succeeded
            && OthersStay(s, r, c)
  {
    FreedAlike(s, c);
    FreedAlike(FreePbuf(s, c), c);
    assert Step(s, Filter(c, hwInit)) == DoFilter(s, c, hwInit);
  }

  /** The command is settled with this outcome, and nothing happens to the other calls. */
  ghost predicate SettledWith(s: State, r: State, c: CallId, ok: bool) {
    && c in r.calls && Settled(r.calls[c]) && r.calls[c].succeeded == ok
    && r.processed == s.processed + [c] && OthersStay(s, r, c)
  }

  ghost predicate OthersStay(s: State, r: State, c: CallId) {
    forall d :: d != c ==> (d in r.calls <==> d in s.calls) && (d in s.calls ==> r.calls[d] == s.calls[d])
  }

  lemma SettleIs(s: State, c: CallId, ok: bool)
    requires c in s.calls
    ensures SettledWith(s, Settle(s, c, ok), c, ok) && c in FreePbuf(s, c).calls
    ensures SettledWith(s, Settle(FreePbuf(s, c), c, ok), c, ok)
  {
    FreedAlike(s, c);
  }

  /** The thread's work on the command in hand: the handler's result, a refusal, or back to the head of the queue. */
  lemma ProcessOutcome(s: State, a: Action, c: CallId)
    requires a.ThreadProcess? && s.thread == Taken(c) && c in s.calls
    ensures var k, r := s.calls[c], Step(s, a);
            if HandlerRuns(s, a, c) then SettledWith(s, r, c, a.ret)
            else if TurnedDown(k.cmd, a.hwInit, s.running) then SettledWith(s, r, c, false)
            else r == s.(thread := Idle, queue := [c] + s.queue, calls := s.calls[c := k.(loc := Queued)])
  {
    SettleIs(s, c, false);
    SettleIs(s, c, a.ret);
    assert Step(s, a) == DoThreadProcess(s, a.hwInit, a.alive, a.ret);
  }

  /** A drained command has failed. */
  lemma DrainOutcome(s: State, c: CallId)
    requires s.thread.Draining? && s.queue != [] && c == s.queue[0] && c in s.calls
    ensures SettledWith(s, Step(s, DrainTake), c, false)
  {
    var raised := Raise(s, s.calls[c].objFrees > 0, UsedFreedObject);
    FreedAlike(raised, c);
    assert Step(s, DrainTake) == DoDrainTake(s);
  }

  /** The step does not settle the command. */
  ghost predicate Elsewhere(s: State, a: Action, c: CallId) {
    && !(a.ThreadProcess? && s.thread == Taken(c))
    && !(a.DrainTake? && s.thread.Draining? && s.queue != [] && s.queue[0] == c)
  }

  /** The outcome is as it was. */
  ghost predicate Untouched(s: State, u: State, c: CallId)
    requires c in s.calls
  {
    c in u.calls && u.calls[c].succeeded == s.calls[c].succeeded && (Settled(s.calls[c]) ==> Settled(u.calls[c]))
  }

  /** A call that is not through with its filter and queue is not settled. */
  lemma NotYetSettled(s: State, c: CallId)
    requires Inv(s) && c in s.calls
    ensures s.calls[c].pc == Prepared || s.calls[c].pc == Admitted ==> !Settled(s.calls[c])
  {
    assert CallOk(s.calls[c], RoleOf(s.thread, c));
  }

  lemma CallersLeaveOutcomes(s: State, a: Action, c: CallId)
    requires c in s.calls && (a.Prepare? || a.Filter? || a.Enqueue?)
    requires s.calls[c].pc == Prepared || s.calls[c].pc == Admitted ==> !Settled(s.calls[c])
    ensures Untouched(s, Step(s, a), c)
  {
    match a
    case Prepare(_, _) =>
    case Filter(d, hwInit) =>
      if At(s, d, Prepared) {
        FilterExactly(s, d, hwInit);
      }
    case Enqueue(_) =>
  }

  lemma WaitersLeaveOutcomes(s: State, a: Action, c: CallId)
    requires c in s.calls && ByCallers(a) && !a.Prepare? && !a.Filter? && !a.Enqueue?
    ensures Untouched(s, Step(s, a), c)
  {
  }

  lemma LoopLeavesOutcomes(s: State, a: Action, c: CallId)
    requires Inv(s) && c in s.calls && Between(a)
    ensures Untouched(s, Step(s, a), c)
  {
    if a.ThreadNext? && s.queue != [] {
      HeadIsUnique(s);
    }
  }

  lemma SectionLeavesOutcomes(s: State, a: Action, c: CallId)
    requires c in s.calls && !ByCallers(a) && !Between(a) && !Outside(a)
    ensures Untouched(s, Step(s, a), c)
  {
  }

  lemma WorkLeavesOutcomes(s: State, a: Action, c: CallId)
    requires c in s.calls && Outside(a) && Elsewhere(s, a, c)
    ensures Untouched(s, Step(s, a), c)
  {
    match a
    case ThreadProcess(_, _, _) =>
      if s.thread.Taken? && s.thread.c in s.calls {
        ProcessOutcome(s, a, s.thread.c);
      }
    case DrainTake =>
      if s.thread.Draining? && s.queue != [] && s.queue[0] in s.calls {
        DrainOutcome(s, s.queue[0]);
      }
    case ThreadRetire =>
  }

  /** No other step touches an outcome. */
  lemma OutcomeStays(s: State, a: Action, c: CallId)
    requires Inv(s) && c in s.calls && Elsewhere(s, a, c)
    ensures Untouched(s, Step(s, a), c)
  {
    if a.Prepare? || a.Filter? || a.Enqueue? {
      NotYetSettled(s, c);
      CallersLeaveOutcomes(s, a, c);
    } else if ByCallers(a) {
      WaitersLeaveOutcomes(s, a, c);
    } else if Between(a) {
      LoopLeavesOutcomes(s, a, c);
    } else if Outside(a) {
      WorkLeavesOutcomes(s, a, c);
    } else {
      SectionLeavesOutcomes(s, a, c);
    }
  }

  /** A call that appears has no outcome yet. */
  lemma FreshOutcome(s: State, a: Action, c: CallId)
    requires c !in s.calls && c in Step(s, a).calls
    ensures a.Prepare? && !Step(s, a).calls[c].succeeded
  {
    match a
    case Prepare(_, _) =>
    case Filter(d, hwInit) =>
      if At(s, d, Prepared) {
        FilterExactly(s, d, hwInit);
      }
    case ThreadProcess(_, _, _) =>
      if s.thread.Taken? && s.thread.c in s.calls {
        ProcessOutcome(s, a, s.thread.c);
      }
    case DrainTake =>
      if s.thread.Draining? && s.queue != [] && s.queue[0] in s.calls {
        DrainOutcome(s, s.queue[0]);
      }
    case _ =>
  }

  lemma ProcessedGrows(s: State, a: Action, c: CallId)
    requires c in s.processed || HandlerRuns(s, a, c)
    ensures c in Step(s, a).processed
  {
    match a
    case ThreadProcess(_, _, _) =>
      if s.thread.Taken? && s.thread.c in s.calls {
        ProcessOutcome(s, a, s.thread.c);
      }
    case DrainTake =>
      if s.thread.Draining? && s.queue != [] && s.queue[0] in s.calls {
        DrainOutcome(s, s.queue[0]);
      }
    case _ =>
  }

  // ---------------------------------------------------------------------------
  // Whole runs
  // ---------------------------------------------------------------------------

  /** The outcome of one call, given what its handler returned and how often it ran. */
  ghost predicate OutcomeOk(s: State, c: CallId, ret: Option<bool>, times: nat) {
    && times == (if ret == None then 0 else 1)
    && (c !in s.calls ==> ret == None)
    && (ret.Some? ==> c in s.processed)
    && (c in s.calls ==> (s.calls[c].succeeded <==> ret == Some(true)) && (!Settled(s.calls[c]) ==> ret == None))
  }

  lemma StepOutcome(s: State, a: Action, c: CallId, ret: Option<bool>, times: nat)
    requires Inv(s) && OutcomeOk(s, c, ret, times)
    ensures var runs := HandlerRuns(s, a, c);
            OutcomeOk(Step(s, a), c, if runs then Some(a.ret) else ret, times + if runs then 1 else 0)
  {
    if c in s.processed || HandlerRuns(s, a, c) {
      ProcessedGrows(s, a, c);
    }
    if c !in s.calls {
      if c in Step(s, a).calls {
        FreshOutcome(s, a, c);
      }
    } else if Elsewhere(s, a, c) {
      OutcomeStays(s, a, c);
    } else if a.ThreadProcess? {
      assert CallOk(s.calls[c], RoleOf(s.thread, c));
      ProcessOutcome(s, a, c);
    } else {
      HeadIsUnique(s);
      DrainOutcome(s, c);
    }
  }

  lemma {:induction false} RunOutcome(acts: seq<Action>, c: CallId)
    ensures OutcomeOk(Run(INITIAL, acts), c, HandlerReturned(acts, c), TimesRun(acts, c))
  {
    if acts != [] {
      var front := acts[..|acts| - 1];
      RunKeeps(front);
      RunOutcome(front, c);
      StepOutcome(Run(INITIAL, front), acts[|acts| - 1], c, HandlerReturned(front, c), TimesRun(front, c));
    }
  }

  /**
    In every run the handler of a command runs at most once, and the command has
    succeeded exactly if it ran and returned success: that is also what a waiting
    caller reads.  Commands that are turned down or drained have failed.
   */
  lemma OutcomeIsTheHandlers(acts: seq<Action>, c: CallId)
    requires c in Run(INITIAL, acts).calls
    ensures var k, ret := Run(INITIAL, acts).calls[c], HandlerReturned(acts, c);
            && TimesRun(acts, c) <= 1
            && (k.succeeded <==> ret == Some(true))
            && (k.status.Done? ==> k.status == Done(ret == Some(true)))
            && (k.completions == 1 ==> k.status == Done(ret == Some(true)))
            && (ret.Some? ==> c in Run(INITIAL, acts).processed)
  {
    RunKeeps(acts);
    RunOutcome(acts, c);
    StatusIsOutcome(Run(INITIAL, acts), c);
  }

  lemma StatusIsOutcome(s: State, c: CallId)
    requires Inv(s) && c in s.calls
    ensures var k := s.calls[c];
            (k.status.Done? ==> k.status == Done(k.succeeded)) && (k.completions == 1 ==> k.status.Done?)
  {
    assert CallOk(s.calls[c], RoleOf(s.thread, c));
  }
}
