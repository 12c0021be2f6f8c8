/**
  The command queue in the driver's own objects.  `Valid` ties command objects,
  contexts and the pointers between them to a state of the protocol; every atomic
  section, through these pointers, has the effect of one of the protocol's steps.
 */
module CommandDriver {
  import opened Basics
  import opened CommandProtocol
  import opened CommandInvariant
  import opened CommandObjects
  import CommandTheorems

  class CmdPriv {
    var queue: seq<CmdObj>
    var running: bool
    var mutex: map<AdapterId, Holder>
    /** All objects and contexts so far, and the calls they stand for. */
    ghost var objs: set<CmdObj>
    ghost var ctxs: set<SubmitCtx>
    ghost var calls: map<CallId, Call>
    /** Where the thread is, and the histories. */
    ghost var thread: ThreadPc
    ghost var accepted: seq<CallId>
    ghost var processed: seq<CallId>
    ghost var late: seq<CallId>
    ghost var faults: set<Fault>

    ghost predicate Valid()
      reads this, objs, ctxs
    {
      Mirrors(objs, ctxs, calls) && forall o :: o in queue ==> o in objs
    }

    /** The protocol's state: the calls behind the objects, the list's order, the histories. */
    ghost function View(): State
      reads this
    {
      State(calls, Ids(queue), thread, running, mutex, accepted, processed, late, faults)
    }

    /** The object of a call. */
    ghost predicate Is(pcmd: CmdObj, c: CallId)
      reads this
    {
      pcmd in objs && pcmd.id == c
    }

    /** The object in the thread's hands. */
    ghost predicate InHands(pcmd: CmdObj)
      reads this
    {
      && (thread.Taken? || thread.Posting? || thread.Critical? || thread.Posted?)
      && Is(pcmd, thread.c)
    }

    constructor ()
      ensures Valid() && View() == INITIAL
    {
      queue, running, mutex := [], false, map[];
      objs, ctxs, calls, thread := {}, {}, map[], NotStarted;
      accepted, processed, late, faults := [], [], [], {};
    }

    // -------------------------------------------------------------------------
    // The caller
    // -------------------------------------------------------------------------

    method Prepare(ghost c: CallId, cmd: Command) returns (pcmd: CmdObj, sctx: SubmitCtx?)
      requires Valid() && c !in calls
      modifies this`objs, this`ctxs, this`calls
      ensures Valid() && View() == DoPrepare(old(View()), c, cmd)
      ensures Is(pcmd, c) && fresh(pcmd) && pcmd.cmd == cmd && pcmd.own == sctx
    {
      pcmd, sctx := NewCommand(c, cmd, objs, ctxs, calls);
      objs := objs + {pcmd};
      ctxs := if sctx == null then ctxs else ctxs + {sctx};
      calls := calls[c := Call(cmd, Prepared, cmd.ack, Submitted, 0, false, 0, 0, Unqueued)];
    }

    /** `rtw_mfree` of an owned pbuf. */
    method ReleasePbuf(pcmd: CmdObj)
      requires Valid() && pcmd in objs
      modifies this`calls, this`faults, pcmd`pbufFrees
      ensures Valid() && pcmd.id in old(calls) && View() == FreePbuf(old(View()), pcmd.id)
    {
      Known(pcmd, objs, ctxs, calls);
      if OwnsPbuf(pcmd.cmd) {
        ghost var k := calls[pcmd.id];
        faults := if k.pbufFrees > 0 then faults + {FreedPbufTwice} else faults;
        calls := CountPbufFree(pcmd, objs, ctxs, calls);
      }
    }

    /** `rtw_free_cmd_obj`. */
    method ReleaseObj(pcmd: CmdObj)
      requires Valid() && pcmd in objs
      modifies this`calls, this`faults, pcmd`objFrees
      ensures Valid() && pcmd.id in old(calls) && View() == FreeObj(old(View()), pcmd.id)
    {
      Known(pcmd, objs, ctxs, calls);
      ghost var k := calls[pcmd.id];
      faults := if k.objFrees > 0 then faults + {FreedObjectTwice} else faults;
      calls := CountFree(pcmd, objs, ctxs, calls);
    }

    /** The parties of a call move on. */
    ghost method Place(c: CallId, pc: CallerPc, loc: Location)
      requires Valid() && c in calls
      modifies this`calls
      ensures Valid() && calls == old(calls)[c := old(calls[c]).(pc := pc, loc := loc)]
    {
      Moved(objs, ctxs, calls, c, pc, loc);
      calls := calls[c := calls[c].(pc := pc, loc := loc)];
    }

    /** `rtw_enqueue_cmd` up to the queue: reject and release, or admit. */
    method AdmitOrReject(pcmd: CmdObj, hwInit: bool) returns (admitted: bool)
      requires Valid() && pcmd in objs && At(View(), pcmd.id, Prepared)
      modifies this`calls, this`faults, pcmd`objFrees, pcmd`pbufFrees
      ensures Valid() && View() == DoFilter(old(View()), pcmd.id, hwInit)
      ensures admitted <==> At(View(), pcmd.id, Admitted)
    {
      Known(pcmd, objs, ctxs, calls);
      ghost var c := pcmd.id;
      admitted := Allowed(pcmd.cmd, hwInit, running) && !pcmd.cmd.oversize;
      if !admitted {
        ReleasePbuf(pcmd);
        ReleaseObj(pcmd);
        Place(c, Returned, Rejected);
      } else {
        Place(c, Admitted, calls[c].loc);
      }
    }

    /** `_rtw_enqueue_cmd(queue, obj, 0)`. */
    method EnqueueTail(pcmd: CmdObj)
      requires Valid() && pcmd in objs && At(View(), pcmd.id, Admitted)
      modifies this`calls, this`queue, this`accepted, this`late
      ensures Valid() && View() == DoEnqueue(old(View()), pcmd.id)
    {
      Known(pcmd, objs, ctxs, calls);
      ghost var c := pcmd.id;
      Place(c, if pcmd.cmd.ack then Waiting else Returned, Queued);
      queue := queue + [pcmd];
      accepted := accepted + [c];
      late := if thread.Exited? then late + [c] else late;
    }

    /** The test of the caller's own context, and the pointer's end. */
    method TestAndDetach(pcmd: CmdObj, sctx: SubmitCtx)
      requires Valid() && pcmd in objs && pcmd.own == sctx && At(View(), pcmd.id, Locked)
      modifies this`calls, this`faults, pcmd`sctx
      ensures Valid() && View() == DoCallerDecide(old(View()), pcmd.id)
    {
      Known(pcmd, objs, ctxs, calls);
      ghost var c := pcmd.id;
      ghost var k := calls[c];
      if sctx.status == Submitted {
        faults := if k.objFrees > 0 then faults + {WroteFreedObject} else faults;
        calls := ClearSctx(pcmd, objs, ctxs, calls);
      }
      Place(c, Decided, calls[c].loc);
    }

    /**
      `if (sctx.status == RTW_SCTX_SUBMITTED) cmdobj->sctx = NULL`, in the caller's
      critical section: in any state that a run can reach, an object that is written
      has not been freed.
     */
    method DetachContext(pcmd: CmdObj, sctx: SubmitCtx)
      requires Valid() && pcmd in objs && pcmd.own == sctx && At(View(), pcmd.id, Locked)
      modifies this`calls, this`faults, pcmd`sctx
      ensures Valid() && View() == DoCallerDecide(old(View()), pcmd.id)
      ensures Sound(old(View())) ==> Sound(View()) && faults == old(faults)
      ensures Sound(old(View())) && sctx.status == Submitted ==> pcmd.objFrees == 0
    {
      Known(pcmd, objs, ctxs, calls);
      if Sound(View()) {
        DetachIsSafe(View(), pcmd.id);
      }
      TestAndDetach(pcmd, sctx);
    }

    // -------------------------------------------------------------------------
    // The thread
    // -------------------------------------------------------------------------

    /** `_rtw_dequeue_cmd` at label _next, and the counters around it. */
    method TakeNext(cannotRun: bool) returns (pcmd: CmdObj?)
      requires Valid() && thread.Next?
      modifies this`calls, this`queue, this`thread, this`faults
      ensures Valid() && View() == DoThreadNext(old(View()), cannotRun)
      ensures pcmd != null <==> !cannotRun && old(queue) != []
      ensures pcmd != null ==> InHands(pcmd) && thread.Taken?
    {
      pcmd := null;
      if cannotRun {
        thread := Stopping;
        return;
      }
      if queue == [] {
        thread := Idle;
        return;
      }
      pcmd := TakeHead();
    }

    method TakeHead() returns (pcmd: CmdObj)
      requires Valid() && thread.Next? && queue != []
      modifies this`calls, this`queue, this`thread, this`faults
      ensures Valid() && View() == DoThreadNext(old(View()), false)
      ensures pcmd == old(queue)[0] && InHands(pcmd) && thread.Taken?
    {
      pcmd := queue[0];
      Known(pcmd, objs, ctxs, calls);
      ghost var c := pcmd.id;
      IdsTail(queue);
      NextIs(View(), c);
      faults := if calls[c].objFrees > 0 then faults + {UsedFreedObject} else faults;
      queue := queue[1..];
      thread := Taken(c);
      Place(c, calls[c].pc, InHand);
    }

    /** The outcome is settled: `res` is written. */
    method SettleResult(pcmd: CmdObj, ok: bool)
      requires Valid() && pcmd in objs && thread == Taken(pcmd.id)
      modifies this`calls, this`thread, this`processed, pcmd`succeeded
      ensures Valid() && pcmd.id in old(calls) && View() == Settle(old(View()), pcmd.id, ok)
    {
      ghost var now := WriteOutcome(pcmd, ok, objs, ctxs, calls);
      calls, processed, thread := now, processed + [pcmd.id], Posting(pcmd.id, false);
    }

    /** The checks, the filter, the re-insertion at the head and the handler. */
    method Process(pcmd: CmdObj, hwInit: bool, alive: bool, ret: bool)
      requires Valid() && thread.Taken? && InHands(pcmd)
      modifies this`calls, this`queue, this`thread, this`processed, this`faults, pcmd`succeeded, pcmd`pbufFrees
      ensures Valid() && View() == DoThreadProcess(old(View()), hwInit, alive, ret)
    {
      Known(pcmd, objs, ctxs, calls);
      var cmd := pcmd.cmd;
      if cmd.oversize {
        SettleResult(pcmd, false);
      } else if cmd.kind.Plain? && (!cmd.kind.defined || !cmd.kind.hasHandler) {
        SettleResult(pcmd, false);
      } else if !Allowed(cmd, hwInit, running) {
        ReleasePbuf(pcmd);
        SettleResult(pcmd, false);
      } else if !cmd.noIo && !alive {
        Place(pcmd.id, calls[pcmd.id].pc, Queued);
        IdsHead(pcmd, queue);
        queue := [pcmd] + queue;
        thread := Idle;
      } else {
        ReleasePbuf(pcmd);
        SettleResult(pcmd, ret);
      }
    }

    // The critical section at label post_process, access by access.

    method LockContext(pcmd: CmdObj)
      requires Valid() && thread.Posting? && InHands(pcmd) && pcmd.cmd.adapter !in mutex
      modifies this`mutex, this`thread
      ensures Valid() && View() == DoThreadLock(old(View()))
      ensures InHands(pcmd) && InPhase(View(), Check) && thread.drain == old(thread.drain)
      ensures mutex == old(mutex)[pcmd.cmd.adapter := ByThread]
    {
      Known(pcmd, objs, ctxs, calls);
      mutex := mutex[pcmd.cmd.adapter := ByThread];
      thread := Critical(thread.c, thread.drain, Check);
    }

    /** `if (pcmd->sctx)`, and the write of the status through it. */
    method CheckContext(pcmd: CmdObj, status: Status) returns (attached: bool)
      requires Valid() && InHands(pcmd) && InPhase(View(), Check)
      requires status == Done(pcmd.succeeded && !thread.drain)
      modifies this`calls, this`thread, this`faults, Own(pcmd)`status
      ensures Valid() && View() == DoThreadCheck(old(View()))
      ensures attached <==> pcmd.sctx != null
      ensures thread == old(thread).(ph := if attached then Notify else Release) && InPhase(View(), thread.ph)
    {
      Known(pcmd, objs, ctxs, calls);
      attached := pcmd.sctx != null;
      if attached {
        WriteContext(pcmd, status);
      } else {
        thread := thread.(ph := Release);
      }
    }

    /** The write through the pointer. */
    method WriteContext(pcmd: CmdObj, status: Status)
      requires Valid() && InHands(pcmd) && InPhase(View(), Check) && pcmd.sctx != null
      modifies this`calls, this`thread, this`faults, Own(pcmd)`status
      ensures Valid() && pcmd.id in old(calls) && thread == old(thread).(ph := Notify)
      ensures calls == old(calls)[pcmd.id := old(calls[pcmd.id]).(status := status)]
      ensures faults == if old(calls[pcmd.id]).pc.Returned? then old(faults) + {CompletedDeadContext} else old(faults)
    {
      Known(pcmd, objs, ctxs, calls);
      ghost var k, was := calls[pcmd.id], calls;
      thread := thread.(ph := Notify);
      faults := if k.pc.Returned? then faults + {CompletedDeadContext} else faults;
      calls := calls[pcmd.id := k.(status := status)];
      ghost var now := WriteStatus(pcmd, status, objs, ctxs, was);
    }

    /** `complete(&((*sctx)->done))`. */
    method NotifyContext(pcmd: CmdObj)
      requires Valid() && InHands(pcmd) && InPhase(View(), Notify) && pcmd.sctx != null
      modifies this`calls, this`thread, this`faults, Own(pcmd)`completions
      ensures Valid() && View() == DoThreadNotify(old(View()))
      ensures thread == old(thread).(ph := Clear) && InPhase(View(), Clear)
    {
      NotifyIs(View(), pcmd.id);
      Known(pcmd, objs, ctxs, calls);
      ghost var k, was := calls[pcmd.id], calls;
      thread := thread.(ph := Clear);
      faults := if k.pc.Returned? then faults + {CompletedDeadContext} else faults;
      calls := calls[pcmd.id := k.(completions := k.completions + 1)];
      ghost var now := CompleteDone(pcmd, objs, ctxs, was);
    }

    /** `*sctx = NULL` in `rtw_sctx_done_err`. */
    method ClearContext(pcmd: CmdObj)
      requires Valid() && InHands(pcmd) && InPhase(View(), Clear)
      modifies this`calls, this`thread, this`faults, pcmd`sctx
      ensures Valid() && View() == DoThreadClear(old(View()))
      ensures thread == old(thread).(ph := Release) && InPhase(View(), Release) && pcmd.sctx == null
    {
      ClearIs(View(), pcmd.id);
      Known(pcmd, objs, ctxs, calls);
      ghost var k, was := calls[pcmd.id], calls;
      thread := thread.(ph := Release);
      faults := if k.objFrees > 0 then faults + {WroteFreedObject} else faults;
      calls := calls[pcmd.id := k.(attached := false)];
      ghost var now := ClearSctx(pcmd, objs, ctxs, was);
    }

    method UnlockContext(pcmd: CmdObj)
      requires Valid() && InHands(pcmd) && InPhase(View(), Release)
      modifies this`mutex, this`thread
      ensures Valid() && View() == DoThreadUnlock(old(View()))
      ensures thread == Posted(old(thread.c), old(thread.drain)) && mutex == old(mutex) - {pcmd.cmd.adapter}
    {
      Known(pcmd, objs, ctxs, calls);
      mutex := mutex - {pcmd.cmd.adapter};
      thread := Posted(thread.c, thread.drain);
    }

    /** The callback, or `rtw_free_cmd_obj`. */
    method Retire(pcmd: CmdObj, drain: bool)
      requires Valid() && thread == Posted(pcmd.id, drain) && InHands(pcmd)
      modifies this`calls, this`thread, this`faults, pcmd`objFrees
      ensures Valid() && View() == DoThreadRetire(old(View()))
      ensures thread == if drain then Draining else Next
    {
      Known(pcmd, objs, ctxs, calls);
      ghost var c := pcmd.id;
      if drain || !CallbackOf(pcmd.cmd).DisassocCallback? || pcmd.succeeded {
        ReleaseObj(pcmd);
      }
      Place(c, calls[c].pc, Retired);
      thread := if drain then Draining else Next;
    }

    /** A drained command's outcome. */
    method SettleDrop(pcmd: CmdObj)
      requires Valid() && pcmd in objs
      modifies this`calls, pcmd`succeeded
      ensures Valid() && pcmd.id in old(calls) && !pcmd.succeeded
      ensures calls == old(calls)[pcmd.id := old(calls[pcmd.id]).(loc := Finishing, succeeded := false)]
    {
      calls := WriteOutcome(pcmd, false, objs, ctxs, calls);
    }

    /** The head of the queue, with its pbuf released, is taken out for good. */
    method TakeDropped(pcmd: CmdObj)
      requires Valid() && thread.Draining? && queue != [] && pcmd == queue[0]
      modifies this`calls, this`queue, this`thread, this`processed, pcmd`succeeded
      ensures Valid() && pcmd.id in old(calls)
      ensures View() == Dropped(old(View()), pcmd.id)
      ensures InHands(pcmd) && thread == Posting(pcmd.id, true) && !pcmd.succeeded
      ensures queue == old(queue)[1..]
    {
      IdsTail(queue);
      queue := queue[1..];
      SettleDrop(pcmd);
      processed := processed + [pcmd.id];
      thread := Posting(pcmd.id, true);
    }

    /** The head of the queue, dropped in the final loop. */
    method DrainHead(pcmd: CmdObj)
      requires Valid() && thread.Draining? && queue != [] && pcmd == queue[0]
      modifies this`calls, this`queue, this`thread, this`processed, this`faults, pcmd`succeeded, pcmd`pbufFrees
      ensures Valid() && View() == DoDrainTake(old(View()))
      ensures InHands(pcmd) && thread == Posting(pcmd.id, true) && !pcmd.succeeded
      ensures queue == old(queue)[1..]
    {
      Known(pcmd, objs, ctxs, calls);
      IdsTail(queue);
      DrainIsDropped(View(), pcmd.id);
      faults := if calls[pcmd.id].objFrees > 0 then faults + {UsedFreedObject} else faults;
      ReleasePbuf(pcmd);
      TakeDropped(pcmd);
    }

    // -------------------------------------------------------------------------
    // Left undisturbed
    // -------------------------------------------------------------------------

    /** `rtw_sctx_done_err` after its write of the status. */
    method FinishContext(pcmd: CmdObj) returns (ghost done: seq<Action>)
      requires Valid() && InHands(pcmd) && InPhase(View(), Notify) && pcmd.sctx != null
      modifies this`calls, this`thread, this`faults, pcmd`sctx, Own(pcmd)`completions
      ensures Valid() && Ran(old(View()), done, View())
      ensures thread == old(thread).(ph := Release) && InPhase(View(), Release) && pcmd.sctx == null
    {
      ghost var start := View();
      NothingYet(start);
      NotifyContext(pcmd);
      ghost var mid := View();
      done := Did(start, [], start, ThreadNotify, mid);
      assert Step(mid, ThreadClear) == DoThreadClear(mid);
      ClearContext(pcmd);
      ghost var last := View();
      done := Did(start, done, mid, ThreadClear, last);
    }

    /** Its first half: the mutex, and the write of the status. */
    method BeginContext(pcmd: CmdObj, status: Status) returns (attached: bool, ghost done: seq<Action>)
      requires Valid() && thread.Posting? && InHands(pcmd) && pcmd.cmd.adapter !in mutex
      requires status == Done(pcmd.succeeded && !thread.drain)
      modifies this`calls, this`thread, this`mutex, this`faults, Own(pcmd)`status
      ensures Valid() && Ran(old(View()), done, View())
      ensures attached <==> pcmd.sctx != null
      ensures thread == Critical(old(thread.c), old(thread.drain), if attached then Notify else Release)
      ensures InPhase(View(), thread.ph) && mutex == old(mutex)[pcmd.cmd.adapter := ByThread]
    {
      ghost var start := View();
      NothingYet(start);
      LockContext(pcmd);
      ghost var mid := View();
      done := Did(start, [], start, ThreadLock, mid);
      attached := CheckContext(pcmd, status);
      done := Did(start, done, mid, ThreadCheck, View());
    }

    /** Its second half: the completion, if a context is attached, and the mutex given back. */
    method EndContext(pcmd: CmdObj, attached: bool) returns (ghost done: seq<Action>)
      requires Valid() && thread.Critical? && InHands(pcmd) && attached == (pcmd.sctx != null)
      requires thread.ph == (if attached then Notify else Release) && InPhase(View(), thread.ph)
      modifies this`calls, this`thread, this`mutex, this`faults, pcmd`sctx, Own(pcmd)`completions
      ensures Valid() && Ran(old(View()), done, View())
      ensures thread == Posted(old(thread.c), old(thread.drain)) && pcmd.sctx == null
      ensures mutex == old(mutex) - {pcmd.cmd.adapter}
    {
      ghost var start := View();
      NothingYet(start);
      done := [];
      if attached {
        done := FinishContext(pcmd);
      }
      ghost var last := View();
      UnlockContext(pcmd);
      done := Did(start, done, last, ThreadUnlock, View());
    }

    /** The critical section as a whole, nobody else holding the mutex. */
    method CompleteContext(pcmd: CmdObj, status: Status) returns (ghost done: seq<Action>)
      requires Valid() && thread.Posting? && InHands(pcmd) && pcmd.cmd.adapter !in mutex
      requires status == Done(pcmd.succeeded && !thread.drain)
      modifies this`calls, this`thread, this`mutex, this`faults, pcmd`sctx, Own(pcmd)
      ensures Valid() && Ran(old(View()), done, View())
      ensures thread == Posted(old(thread.c), old(thread.drain)) && pcmd.sctx == null
      ensures mutex == old(mutex)
    {
      ghost var start := View();
      TakenAndGivenBack(mutex, pcmd.cmd.adapter, ByThread);
      var attached;
      attached, done := BeginContext(pcmd, status);
      ghost var mid := View();
      ghost var finish := EndContext(pcmd, attached);
      Chained(start, done, mid, finish, View());
      done := done + finish;
    }

    /** One drained command, up to the release of its object. */
    method DropContext(pcmd: CmdObj) returns (ghost done: seq<Action>)
      requires Valid() && thread.Draining? && queue != [] && pcmd == queue[0] && mutex == map[]
      modifies this`calls, this`queue, this`thread, this`processed, this`faults, this`mutex
      modifies pcmd`succeeded, pcmd`pbufFrees, pcmd`sctx, Own(pcmd)
      ensures Valid() && Ran(old(View()), done, View())
      ensures InHands(pcmd) && thread == Posted(pcmd.id, true) && queue == old(queue)[1..] && mutex == map[]
    {
      ghost var start := View();
      NothingYet(start);
      DrainHead(pcmd);
      ghost var taken := View();
      done := Did(start, [], start, DrainTake, taken);
      ghost var section := CompleteContext(pcmd, Done(false));
      Chained(start, done, taken, section, View());
      done := done + section;
    }

    /** One drained command, from the head of the queue to its release. */
    method DropHead(pcmd: CmdObj) returns (ghost done: seq<Action>)
      requires Valid() && thread.Draining? && queue != [] && pcmd == queue[0] && mutex == map[]
      modifies this`calls, this`queue, this`thread, this`processed, this`faults, this`mutex
      modifies pcmd`succeeded, pcmd`pbufFrees, pcmd`objFrees, pcmd`sctx, Own(pcmd)
      ensures Valid() && Ran(old(View()), done, View())
      ensures thread.Draining? && queue == old(queue)[1..] && mutex == map[]
    {
      ghost var start := View();
      done := DropContext(pcmd);
      ghost var posted := View();
      Retire(pcmd, true);
      done := Did(start, done, posted, ThreadRetire, View());
    }

    /** The do-while loop at the end of `rtw_cmd_thread`, left undisturbed. */
    method DrainAll(ghost acts: seq<Action>) returns (ghost more: seq<Action>)
      requires Valid() && View() == Run(INITIAL, acts) && thread.Draining? && mutex == map[]
      modifies this`calls, this`queue, this`thread, this`processed, this`faults, this`mutex, objs, ctxs
      ensures Valid() && View() == Run(INITIAL, more) && acts <= more
      ensures thread.Exited? && queue == [] && late == []
    {
      more := acts;
      RanMeans(INITIAL, acts, View());
      while queue != []
        invariant Valid() && Ran(INITIAL, more, View()) && acts <= more
        invariant thread.Draining? && mutex == map[]
        decreases |queue|
      {
        ghost var before := View();
        Known(queue[0], objs, ctxs, calls);
        ghost var done := DropHead(queue[0]);
        Chained(INITIAL, more, before, done, View());
        more := more + done;
      }
      ghost var last := View();
      NothingLate(more, last);
      thread := Exited;
      more := Did(INITIAL, more, last, DrainTake, View());
      RanMeans(INITIAL, more, View());
    }
  }

  /** The protocol's invariant, folded until `Unfold` is mentioned. */
  ghost predicate Sound(s: State) {
    forall b {:trigger Unfold(b)} :: Unfold(b) ==> Inv(s)
  }

  /** A context that is still waited for belongs to an object that has not been freed. */
  lemma DetachIsSafe(s: State, c: CallId)
    requires Sound(s) && At(s, c, Locked)
    ensures Sound(DoCallerDecide(s, c)) && DoCallerDecide(s, c).faults == s.faults
    ensures s.calls[c].status == Submitted ==> s.calls[c].objFrees == 0
  {
    assert Unfold(true);
    CallerDecideKeeps(s, c);
    assert CallOk(s.calls[c], RoleOf(s.thread, c));
  }

  lemma TakenAndGivenBack(mutex: map<AdapterId, Holder>, a: AdapterId, h: Holder)
    requires a !in mutex
    ensures mutex[a := h] - {a} == mutex
  {
  }

  /** Nothing is late before the thread has ended. */
  lemma NothingLate(acts: seq<Action>, s: State)
    requires Ran(INITIAL, acts, s) && !s.thread.Exited?
    ensures s.late == []
  {
    RanMeans(INITIAL, acts, s);
    RunKeeps(acts);
  }

  lemma NextIs(s: State, c: CallId)
    requires s.thread.Next? && s.queue != [] && c == s.queue[0] && c in s.calls
    ensures DoThreadNext(s, false)
         == s.(calls := s.calls[c := s.calls[c].(loc := InHand)],
               faults := if s.calls[c].objFrees > 0 then s.faults + {UsedFreedObject} else s.faults,
               queue := s.queue[1..], thread := Taken(c))
  {
  }

  lemma NotifyIs(s: State, c: CallId)
    requires InPhase(s, Notify) && c == s.thread.c
    ensures DoThreadNotify(s)
         == s.(calls := s.calls[c := s.calls[c].(completions := s.calls[c].completions + 1)],
               faults := if s.calls[c].pc.Returned? then s.faults + {CompletedDeadContext} else s.faults,
               thread := s.thread.(ph := Clear))
  {
  }

  lemma ClearIs(s: State, c: CallId)
    requires InPhase(s, Clear) && c == s.thread.c
    ensures DoThreadClear(s)
         == s.(calls := s.calls[c := s.calls[c].(attached := false)],
               faults := if s.calls[c].objFrees > 0 then s.faults + {WroteFreedObject} else s.faults,
               thread := s.thread.(ph := Release))
  {
  }

  /** The rest of a drain step, once the pbuf is released. */
  ghost function Dropped(s: State, c: CallId): State
    requires c in s.calls && s.queue != []
  {
    Put(s, c, s.calls[c].(loc := Finishing, succeeded := false))
      .(thread := Posting(c, true), queue := s.queue[1..], processed := s.processed + [c])
  }

  lemma DrainIsDropped(s: State, c: CallId)
    requires s.thread.Draining? && s.queue != [] && c == s.queue[0] && c in s.calls
    ensures DoDrainTake(s) == Dropped(FreePbuf(Raise(s, s.calls[c].objFrees > 0, UsedFreedObject), c), c)
  {
  }

  /** The run acts leads from s to t; folded until `Unfold` is mentioned. */
  ghost predicate Ran(s: State, acts: seq<Action>, t: State) {
    forall b {:trigger Unfold(b)} :: Unfold(b) ==> Run(s, acts) == t
  }

  lemma RanMeans(s: State, acts: seq<Action>, t: State)
    ensures Ran(s, acts, t) <==> Run(s, acts) == t
  {
    assert Unfold(true);
  }

  /** One more action of a run. */
  lemma Did(s: State, acts: seq<Action>, t: State, a: Action, u: State) returns (more: seq<Action>)
    requires Ran(s, acts, t) && u == Step(t, a)
    ensures more == acts + [a] && Ran(s, more, u)
  {
    more := acts + [a];
    RanMeans(s, acts, t);
    RanMeans(s, more, u);
    assert more[..|acts|] == acts;
  }

  /** A run after a run. */
  lemma Chained(s: State, xs: seq<Action>, t: State, ys: seq<Action>, u: State)
    requires Ran(s, xs, t) && Ran(t, ys, u)
    ensures Ran(s, xs + ys, u)
  {
    RanMeans(s, xs, t);
    RanMeans(t, ys, u);
    RanMeans(s, xs + ys, u);
    CommandTheorems.RunAppend(s, xs, ys);
  }

  lemma NothingYet(s: State)
    ensures Ran(s, [], s)
  {
    RanMeans(s, [], s);
  }

  ghost function Ids(queue: seq<CmdObj>): (ids: seq<CallId>)
    ensures |ids| == |queue| && forall i :: 0 <= i < |ids| ==> ids[i] == queue[i].id
  {
    seq(|queue|, i requires 0 <= i < |queue| => queue[i].id)
  }

  ghost function Own(o: CmdObj): set<SubmitCtx> {
    if o.own == null then {} else {o.own}
  }

  lemma IdsTail(queue: seq<CmdObj>)
    requires queue != []
    ensures Ids(queue[1..]) == Ids(queue)[1..] && Ids(queue)[0] == queue[0].id
  {
  }

  lemma IdsHead(pcmd: CmdObj, queue: seq<CmdObj>)
    ensures Ids([pcmd] + queue) == [pcmd.id] + Ids(queue)
  {
  }
}
