/**
  The command queue and its submit-context handshake.

  Callers (any number of them) prepare a command object, pass it through the
  filter and append it to the queue; one command thread takes objects from the
  head, runs them and releases them.  A caller that wants an acknowledgement
  hands the thread a pointer to a `submit_ctx` on its own stack, sleeps until the
  thread completes it or two seconds pass, and then detaches the pointer under the
  adapter's `sctx_mutex`.

  Every shared access is its own step, so that a run of the system is just a
  sequence of actions; an action whose guard fails leaves the state as it is.
  Accesses to memory that is gone are recorded as faults, never forbidden.
 */
module CommandProtocol {

  type CallId = nat
  type AdapterId = nat

  // ---------------------------------------------------------------------------
  // Commands
  // ---------------------------------------------------------------------------

  /** What the command table says to call once a command is through. */
  datatype Callback = NoCallback | FreeingCallback | DisassocCallback

  datatype Kind =
    | DrvExtra(hasPbuf: bool, leaveSetMode: bool)
    | SetChanPlan
    | Plain(defined: bool, hasHandler: bool, callback: Callback)

  /** The part of a command object that its creator fixes. */
  datatype Command = Command(adapter: AdapterId, kind: Kind, noIo: bool, oversize: bool, ack: bool)

  /** The pbuf that a drv-extra command owns (pbuf set and size above 0). */
  predicate OwnsPbuf(cmd: Command) {
    cmd.kind.DrvExtra? && cmd.kind.hasPbuf
  }

  function OwnedCount(cmd: Command): nat {
    if OwnsPbuf(cmd) then 1 else 0
  }

  function CallbackOf(cmd: Command): Callback {
    if cmd.kind.Plain? && cmd.kind.defined then cmd.kind.callback else NoCallback
  }

  /** `rtw_cmd_filter`: may the command pass? */
  predicate Allowed(cmd: Command, hwInitCompleted: bool, running: bool) {
    if cmd.kind.DrvExtra? && cmd.kind.leaveSetMode then
      true
    else
      var allow := cmd.kind.SetChanPlan? || cmd.noIo;
      (hwInitCompleted || allow) && running
  }

  // ---------------------------------------------------------------------------
  // State
  // ---------------------------------------------------------------------------

  datatype CallerPc =
    | Prepared   // object allocated, not yet through the filter
    | Admitted   // filter passed, not yet on the queue
    | Waiting    // asleep in rtw_sctx_wait
    | Woken      // completed or timed out, about to take sctx_mutex
    | Locked     // holds sctx_mutex, status not looked at yet
    | Decided    // detached if need be, still holds sctx_mutex
    | Released   // mutex given back, frame still alive
    | Returned   // the stack frame, and the context in it, are gone

  datatype Status = Submitted | Done(success: bool)

  datatype Location = Unqueued | Rejected | Queued | InHand | Finishing | Retired

  /** One call: the caller's frame, its context and its command object. */
  datatype Call = Call(
    cmd: Command,
    pc: CallerPc,
    attached: bool,      // cmdobj->sctx points at the caller's context
    status: Status,      // status of that context
    completions: nat,    // complete() calls on it
    succeeded: bool,     // cmdobj->res == H2C_SUCCESS
    objFrees: nat,       // how often the object was freed
    pbufFrees: nat,      // how often its pbuf was freed
    loc: Location)

  datatype Phase = Check | Notify | Clear | Release

  datatype ThreadPc =
    | NotStarted
    | Idle                                         // at the queue semaphore
    | Next                                         // at label _next
    | Taken(c: CallId)                             // dequeued, outcome open
    | Posting(c: CallId, drain: bool)              // outcome settled
    | Critical(c: CallId, drain: bool, ph: Phase)  // holds sctx_mutex
    | Posted(c: CallId, drain: bool)               // mutex given back
    | Stopping                                     // left the loop
    | Draining                                     // in the final do-while loop
    | Exited

  datatype Holder = ByThread | ByCaller(c: CallId)

  datatype Fault =
    | CompletedDeadContext | WroteFreedObject | FreedObjectTwice | FreedPbufTwice | UsedFreedObject

  datatype State = State(
    calls: map<CallId, Call>,
    queue: seq<CallId>,
    thread: ThreadPc,
    running: bool,                    // cmdthd_running
    mutex: map<AdapterId, Holder>,    // sctx_mutex of each adapter, absent when free
    accepted: seq<CallId>,            // history: order of acceptance
    processed: seq<CallId>,           // history: order in which outcomes were settled
    late: seq<CallId>,                // history: accepted after the drain ended
    faults: set<Fault>)

  const INITIAL := State(map[], [], NotStarted, false, map[], [], [], [], {})

  datatype Action =
    | Prepare(c: CallId, cmd: Command)
    | Filter(c: CallId, hwInit: bool)
    | Enqueue(c: CallId)
    | Wake(c: CallId)
    | Timeout(c: CallId)
    | CallerLock(c: CallId)
    | CallerDecide(c: CallId)
    | CallerUnlock(c: CallId)
    | CallerReturn(c: CallId)
    | ThreadStart
    | ThreadWake(cannotRun: bool)
    | ThreadNext(cannotRun: bool)
    | ThreadProcess(hwInit: bool, alive: bool, ret: bool)
    | ThreadLock
    | ThreadCheck
    | ThreadNotify
    | ThreadClear
    | ThreadUnlock
    | ThreadRetire
    | ThreadStop
    | DrainTake

  // ---------------------------------------------------------------------------
  // Small state updates
  // ---------------------------------------------------------------------------

  predicate At(s: State, c: CallId, pc: CallerPc) {
    c in s.calls && s.calls[c].pc == pc
  }

  function Put(s: State, c: CallId, k: Call): State {
    s.(calls := s.calls[c := k])
  }

  function Raise(s: State, bad: bool, f: Fault): State {
    if bad then s.(faults := s.faults + {f}) else s
  }

  /** Releases the pbuf of a drv-extra command, if it owns one. */
  function FreePbuf(s: State, c: CallId): State
    requires c in s.calls
  {
    var k := s.calls[c];
    if OwnsPbuf(k.cmd) then
      Raise(Put(s, c, k.(pbufFrees := k.pbufFrees + 1)), k.pbufFrees > 0, FreedPbufTwice)
    else
      s
  }

  /** `rtw_free_cmd_obj`. */
  function FreeObj(s: State, c: CallId): State
    requires c in s.calls
  {
    var k := s.calls[c];
    Raise(Put(s, c, k.(objFrees := k.objFrees + 1)), k.objFrees > 0, FreedObjectTwice)
  }

  function Settle(s: State, c: CallId, ok: bool): State
    requires c in s.calls
  {
    Put(s, c, s.calls[c].(succeeded := ok, loc := Finishing))
      .(thread := Posting(c, false), processed := s.processed + [c])
  }

  // ---------------------------------------------------------------------------
  // Steps of the callers
  // ---------------------------------------------------------------------------

  /** `rtw_zmalloc`, `init_h2fwcmd_w_parm_no_rsp` and `rtw_sctx_init`. */
  function DoPrepare(s: State, c: CallId, cmd: Command): State {
    if c in s.calls then s
    else Put(s, c, Call(cmd, Prepared, cmd.ack, Submitted, 0, false, 0, 0, Unqueued))
  }

  /** The front half of `rtw_enqueue_cmd`: filter, and release on rejection. */
  function DoFilter(s: State, c: CallId, hwInit: bool): State {
    if !At(s, c, Prepared) then s
    else
      var k := s.calls[c];
      if !Allowed(k.cmd, hwInit, s.running) || k.cmd.oversize then
        var s1 := FreeObj(FreePbuf(s, c), c);
        Put(s1, c, s1.calls[c].(pc := Returned, loc := Rejected))
      else
        Put(s, c, k.(pc := Admitted))
  }

  /** `_rtw_enqueue_cmd` at the tail; an unacknowledged caller is done then. */
  function DoEnqueue(s: State, c: CallId): State {
    if !At(s, c, Admitted) then s
    else
      var k := s.calls[c];
      Put(s, c, k.(pc := if k.cmd.ack then Waiting else Returned, loc := Queued))
        .(queue := s.queue + [c],
          accepted := s.accepted + [c],
          late := if s.thread.Exited? then s.late + [c] else s.late)
  }

  function DoWake(s: State, c: CallId): State {
    if At(s, c, Waiting) && s.calls[c].completions > 0 then Put(s, c, s.calls[c].(pc := Woken)) else s
  }

  function DoTimeout(s: State, c: CallId): State {
    if At(s, c, Waiting) then Put(s, c, s.calls[c].(pc := Woken)) else s
  }

  function DoCallerLock(s: State, c: CallId): State {
    if At(s, c, Woken) && s.calls[c].cmd.adapter !in s.mutex then
      Put(s, c, s.calls[c].(pc := Locked)).(mutex := s.mutex[s.calls[c].cmd.adapter := ByCaller(c)])
    else s
  }

  /** `if (sctx.status == RTW_SCTX_SUBMITTED) cmdobj->sctx = NULL`. */
  function DoCallerDecide(s: State, c: CallId): State {
    if !At(s, c, Locked) then s
    else
      var k := s.calls[c];
      if k.status.Submitted? then
        Raise(Put(s, c, k.(pc := Decided, attached := false)), k.objFrees > 0, WroteFreedObject)
      else
        Put(s, c, k.(pc := Decided))
  }

  function DoCallerUnlock(s: State, c: CallId): State {
    if At(s, c, Decided) then
      Put(s, c, s.calls[c].(pc := Released)).(mutex := s.mutex - {s.calls[c].cmd.adapter})
    else s
  }

  function DoCallerReturn(s: State, c: CallId): State {
    if At(s, c, Released) then Put(s, c, s.calls[c].(pc := Returned)) else s
  }

  // ---------------------------------------------------------------------------
  // Steps of the command thread
  // ---------------------------------------------------------------------------

  function DoThreadStart(s: State): State {
    if s.thread.NotStarted? then s.(thread := Idle, running := true) else s
  }

  function DoThreadWake(s: State, cannotRun: bool): State {
    if !s.thread.Idle? then s
    else if cannotRun then s.(thread := Stopping)
    else if s.queue == [] then s
    else s.(thread := Next)
  }

  function DoThreadNext(s: State, cannotRun: bool): State {
    if !s.thread.Next? then s
    else if cannotRun then s.(thread := Stopping)
    else if s.queue == [] then s.(thread := Idle)
    else
      var c := s.queue[0];
      if c !in s.calls then s
      else
        Raise(Put(s, c, s.calls[c].(loc := InHand)), s.calls[c].objFrees > 0, UsedFreedObject)
          .(thread := Taken(c), queue := s.queue[1..])
  }

  /** The loop body between `cmd_issued_cnt++` and `post_process`. */
  function DoThreadProcess(s: State, hwInit: bool, alive: bool, ret: bool): State {
    if !s.thread.Taken? || s.thread.c !in s.calls then s
    else
      var c := s.thread.c;
      var cmd := s.calls[c].cmd;
      if cmd.oversize then
        Settle(s, c, false)
      else if cmd.kind.Plain? && (!cmd.kind.defined || !cmd.kind.hasHandler) then
        Settle(s, c, false)
      else if !Allowed(cmd, hwInit, s.running) then
        Settle(FreePbuf(s, c), c, false)
      else if !cmd.noIo && !alive then
        // still asleep: back to the head, wait for the next semaphore
        Put(s, c, s.calls[c].(loc := Queued)).(thread := Idle, queue := [c] + s.queue)
      else
        // the handler of a drv-extra command releases the pbuf
        Settle(FreePbuf(s, c), c, ret)
  }

  function DoThreadLock(s: State): State {
    if s.thread.Posting? && s.thread.c in s.calls && s.calls[s.thread.c].cmd.adapter !in s.mutex then
      var c := s.thread.c;
      s.(thread := Critical(c, s.thread.drain, Check), mutex := s.mutex[s.calls[c].cmd.adapter := ByThread])
    else s
  }

  predicate InPhase(s: State, ph: Phase) {
    s.thread.Critical? && s.thread.ph == ph && s.thread.c in s.calls
  }

  /** `if (pcmd->sctx)`, and the write of the status through it. */
  function DoThreadCheck(s: State): State {
    if !InPhase(s, Check) then s
    else
      var c := s.thread.c;
      var k := s.calls[c];
      if k.attached then
        Raise(Put(s, c, k.(status := Done(k.succeeded && !s.thread.drain))), k.pc.Returned?, CompletedDeadContext)
          .(thread := s.thread.(ph := Notify))
      else
        s.(thread := s.thread.(ph := Release))
  }

  /** `complete(&sctx->done)`. */
  function DoThreadNotify(s: State): State {
    if !InPhase(s, Notify) then s
    else
      var c := s.thread.c;
      var k := s.calls[c];
      Raise(Put(s, c, k.(completions := k.completions + 1)), k.pc.Returned?, CompletedDeadContext)
        .(thread := s.thread.(ph := Clear))
  }

  /** `*sctx = NULL` in `rtw_sctx_done_err`. */
  function DoThreadClear(s: State): State {
    if !InPhase(s, Clear) then s
    else
      var c := s.thread.c;
      Raise(Put(s, c, s.calls[c].(attached := false)), s.calls[c].objFrees > 0, WroteFreedObject)
        .(thread := s.thread.(ph := Release))
  }

  function DoThreadUnlock(s: State): State {
    if !InPhase(s, Release) then s
    else
      s.(thread := Posted(s.thread.c, s.thread.drain), mutex := s.mutex - {s.calls[s.thread.c].cmd.adapter})
  }

  /** The callback or `rtw_free_cmd_obj`; a failed disassociation keeps its object. */
  function DoThreadRetire(s: State): State {
    if !s.thread.Posted? || s.thread.c !in s.calls then s
    else
      var c := s.thread.c;
      var kept := !s.thread.drain && CallbackOf(s.calls[c].cmd).DisassocCallback? && !s.calls[c].succeeded;
      var s1 := if kept then s else FreeObj(s, c);
      Put(s1, c, s1.calls[c].(loc := Retired)).(thread := if s.thread.drain then Draining else Next)
  }

  function DoThreadStop(s: State): State {
    if s.thread.Stopping? then s.(thread := Draining, running := false) else s
  }

  function DoDrainTake(s: State): State {
    if !s.thread.Draining? then s
    else if s.queue == [] then s.(thread := Exited)
    else
      var c := s.queue[0];
      if c !in s.calls then s
      else
        var s1 := FreePbuf(Raise(s, s.calls[c].objFrees > 0, UsedFreedObject), c);
        Put(s1, c, s1.calls[c].(loc := Finishing, succeeded := false))
          .(thread := Posting(c, true), queue := s.queue[1..], processed := s.processed + [c])
  }

  function Step(s: State, a: Action): State {
    match a
    case Prepare(c, cmd) => DoPrepare(s, c, cmd)
    case Filter(c, hwInit) => DoFilter(s, c, hwInit)
    case Enqueue(c) => DoEnqueue(s, c)
    case Wake(c) => DoWake(s, c)
    case Timeout(c) => DoTimeout(s, c)
    case CallerLock(c) => DoCallerLock(s, c)
    case CallerDecide(c) => DoCallerDecide(s, c)
    case CallerUnlock(c) => DoCallerUnlock(s, c)
    case CallerReturn(c) => DoCallerReturn(s, c)
    case ThreadStart => DoThreadStart(s)
    case ThreadWake(cannotRun) => DoThreadWake(s, cannotRun)
    case ThreadNext(cannotRun) => DoThreadNext(s, cannotRun)
    case ThreadProcess(hwInit, alive, ret) => DoThreadProcess(s, hwInit, alive, ret)
    case ThreadLock => DoThreadLock(s)
    case ThreadCheck => DoThreadCheck(s)
    case ThreadNotify => DoThreadNotify(s)
    case ThreadClear => DoThreadClear(s)
    case ThreadUnlock => DoThreadUnlock(s)
    case ThreadRetire => DoThreadRetire(s)
    case ThreadStop => DoThreadStop(s)
    case DrainTake => DoDrainTake(s)
  }

  /** The state after a run, that is, after any interleaving of actions. */
  function Run(s: State, acts: seq<Action>): State {
    if acts == [] then s else Step(Run(s, acts[..|acts| - 1]), acts[|acts| - 1])
  }
}
