/** Command objects, the contexts they point at, and how they stand for calls of the protocol. */
module CommandObjects {
  import opened Basics
  import opened CommandProtocol

  /** `submit_ctx`, on the stack of the call that owns it. */
  class SubmitCtx {
    ghost const owner: CallId
    var status: Status
    /** How often `done` was completed. */
    var completions: nat

    /** `rtw_sctx_init`. */
    constructor (ghost owner: CallId)
      ensures this.owner == owner && status == Submitted && completions == 0
    {
      this.owner := owner;
      status, completions := Submitted, 0;
    }
  }

  /**
    `cmd_obj`.  The ghost parts say whose call it is, which context that call has on
    its stack, and how often the object and its pbuf were released.
   */
  class CmdObj {
    ghost const id: CallId
    ghost const own: SubmitCtx?
    const cmd: Command
    var sctx: SubmitCtx?
    /** `res == H2C_SUCCESS`. */
    var succeeded: bool
    ghost var objFrees: nat
    ghost var pbufFrees: nat

    constructor (ghost id: CallId, cmd: Command, sctx: SubmitCtx?)
      ensures this.id == id && this.own == this.sctx == sctx && this.cmd == cmd
      ensures !succeeded && objFrees == 0 && pbufFrees == 0
    {
      this.id, this.own := id, sctx;
      this.cmd, this.sctx := cmd, sctx;
      succeeded, objFrees, pbufFrees := false, 0, 0;
    }
  }

  /** The call an object stands for; where the parties are is not in the object. */
  ghost function CallOf(o: CmdObj, pc: CallerPc, loc: Location): Call
    reads o, o.own
  {
    Call(o.cmd, pc, o.sctx != null,
         if o.own == null then Submitted else o.own.status,
         if o.own == null then 0 else o.own.completions,
         o.succeeded, o.objFrees, o.pbufFrees, loc)
  }

  /** The pointer leads to the call's own context or nowhere. */
  ghost predicate Tied(o: CmdObj, c: CallId)
    reads o, o.own
  {
    && o.id == c
    && (o.own != null ==> o.own.owner == c)
    && (o.cmd.ack <==> o.own != null)
    && (o.sctx != null ==> o.sctx == o.own)
  }

  /** The object, and its call's context if it has one, stand for the call with the object's number. */
  ghost predicate Stands(o: CmdObj, ctxs: set<SubmitCtx>, calls: map<CallId, Call>)
    reads o, o.own
  {
    && (o.own != null ==> o.own in ctxs)
    && o.id in calls && Tied(o, o.id) && calls[o.id] == CallOf(o, calls[o.id].pc, calls[o.id].loc)
  }

  ghost function Numbers(objs: set<CmdObj>): set<CallId> {
    set o | o in objs :: o.id
  }

  ghost predicate MirrorFacts(objs: set<CmdObj>, ctxs: set<SubmitCtx>, calls: map<CallId, Call>)
    reads objs, ctxs
  {
    && Numbers(objs) == calls.Keys
    && (forall o :: o in objs ==> (o.own != null ==> o.own in ctxs) && Stands(o, ctxs, calls))
    && (forall o, p :: o in objs && p in objs && o.id == p.id ==> o == p)
  }

  /** Objects and contexts stand for the protocol's calls, one by one; folded until `Unfold` is mentioned. */
  ghost predicate Mirrors(objs: set<CmdObj>, ctxs: set<SubmitCtx>, calls: map<CallId, Call>)
    reads objs, ctxs
  {
    forall b {:trigger Unfold(b)} :: Unfold(b) ==> MirrorFacts(objs, ctxs, calls)
  }

  lemma Known(pcmd: CmdObj, objs: set<CmdObj>, ctxs: set<SubmitCtx>, calls: map<CallId, Call>)
    requires Mirrors(objs, ctxs, calls) && pcmd in objs
    ensures pcmd.id in calls && Stands(pcmd, ctxs, calls)
  {
    assert Unfold(true);
  }

  // ---------------------------------------------------------------------------
  // One field, written through a pointer
  // ---------------------------------------------------------------------------

  method ClearSctx(pcmd: CmdObj, ghost objs: set<CmdObj>, ghost ctxs: set<SubmitCtx>, ghost calls: map<CallId, Call>)
    returns (ghost now: map<CallId, Call>)
    requires Mirrors(objs, ctxs, calls) && pcmd in objs
    modifies pcmd`sctx
    ensures pcmd.id in calls && now == calls[pcmd.id := calls[pcmd.id].(attached := false)]
    ensures pcmd.sctx == null
    ensures Mirrors(objs, ctxs, now)
  {
    assert Unfold(true);
    pcmd.sctx := null;
    now := calls[pcmd.id := calls[pcmd.id].(attached := false)];
  }

  method WriteResult(pcmd: CmdObj, ok: bool,
                     ghost objs: set<CmdObj>, ghost ctxs: set<SubmitCtx>, ghost calls: map<CallId, Call>)
    returns (ghost now: map<CallId, Call>)
    requires Mirrors(objs, ctxs, calls) && pcmd in objs
    modifies pcmd`succeeded
    ensures pcmd.id in calls && now == calls[pcmd.id := calls[pcmd.id].(succeeded := ok)]
    ensures pcmd.succeeded == ok
    ensures Mirrors(objs, ctxs, now)
  {
    assert Unfold(true);
    pcmd.succeeded := ok;
    now := calls[pcmd.id := calls[pcmd.id].(succeeded := ok)];
  }

  /** The outcome, and with it the end of the thread's work on the command. */
  method WriteOutcome(pcmd: CmdObj, ok: bool,
                      ghost objs: set<CmdObj>, ghost ctxs: set<SubmitCtx>, ghost calls: map<CallId, Call>)
    returns (ghost now: map<CallId, Call>)
    requires Mirrors(objs, ctxs, calls) && pcmd in objs
    modifies pcmd`succeeded
    ensures pcmd.id in calls && now == calls[pcmd.id := calls[pcmd.id].(succeeded := ok, loc := Finishing)]
    ensures pcmd.succeeded == ok && Mirrors(objs, ctxs, now)
  {
    now := WriteResult(pcmd, ok, objs, ctxs, calls);
    ghost var k := calls[pcmd.id];
    Moved(objs, ctxs, now, pcmd.id, k.pc, Finishing);
    now := calls[pcmd.id := k.(succeeded := ok, loc := Finishing)];
  }

  ghost method CountFree(pcmd: CmdObj, objs: set<CmdObj>, ctxs: set<SubmitCtx>, calls: map<CallId, Call>)
    returns (now: map<CallId, Call>)
    requires Mirrors(objs, ctxs, calls) && pcmd in objs
    modifies pcmd`objFrees
    ensures pcmd.id in calls && now == calls[pcmd.id := calls[pcmd.id].(objFrees := calls[pcmd.id].objFrees + 1)]
    ensures Mirrors(objs, ctxs, now)
  {
    assert Unfold(true);
    pcmd.objFrees := pcmd.objFrees + 1;
    now := calls[pcmd.id := calls[pcmd.id].(objFrees := calls[pcmd.id].objFrees + 1)];
  }

  ghost method CountPbufFree(pcmd: CmdObj, objs: set<CmdObj>, ctxs: set<SubmitCtx>, calls: map<CallId, Call>)
    returns (now: map<CallId, Call>)
    requires Mirrors(objs, ctxs, calls) && pcmd in objs
    modifies pcmd`pbufFrees
    ensures pcmd.id in calls && now == calls[pcmd.id := calls[pcmd.id].(pbufFrees := calls[pcmd.id].pbufFrees + 1)]
    ensures Mirrors(objs, ctxs, now)
  {
    assert Unfold(true);
    pcmd.pbufFrees := pcmd.pbufFrees + 1;
    now := calls[pcmd.id := calls[pcmd.id].(pbufFrees := calls[pcmd.id].pbufFrees + 1)];
  }

  /** `(*sctx)->status = status`. */
  method WriteStatus(pcmd: CmdObj, status: Status,
                     ghost objs: set<CmdObj>, ghost ctxs: set<SubmitCtx>, ghost calls: map<CallId, Call>)
    returns (ghost now: map<CallId, Call>)
    requires Mirrors(objs, ctxs, calls) && pcmd in objs && pcmd.sctx != null
    modifies pcmd.sctx`status
    ensures pcmd.id in calls && now == calls[pcmd.id := calls[pcmd.id].(status := status)]
    ensures Mirrors(objs, ctxs, now)
  {
    assert Unfold(true);
    pcmd.sctx.status := status;
    now := calls[pcmd.id := calls[pcmd.id].(status := status)];
  }

  /** `complete(&(*sctx)->done)`. */
  method CompleteDone(pcmd: CmdObj,
                      ghost objs: set<CmdObj>, ghost ctxs: set<SubmitCtx>, ghost calls: map<CallId, Call>)
    returns (ghost now: map<CallId, Call>)
    requires Mirrors(objs, ctxs, calls) && pcmd in objs && pcmd.sctx != null
    modifies pcmd.sctx`completions
    ensures pcmd.id in calls && now == calls[pcmd.id := calls[pcmd.id].(completions := calls[pcmd.id].completions + 1)]
    ensures Mirrors(objs, ctxs, now)
  {
    assert Unfold(true);
    pcmd.sctx.completions := pcmd.sctx.completions + 1;
    now := calls[pcmd.id := calls[pcmd.id].(completions := calls[pcmd.id].completions + 1)];
  }

  /** The parties move on; nothing is written. */
  lemma Moved(objs: set<CmdObj>, ctxs: set<SubmitCtx>, calls: map<CallId, Call>, c: CallId, pc: CallerPc, loc: Location)
    requires Mirrors(objs, ctxs, calls) && c in calls
    ensures Mirrors(objs, ctxs, calls[c := calls[c].(pc := pc, loc := loc)])
  {
    assert Unfold(true);
    var after := calls[c := calls[c].(pc := pc, loc := loc)];
    forall o | o in objs ensures Stands(o, ctxs, after) {
      assert Stands(o, ctxs, calls);
    }
  }

  /** `rtw_zmalloc`, `init_h2fwcmd_w_parm_no_rsp` and `rtw_sctx_init`. */
  method NewCommand(ghost c: CallId, cmd: Command,
                    ghost objs: set<CmdObj>, ghost ctxs: set<SubmitCtx>, ghost calls: map<CallId, Call>)
    returns (pcmd: CmdObj, sctx: SubmitCtx?)
    requires Mirrors(objs, ctxs, calls) && c !in calls
    ensures fresh(pcmd) && pcmd.id == c && pcmd.cmd == cmd && pcmd.own == sctx
    ensures (sctx != null <==> cmd.ack) && (sctx != null ==> fresh(sctx))
    ensures Mirrors(objs + {pcmd}, if sctx == null then ctxs else ctxs + {sctx},
                    calls[c := Call(cmd, Prepared, cmd.ack, Submitted, 0, false, 0, 0, Unqueued)])
  {
    assert Unfold(true);
    sctx := null;
    if cmd.ack {
      sctx := new SubmitCtx(c);
    }
    pcmd := new CmdObj(c, cmd, sctx);
  }
}
