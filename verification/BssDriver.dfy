/** The station and BSS records, updated in place when stations join, leave or report. */
module BssDriver {

  import opened Basics
  import opened BssCapabilities

  class StaInfo {
    var flags: set<Flag>

    constructor ()
      ensures flags == {}
    {
      flags := {};
    }
  }

  class MlmePriv {
    const env: Settings
    const stas: seq<StaInfo>
    var num: Counts
    var erp: Erp
    var op: OpMode
    var widthReq: bool
    var chReported: bool

    ghost predicate Valid() {
      forall j, k :: 0 <= j < k < |stas| ==> stas[j] != stas[k]
    }

    ghost function View(): (s: Bss)
      reads this, stas
      ensures |s.sta| == |stas|
    {
      Bss(FlagsOf(stas), num, erp, op, widthReq, chReported)
    }

    constructor (env: Settings, stas: seq<StaInfo>)
      requires forall j, k :: 0 <= j < k < |stas| ==> stas[j] != stas[k]
      requires forall j :: 0 <= j < |stas| ==> stas[j].flags == {}
      ensures Valid() && this.env == env && this.stas == stas
      ensures View() == Start(|stas|)
    {
      this.env, this.stas := env, stas;
      num := _ => 0;
      erp := Erp(false, false, false);
      op := OpMode(Pure, false, false);
      widthReq, chReported := false, false;
      new;
      assert FlagsOf(stas) == Start(|stas|).sta;
    }

    /** Sets or clears one `*_set` mark and keeps its counter. */
    method Mark(psta: StaInfo, f: Flag, on: bool, ghost i: nat)
      requires Valid() && i < |stas| && stas[i] == psta
      modifies this`num, psta
      ensures View() == Put(old(View()), i, f, on)
    {
      ghost var was := View();
      if on {
        if f !in psta.flags {
          psta.flags := psta.flags + {f};
          num := Plus(num, f, 1);
          assert FlagsOf(stas) == was.sta[i := was.sta[i] + {f}];
        }
      } else {
        if f in psta.flags {
          psta.flags := psta.flags - {f};
          num := Plus(num, f, -1);
          assert FlagsOf(stas) == was.sta[i := was.sta[i] - {f}];
        }
      }
    }

    /** `update_bcn_erpinfo_ie`. */
    method UpdateBcnErp()
      modifies this`erp
      ensures View() == UpdateErp(env, old(View()))
    {
      if !env.erpInfo {
        return;
      }
      if num(NonErp) == 1 {
        erp := erp.(nonErpPresent := true, useProtection := true);
      } else {
        erp := erp.(nonErpPresent := false, useProtection := false);
      }
      erp := erp.(barker := num(NoShortPreamble) > 0);
    }

    /** The non-ERP part of a join or leave. */
    method MarkErp(psta: StaInfo, on: bool, ghost i: nat)
      requires Valid() && i < |stas| && stas[i] == psta
      modifies this`num, this`erp, psta
      ensures View() == PutErp(env, old(View()), i, on)
    {
      if on {
        if NonErp !in psta.flags {
          Mark(psta, NonErp, true, i);
          if num(NonErp) == 1 {
            UpdateBcnErp();
          }
        }
      } else {
        if NonErp in psta.flags {
          Mark(psta, NonErp, false, i);
          if num(NonErp) == 0 {
            UpdateBcnErp();
          }
        }
      }
    }

    method UpdateOp(olbc: bool) returns (changes: int)
      modifies this`op
      ensures op == NewOp(env, num, old(op), olbc)
      ensures changes > 0 <==> op != old(op)
    {
      changes := 0;
      if !op.nonGreenfield && num(NoGreenfield) != 0 {
        op := op.(nonGreenfield := true);
        changes := changes + 1;
      } else if op.nonGreenfield && num(NoGreenfield) == 0 {
        op := op.(nonGreenfield := false);
        changes := changes + 1;
      }
      if !op.nonHt && (num(NoHt) != 0 || olbc) {
        op := op.(nonHt := true);
        changes := changes + 1;
      } else if op.nonHt && num(NoHt) == 0 && !olbc {
        op := op.(nonHt := false);
        changes := changes + 1;
      }
      var mode := if num(NoHt) != 0 then Mixed
                  else if env.supWidth && num(Ht20) != 0 then Ht20Associated
                  else if olbc then MayBeLegacy
                  else Pure;
      if op.mode != mode {
        op := op.(mode := mode);
        changes := changes + 1;
      }
    }

    /** `rtw_ht_operation_update`: how many of the three parts have changed. */
    method HtUpdate(olbc: bool) returns (changes: int)
      modifies this`op
      ensures View() == HtOperationUpdate(env, old(View()), olbc)
      ensures changes > 0 <==> op != old(op)
    {
      changes := 0;
      if env.htOption {
        changes := UpdateOp(olbc);
      }
    }

    method MarkHt(psta: StaInfo, cap: Capability, ghost i: nat)
      requires Valid() && i < |stas| && stas[i] == psta
      modifies this`num, psta
      ensures View() == JoinHt(env, old(View()), i, cap)
    {
      if cap.ht {
        Mark(psta, NoHt, false, i);
        if !cap.greenfield {
          Mark(psta, NoGreenfield, true, i);
        }
        if !cap.supWidth {
          Mark(psta, Ht20, true, i);
        }
        if cap.intolerant40 {
          Mark(psta, Intolerant40, true, i);
        }
      } else {
        Mark(psta, NoHt, true, i);
      }
    }

    /** `bss_cap_update_on_sta_join`. */
    method StaJoin(psta: StaInfo, cap: Capability, olbc: bool, ghost i: nat)
      requires Valid() && i < |stas| && stas[i] == psta
      modifies this`num, this`erp, this`op, psta
      ensures View() == Join(env, old(View()), i, cap, olbc)
    {
      Mark(psta, NoShortPreamble, !cap.shortPreamble, i);
      MarkErp(psta, cap.nonErp, i);
      Mark(psta, NoShortSlot, !cap.shortSlot, i);
      if env.htEnable {
        MarkHt(psta, cap, i);
        var _ := HtUpdate(olbc);
      }
    }

    /** An intolerant station that was never counted is only unmarked. */
    method UnmarkHt(psta: StaInfo, ghost i: nat)
      requires Valid() && i < |stas| && stas[i] == psta
      modifies this`num, psta
      ensures View() == LeaveHt(old(View()), i)
    {
      Mark(psta, NoGreenfield, false, i);
      Mark(psta, NoHt, false, i);
      Mark(psta, Ht20, false, i);
      if Intolerant40 in psta.flags {
        if num(Intolerant40) > 0 {
          Mark(psta, Intolerant40, false, i);
        } else {
          ghost var was := View();
          psta.flags := psta.flags - {Intolerant40};
          assert FlagsOf(stas) == was.sta[i := was.sta[i] - {Intolerant40}];
        }
      }
    }

    /** `bss_cap_update_on_sta_leave`. */
    method StaLeave(psta: StaInfo, olbc: bool, ghost i: nat)
      requires Valid() && i < |stas| && stas[i] == psta
      modifies this`num, this`erp, this`op, psta
      ensures View() == Leave(env, old(View()), i, olbc)
    {
      Mark(psta, NoShortPreamble, false, i);
      MarkErp(psta, false, i);
      Mark(psta, NoShortSlot, false, i);
      UnmarkHt(psta, i);
      var _ := HtUpdate(olbc);
    }

    /** `rtw_process_public_act_bsscoex`: whether the beacon needs an update. */
    method CoexReport(psta: StaInfo, report: Report, ghost i: nat) returns (beaconUpdated: bool)
      requires Valid() && i < |stas| && stas[i] == psta
      modifies this`num, this`widthReq, this`chReported, psta
      ensures View() == Coexist(old(View()), i, report)
      ensures beaconUpdated <==> View() != old(View())
    {
      beaconUpdated := false;
      if report.intolerant40 {
        if Intolerant40 !in psta.flags {
          Mark(psta, Intolerant40, true, i);
          assert Intolerant40 in View().sta[i];
          beaconUpdated := true;
        }
      } else if report.widthReq {
        if !widthReq {
          widthReq := true;
          beaconUpdated := true;
        }
      }
      if report.channels {
        if !chReported {
          chReported := true;
          beaconUpdated := true;
        }
      }
    }
  }

  ghost function FlagsOf(stas: seq<StaInfo>): (r: seq<set<Flag>>)
    reads stas
    ensures |r| == |stas| && forall k :: 0 <= k < |stas| ==> r[k] == stas[k].flags
  {
    if stas == [] then [] else [stas[0].flags] + FlagsOf(stas[1..])
  }
}
