/** The regulatory records of the radio, updated in place by the set-plan command. */
module RegulatoryDriver {

  import opened Basics
  import opened RegulatoryPrecedence

  class RfCtl {
    const cisr: array<Record>
    var init: Setting
    var user: Setting
    /** The record in effect, by its place. */
    var effected: Option<nat>
    var now: Setting
    var overrides: Overrides
    var inr: Initiator

    ghost predicate Valid()
      reads this
    {
      cisr.Length > 0 && (effected.Some? ==> effected.value < cisr.Length)
    }

    ghost function View(): (s: Rf)
      reads this, cisr
      ensures |s.cisr| == cisr.Length
    {
      Rf(init, user, cisr[..], effected, now, overrides, inr)
    }

    constructor (setting: Setting, overrides: Overrides, ifaces: nat)
      requires ifaces > 0
      ensures Valid() && fresh(cisr) && View() == Start(setting, overrides, ifaces)
    {
      cisr := new Record[ifaces](_ => NO_RECORD);
      init, user, now := setting, Setting(NO_ALPHA2, 0), setting;
      effected := None;
      this.overrides := overrides;
      inr := ByInit;
      new;
      assert cisr[..] == seq(ifaces, _ => NO_RECORD);
    }

    /** The selection loop. */
    method Select(was: Option<Record>) returns (best: Option<nat>)
      ensures best == Choose(cisr[..], was, cisr.Length)
    {
      best := None;
      for i := 0 to cisr.Length
        invariant best == Choose(cisr[..], was, i)
      {
        if cisr[i].status != NoCountry {
          if best.None? || Replaces(was, cisr[best.value], cisr[i]) {
            best := Some(i);
          }
        }
      }
    }

    /** `rtw_chplan_rtk_priv_req_prehdl_country_ie`. */
    method PrehdlCountryIe(db: Database, p: Param) returns (q: Param, takes: bool)
      requires Valid() && p.iface < cisr.Length
      modifies this`effected, cisr
      ensures Valid()
      ensures (View(), q, takes) == RegulatoryPrecedence.PrehdlCountryIe(db, old(View()), p)
    {
      q := p;
      if p.inr == ByUser && effected.Some? {
        return q, false;
      }
      if p.inr != ByCountryIe {
        return q, true;
      }
      var before := cisr[p.iface];
      if before == p.cisr {
        return q, false;
      }
      var was := None;
      if effected.Some? {
        was := Some(cisr[effected.value]);
      }
      cisr[p.iface] := p.cisr;
      if SameEntry(before, p.cisr) {
        return q, false;
      }
      effected := Select(was);
      if effected.Some? && was.Some? && cisr[effected.value] == was.value {
        return q, false;
      }
      if effected.None? {
        q := Restore(db, p);
      } else {
        var e := cisr[effected.value].entry;
        q := p.(plan := e.plan, entry := Some(e));
      }
      takes := true;
    }

    /** Back to the user's setting, or else the initial one. */
    method Restore(db: Database, p: Param) returns (q: Param)
      ensures q == RestoreParam(db, View(), p)
    {
      var alpha2: Alpha2;
      q := p;
      if user.alpha2.first != '\0' {
        alpha2 := user.alpha2;
        q := q.(inr := ByUser, plan := user.plan);
      } else {
        alpha2 := init.alpha2;
        q := q.(inr := ByInit, plan := init.plan);
      }
      if alpha2 == UNSPEC || alpha2 == WORLD {
        q := q.(entry := None);
      } else {
        var found := db.country(alpha2);
        var e := if found.Some? then found.value else WORLD_ENTRY;
        q := q.(plan := e.plan, entry := Some(e));
      }
    }

    /** `rtw_set_chplan_hdl`: whether the request was acceptable. */
    method SetChplanHdl(db: Database, p: Param) returns (ok: bool)
      requires Valid() && p.iface < cisr.Length
      modifies this`effected, this`user, this`now, this`overrides, this`inr, cisr
      ensures Valid() && (ok, View()) == SetChplan(db, old(View()), p)
    {
      var q, takes := PrehdlCountryIe(db, p);
      if q.plan != PLAN_UNSPECIFIED && !db.valid(q.plan) {
        return false;
      }
      if q.plan == PLAN_UNSPECIFIED {
        q := q.(plan := now.plan);
      }
      var entry := EntryOf(q);
      if q.inr == ByUser {
        user := Setting(entry.alpha2, q.plan);
      }
      if takes {
        inr := q.inr;
        now := Setting(entry.alpha2, q.plan);
        overrides := entry.overrides;
      }
      ok := true;
    }
  }
}
