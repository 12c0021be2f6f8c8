/** The channel set's flags are a cache of the channel plan: both answer the same questions. */
module ChannelSetCache {

  import opened Basics

  datatype Band = Band24 | Band5 | Band6

  /** `RTW_CHF_*`. */
  datatype Flag = Dis | NoIr | Dfs | NoHt40Up | NoHt40Low | No80 | No160

  const WIDTH_40 := 1
  const WIDTH_80 := 2
  const WIDTH_160 := 3

  /** A channel of the set; 0 is the mark of a stopped non-occupancy period. */
  datatype Info = Info(band: Band, num: nat, flags: set<Flag>, nonOcpEnd: int)

  /** The plan database: which plans there are, and the flags of a plan's channels. */
  datatype Database = Database(valid: nat -> bool, channel: (nat, nat) -> Option<set<Flag>>)

  /** How a request allows channels without initiated radiation. */
  datatype Passive = Passive(primary: bool, others: bool)

  /** A request; `ops` are its 20 MHz channels, lowest first, or None for an impossible one. */
  datatype Request = Request(band: Band, ch: nat, width: int, ops: Option<seq<nat>>, passive: Passive)

  /** The list of excluded channels ends at its first 0. */
  function Excluded(excl: seq<nat>, ch: nat): bool {
    if excl == [] || excl[0] == 0 then false
    else excl[0] == ch || Excluded(excl[1..], ch)
  }

  lemma {:induction false} ExcludedMeans(excl: seq<nat>, ch: nat)
    ensures Excluded(excl, ch) <==>
              exists i :: 0 <= i < |excl| && excl[i] == ch && forall j :: 0 <= j <= i ==> excl[j] != 0
  {
    if excl != [] && excl[0] != 0 {
      ExcludedMeans(excl[1..], ch);
      if Excluded(excl[1..], ch) {
        var i :| 0 <= i < |excl[1..]| && excl[1..][i] == ch && forall j :: 0 <= j <= i ==> excl[1..][j] != 0;
        assert forall j :: 1 <= j <= i + 1 ==> excl[j] == excl[1..][j - 1];
        assert excl[i + 1] == ch;
      }
    }
  }

  // ---------------------------------------------------------------------------
  // The two answers
  // ---------------------------------------------------------------------------

  predicate PassiveOk(flags: set<Flag>, q: Request, op: nat) {
    NoIr in flags ==> q.passive.others && (q.passive.primary || op != q.ch)
  }

  predicate PlanHas(db: Database, plan: nat, excl: seq<nat>, q: Request, op: nat) {
    db.channel(plan, op).Some? && !Excluded(excl, op) && PassiveOk(db.channel(plan, op).value, q, op)
  }

  /** `rtw_chplan_is_bchbw_valid`: the database, less the excluded channels. */
  ghost predicate PlanAccepts(db: Database, plan: nat, excl: seq<nat>, q: Request) {
    && q.ops.Some? && q.ops.value != []
    && forall i :: 0 <= i < |q.ops.value| ==> PlanHas(db, plan, excl, q, q.ops.value[i])
  }

  /**
    What passive channels do to a request: nothing, if it allows them all; they rule it out
    if it allows none; and if it only forbids a passive primary channel, that one does.
   */
  lemma PassiveMatters(db: Database, plan: nat, excl: seq<nat>, q: Request)
    ensures var anyway := PlanAccepts(db, plan, excl, q.(passive := Passive(true, true)));
            PlanAccepts(db, plan, excl, q) <==>
              anyway && forall i :: 0 <= i < |q.ops.value| && NoIr in db.channel(plan, q.ops.value[i]).value ==>
                          q.passive.others && (q.ops.value[i] == q.ch ==> q.passive.primary)
    ensures PlanAccepts(db, plan, excl, q.(passive := Passive(true, true))) <==>
              q.ops.Some? && q.ops.value != []
              && forall i :: 0 <= i < |q.ops.value| ==>
                   db.channel(plan, q.ops.value[i]).Some? && !Excluded(excl, q.ops.value[i])
  {
    var r := q.(passive := Passive(true, true));
    if q.ops.Some? {
      forall i | 0 <= i < |q.ops.value|
        ensures PlanHas(db, plan, excl, r, q.ops.value[i]) <==>
                  db.channel(plan, q.ops.value[i]).Some? && !Excluded(excl, q.ops.value[i])
      {
      }
      forall i | 0 <= i < |q.ops.value| && PlanHas(db, plan, excl, r, q.ops.value[i])
        ensures PlanHas(db, plan, excl, q, q.ops.value[i]) <==>
                  (NoIr in db.channel(plan, q.ops.value[i]).value ==>
                     q.passive.others && (q.ops.value[i] == q.ch ==> q.passive.primary))
      {
      }
    }
  }

  /** The first channel of the set with the number, enabled unless disabled ones count too. */
  function Search(chs: seq<Info>, band: Band, ch: nat, withDis: bool): (k: nat)
    ensures k <= |chs|
    ensures k < |chs| ==> chs[k].band == band && chs[k].num == ch && (withDis || Dis !in chs[k].flags)
    ensures ch != 0 ==> forall j :: 0 <= j < k ==>
              chs[j].band != band || chs[j].num != ch || (!withDis && Dis in chs[j].flags)
    ensures ch == 0 ==> k == |chs|
  {
    if chs == [] || ch == 0 then |chs|
    else if chs[0].band == band && chs[0].num == ch && (withDis || Dis !in chs[0].flags) then 0
    else 1 + Search(chs[1..], band, ch, withDis)
  }

  /** The extra bandwidth limits, by the place of the channel within the range. */
  predicate WidthOk(flags: set<Flag>, width: int, i: nat) {
    && (width >= WIDTH_40 ==> !(NoHt40Up in flags && i % 2 == 0) && !(NoHt40Low in flags && i % 2 == 1))
    && (width >= WIDTH_80 ==> No80 !in flags)
    && (width >= WIDTH_160 ==> No160 !in flags)
  }

  /**
    The limits in terms of the range: none at 20 MHz; at 40 MHz and above no channel at an
    even place may lack its upper neighbour, nor one at an odd place its lower one; and
    wider ranges need their width allowed everywhere.
   */
  lemma WidthLimits(flags: seq<set<Flag>>, width: int)
    ensures (forall i :: 0 <= i < |flags| ==> WidthOk(flags[i], width, i)) <==>
              && (width >= 1 ==> forall i :: 0 <= i < |flags| ==>
                    if i % 2 == 0 then NoHt40Up !in flags[i] else NoHt40Low !in flags[i])
              && (width >= 2 ==> forall i :: 0 <= i < |flags| ==> No80 !in flags[i])
              && (width >= 3 ==> forall i :: 0 <= i < |flags| ==> No160 !in flags[i])
  {
    if forall i :: 0 <= i < |flags| ==> WidthOk(flags[i], width, i) {
      forall i | 0 <= i < |flags|
        ensures (width >= 1 ==> if i % 2 == 0 then NoHt40Up !in flags[i] else NoHt40Low !in flags[i])
        ensures (width >= 2 ==> No80 !in flags[i]) && (width >= 3 ==> No160 !in flags[i])
      {
        assert WidthOk(flags[i], width, i);
      }
    }
  }

  predicate SetHas(chs: seq<Info>, q: Request, op: nat, i: nat) {
    var k := Search(chs, q.band, op, false);
    k < |chs| && PassiveOk(chs[k].flags, q, op) && WidthOk(chs[k].flags, q.width, i)
  }

  /** `_rtw_chset_is_bchbw_valid`: the cached flags. */
  ghost predicate SetAccepts(chs: seq<Info>, q: Request) {
    && q.ops.Some? && q.ops.value != []
    && forall i :: 0 <= i < |q.ops.value| ==> SetHas(chs, q, q.ops.value[i], i)
  }

  // ---------------------------------------------------------------------------
  // Applying a plan to the set
  // ---------------------------------------------------------------------------

  /** The flags after the reset. */
  function ResetFlags(excl: seq<nat>, c: Info): set<Flag> {
    if c.band != Band6 && Excluded(excl, c.num) then {Dis} else {}
  }

  /** `rtw_chset_apply_from_rtk_priv` on one channel. */
  function PlanFlags(db: Database, plan: nat, c: Info): set<Flag> {
    if Dis in c.flags then c.flags
    else if c.band == Band6 then {Dis}
    else if !db.valid(plan) then c.flags
    else match db.channel(plan, c.num)
      case Some(flags) => c.flags + flags
      case None => {Dis}
  }

  /** A running non-occupancy period ends at the next check. */
  function EndNow(c: Info, now: int): int {
    if c.nonOcpEnd == 0 then 0 else if now == 0 then 1 else now
  }

  function Applied(db: Database, plan: nat, excl: seq<nat>, now: int, c: Info): Info {
    var reset := c.(flags := ResetFlags(excl, c));
    c.(flags := PlanFlags(db, plan, reset), nonOcpEnd := EndNow(c, now))
  }

  /** `chs` is the set after applying the plan to some set. */
  ghost predicate IsApplied(db: Database, plan: nat, excl: seq<nat>, now: int, was: seq<Info>, chs: seq<Info>) {
    |chs| == |was| && forall j :: 0 <= j < |chs| ==> chs[j] == Applied(db, plan, excl, now, was[j])
  }

  /**
    A channel after applying a plan: 6 GHz channels, excluded ones and those a valid plan does
    not have are disabled, and all others have just the plan's limits, or none if
    the plan is invalid; a non-occupancy period is over at the next tick at the latest.
   */
  lemma AppliedMeans(db: Database, plan: nat, excl: seq<nat>, now: int, c: Info)
    ensures var a := Applied(db, plan, excl, now, c);
            var out := c.band == Band6 || Excluded(excl, c.num) || (db.valid(plan) && db.channel(plan, c.num).None?);
            && a.band == c.band && a.num == c.num
            && a.flags == (if out then {Dis} else if db.valid(plan) then db.channel(plan, c.num).value else {})
            && (a.nonOcpEnd == 0 <==> c.nonOcpEnd == 0)
            && (c.nonOcpEnd != 0 ==> now <= a.nonOcpEnd <= now + 1 && (a.nonOcpEnd == now <==> now != 0))
  {
  }

  ghost predicate InSet(chs: seq<Info>, band: Band, ch: nat) {
    ch != 0 && exists j :: 0 <= j < |chs| && chs[j].band == band && chs[j].num == ch
  }

  /** One channel: the set has it exactly when the plan has it and nothing more restricts it. */
  lemma ChannelAgrees(db: Database, plan: nat, excl: seq<nat>, now: int, was: seq<Info>, chs: seq<Info>,
                      q: Request, op: nat, i: nat)
    requires IsApplied(db, plan, excl, now, was, chs) && db.valid(plan) && q.band != Band6
    ensures SetHas(chs, q, op, i) <==>
              && PlanHas(db, plan, excl, q, op) && InSet(was, q.band, op)
              && Dis !in db.channel(plan, op).value
              && WidthOk(db.channel(plan, op).value, q.width, i)
  {
    var k := Search(chs, q.band, op, false);
    if k < |chs| {
      assert chs[k] == Applied(db, plan, excl, now, was[k]);
      assert was[k].band == q.band && was[k].num == op;
      assert chs[k].flags == {} + db.channel(plan, op).value;
    } else if InSet(was, q.band, op) {
      var j :| 0 <= j < |was| && was[j].band == q.band && was[j].num == op;
      assert chs[j] == Applied(db, plan, excl, now, was[j]);
      assert Dis in chs[j].flags;
    }
  }

  /** What the set refuses although the plan has it. */
  ghost predicate NothingExtra(db: Database, plan: nat, was: seq<Info>, q: Request)
    requires q.ops.Some?
  {
    forall i :: 0 <= i < |q.ops.value| ==>
      var op := q.ops.value[i];
      InSet(was, q.band, op)
      && (db.channel(plan, op).Some? ==>
            Dis !in db.channel(plan, op).value && WidthOk(db.channel(plan, op).value, q.width, i))
  }

  /**
    Right after applying a valid plan, for every request in the 2.4 and 5 GHz
    bands: the cached set accepts it exactly when the plan database accepts it,
    its channels are all in the set, and the database restricts none of them
    beyond that.
   */
  lemma CacheAgrees(db: Database, plan: nat, excl: seq<nat>, now: int, was: seq<Info>, chs: seq<Info>, q: Request)
    requires IsApplied(db, plan, excl, now, was, chs) && db.valid(plan) && q.band != Band6
    requires q.ops.Some?
    ensures SetAccepts(chs, q) <==> PlanAccepts(db, plan, excl, q) && NothingExtra(db, plan, was, q)
  {
    forall i | 0 <= i < |q.ops.value|
      ensures SetHas(chs, q, q.ops.value[i], i) <==>
                && PlanHas(db, plan, excl, q, q.ops.value[i]) && InSet(was, q.band, q.ops.value[i])
                && Dis !in db.channel(plan, q.ops.value[i]).value
                && WidthOk(db.channel(plan, q.ops.value[i]).value, q.width, i)
    {
      ChannelAgrees(db, plan, excl, now, was, chs, q, q.ops.value[i], i);
    }
  }

  /** A database without extra limits, and a set with all channels: the two agree on every request. */
  lemma PlainDatabaseAgrees(db: Database, plan: nat, excl: seq<nat>, now: int, was: seq<Info>, chs: seq<Info>,
                            q: Request)
    requires IsApplied(db, plan, excl, now, was, chs) && db.valid(plan) && q.band != Band6
    requires forall ch: nat :: db.channel(plan, ch).Some? ==> db.channel(plan, ch).value <= {NoIr, Dfs}
    requires q.ops.Some? ==> forall i :: 0 <= i < |q.ops.value| ==> InSet(was, q.band, q.ops.value[i])
    ensures SetAccepts(chs, q) <==> PlanAccepts(db, plan, excl, q)
  {
    if q.ops.Some? {
      CacheAgrees(db, plan, excl, now, was, chs, q);
    }
  }

  /** With an invalid plan the set accepts channels the database may not have at all. */
  lemma InvalidPlanOpensSet(db: Database, plan: nat, now: int, was: seq<Info>, chs: seq<Info>, k: nat)
    requires IsApplied(db, plan, [], now, was, chs) && !db.valid(plan)
    requires k < |was| && was[k].band != Band6 && was[k].num != 0
    ensures SetAccepts(chs, Request(was[k].band, was[k].num, 0, Some([was[k].num]), Passive(false, false)))
  {
    assert chs[k] == Applied(db, plan, [], now, was[k]);
    var found := Search(chs, was[k].band, was[k].num, false);
    assert chs[k].flags == {};
    assert found < |chs|;
    assert chs[found] == Applied(db, plan, [], now, was[found]);
  }

  // ---------------------------------------------------------------------------
  // In place
  // ---------------------------------------------------------------------------

  function Enabled(chs: seq<Info>): nat {
    if chs == [] then 0
    else Enabled(chs[..|chs| - 1]) + (if Dis in chs[|chs| - 1].flags then 0 else 1)
  }

  ghost function EnabledPlaces(chs: seq<Info>): set<nat> {
    set i: nat | i < |chs| && Dis !in chs[i].flags
  }

  /** The count is the number of channels that are not disabled. */
  lemma {:induction false} EnabledCounts(chs: seq<Info>)
    ensures Enabled(chs) == |EnabledPlaces(chs)|
  {
    if chs != [] {
      var last, front := |chs| - 1, chs[..|chs| - 1];
      EnabledCounts(front);
      assert EnabledPlaces(chs) == EnabledPlaces(front) + if Dis in chs[last].flags then {} else {last};
    } else {
      assert EnabledPlaces(chs) == {};
    }
  }

  /** `rtw_regsty_is_excl_chs`. */
  method IsExcluded(excl: seq<nat>, ch: nat) returns (r: bool)
    ensures r == Excluded(excl, ch)
  {
    var i := 0;
    while i < |excl|
      invariant i <= |excl| && Excluded(excl, ch) == Excluded(excl[i..], ch)
    {
      assert excl[i..][1..] == excl[i + 1..];
      if excl[i] == 0 {
        return false;
      }
      if excl[i] == ch {
        return true;
      }
      i := i + 1;
    }
    return false;
  }

  /** `rtw_chplan_is_bchbw_valid`. */
  method IsPlanBchbwValid(db: Database, plan: nat, excl: seq<nat>, q: Request) returns (valid: bool)
    ensures valid <==> PlanAccepts(db, plan, excl, q)
  {
    if q.ops.None? {
      return false;
    }
    var i := 0;
    while i < |q.ops.value|
      invariant 0 <= i <= |q.ops.value|
      invariant forall j :: 0 <= j < i ==> PlanHas(db, plan, excl, q, q.ops.value[j])
    {
      var op := q.ops.value[i];
      var flags := db.channel(plan, op);
      var excluded := IsExcluded(excl, op);
      if flags.None? || excluded {
        return false;
      }
      if NoIr in flags.value {
        if !q.passive.others || (!q.passive.primary && op == q.ch) {
          return false;
        }
      }
      i := i + 1;
    }
    return |q.ops.value| != 0;
  }

  class ChSet {
    const chs: array<Info>
    var enableNum: nat

    constructor (infos: seq<Info>)
      ensures chs[..] == infos && fresh(chs) && enableNum == 0
    {
      chs := new Info[|infos|](i requires 0 <= i < |infos| => infos[i]);
      enableNum := 0;
    }

    /** `_rtw_chset_search_bch`. */
    method SearchBch(band: Band, ch: nat, withDis: bool) returns (k: int)
      ensures k == var s := Search(chs[..], band, ch, withDis); if s == chs.Length then -1 else s
    {
      if ch == 0 {
        return -1;
      }
      var i := 0;
      while i < chs.Length
        invariant i <= chs.Length
        invariant Search(chs[..], band, ch, withDis) == i + Search(chs[i..], band, ch, withDis)
      {
        assert chs[i..][0] == chs[i] && chs[i..][1..] == chs[i + 1..];
        if chs[i].band == band && chs[i].num == ch && (withDis || Dis !in chs[i].flags) {
          return i;
        }
        i := i + 1;
      }
      return -1;
    }

    /** `_rtw_chset_is_bchbw_valid`. */
    method IsBchbwValid(q: Request) returns (valid: bool)
      ensures valid <==> SetAccepts(chs[..], q)
    {
      if q.ops.None? {
        return false;
      }
      var i := 0;
      while i < |q.ops.value|
        invariant 0 <= i <= |q.ops.value|
        invariant forall j :: 0 <= j < i ==> SetHas(chs[..], q, q.ops.value[j], j)
      {
        var k := SearchBch(q.band, q.ops.value[i], false);
        if k == -1 {
          return false;
        }
        var flags := chs[k].flags;
        if NoIr in flags {
          if !q.passive.others || (!q.passive.primary && chs[k].num == q.ch) {
            return false;
          }
        }
        if q.width >= WIDTH_40 {
          if NoHt40Up in flags && i % 2 == 0 {
            return false;
          }
          if NoHt40Low in flags && i % 2 == 1 {
            return false;
          }
        }
        if q.width >= WIDTH_80 && No80 in flags {
          return false;
        }
        if q.width >= WIDTH_160 && No160 in flags {
          return false;
        }
        i := i + 1;
      }
      return |q.ops.value| != 0;
    }

    /** The reset in front of applying. */
    method ResetAll(excl: seq<nat>)
      modifies chs
      ensures forall j :: 0 <= j < chs.Length ==>
                chs[j] == old(chs[j]).(flags := ResetFlags(excl, old(chs[j])))
    {
      for i := 0 to chs.Length
        invariant forall j :: 0 <= j < i ==> chs[j] == old(chs[j]).(flags := ResetFlags(excl, old(chs[j])))
        invariant forall j :: i <= j < chs.Length ==> chs[j] == old(chs[j])
      {
        var excluded := IsExcluded(excl, chs[i].num);
        if chs[i].band != Band6 && excluded {
          chs[i] := chs[i].(flags := {Dis});
        } else {
          chs[i] := chs[i].(flags := {});
        }
      }
    }

    /** `rtw_chset_apply_from_rtk_priv`. */
    method ApplyFromPlan(db: Database, plan: nat)
      modifies chs
      ensures forall j :: 0 <= j < chs.Length ==>
                chs[j] == old(chs[j]).(flags := PlanFlags(db, plan, old(chs[j])))
    {
      var valid := db.valid(plan);
      for i := 0 to chs.Length
        invariant forall j :: 0 <= j < i ==> chs[j] == old(chs[j]).(flags := PlanFlags(db, plan, old(chs[j])))
        invariant forall j :: i <= j < chs.Length ==> chs[j] == old(chs[j])
      {
        var c := chs[i];
        if Dis !in c.flags {
          var found: Option<set<Flag>> := None;
          if c.band != Band6 {
            if valid {
              found := db.channel(plan, c.num);
            } else {
              found := Some({});
            }
          }
          if found.Some? {
            chs[i] := c.(flags := c.flags + found.value);
          } else {
            chs[i] := c.(flags := {Dis});
          }
        }
      }
    }

    /** `rtw_rfctl_chset_apply_regulatory`. */
    method ApplyRegulatory(db: Database, plan: nat, excl: seq<nat>, now: int)
      modifies this`enableNum, chs
      ensures IsApplied(db, plan, excl, now, old(chs[..]), chs[..])
      ensures enableNum == Enabled(chs[..])
    {
      ResetAll(excl);
      ApplyFromPlan(db, plan);
      ghost var mid := chs[..];
      enableNum := 0;
      for i := 0 to chs.Length
        invariant forall j :: 0 <= j < i ==> chs[j] == mid[j].(nonOcpEnd := EndNow(mid[j], now))
        invariant forall j :: i <= j < chs.Length ==> chs[j] == mid[j]
        invariant enableNum == Enabled(chs[..i])
      {
        ghost var done := chs[..i];
        if chs[i].nonOcpEnd != 0 {
          chs[i] := chs[i].(nonOcpEnd := if now == 0 then now + 1 else now);
        }
        if Dis !in chs[i].flags {
          enableNum := enableNum + 1;
        }
        assert chs[..i + 1][..i] == done;
      }
      assert chs[..] == chs[..chs.Length];
    }
  }
}
