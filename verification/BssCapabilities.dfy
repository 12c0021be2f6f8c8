/** What the access point counts about its stations, and what its beacon says because of it. */
module BssCapabilities {

  import opened Basics

  /** The `*_set` marks of a station; each has its counter in the BSS. */
  datatype Flag =
    NoShortPreamble | NonErp | NoShortSlot | NoHt | NoGreenfield | Ht20 | Intolerant40

  /** What a station says of itself when it joins. */
  datatype Capability = Capability(shortPreamble: bool, nonErp: bool, shortSlot: bool,
                                   ht: bool, greenfield: bool, supWidth: bool, intolerant40: bool)

  datatype Mode = Pure | MayBeLegacy | Ht20Associated | Mixed

  /** `ht_op_mode` without its other bits. */
  datatype OpMode = OpMode(mode: Mode, nonGreenfield: bool, nonHt: bool)

  /** The three bits of the beacon's ERP information. */
  datatype Erp = Erp(nonErpPresent: bool, useProtection: bool, barker: bool)

  /** Settings that do not change while the BSS runs; `erpInfo`: ERP is enabled and in the beacon. */
  datatype Settings = Settings(htEnable: bool, htOption: bool, supWidth: bool,
                               erpInfo: bool, above11b: bool)

  /** One counter for each flag. */
  type Counts = Flag -> int

  function Plus(num: Counts, f: Flag, n: int): Counts {
    g => if g == f then num(g) + n else num(g)
  }

  datatype Bss = Bss(sta: seq<set<Flag>>, num: Counts, erp: Erp, op: OpMode,
                     widthReq: bool, chReported: bool)

  function Raise(s: Bss, i: nat, f: Flag): (r: Bss)
    requires i < |s.sta|
    ensures |r.sta| == |s.sta|
  {
    if f in s.sta[i] then s
    else s.(sta := s.sta[i := s.sta[i] + {f}], num := Plus(s.num, f, 1))
  }

  function Lower(s: Bss, i: nat, f: Flag): (r: Bss)
    requires i < |s.sta|
    ensures |r.sta| == |s.sta|
  {
    if f !in s.sta[i] then s
    else s.(sta := s.sta[i := s.sta[i] - {f}], num := Plus(s.num, f, -1))
  }

  function Put(s: Bss, i: nat, f: Flag, on: bool): (r: Bss)
    requires i < |s.sta|
    ensures |r.sta| == |s.sta|
  {
    if on then Raise(s, i, f) else Lower(s, i, f)
  }

  /** `update_bcn_erpinfo_ie`. */
  function UpdateErp(env: Settings, s: Bss): Bss {
    if !env.erpInfo then s
    else s.(erp := Erp(s.num(NonErp) == 1, s.num(NonErp) == 1, s.num(NoShortPreamble) > 0))
  }

  /** The element is only rewritten when the count of non-ERP stations gets to 1 or back to 0. */
  function PutErp(env: Settings, s: Bss, i: nat, nonErp: bool): (r: Bss)
    requires i < |s.sta|
    ensures |r.sta| == |s.sta|
  {
    var t := Put(s, i, NonErp, nonErp);
    if t.num(NonErp) != s.num(NonErp) && t.num(NonErp) == (if nonErp then 1 else 0)
    then UpdateErp(env, t) else t
  }

  function NewMode(env: Settings, num: Counts, olbc: bool): Mode {
    if num(NoHt) != 0 then Mixed
    else if env.supWidth && num(Ht20) != 0 then Ht20Associated
    else if olbc then MayBeLegacy
    else Pure
  }

  /** The two presence marks are set and cleared one at a time, then the mode. */
  function NewOp(env: Settings, num: Counts, op: OpMode, olbc: bool): OpMode {
    var gf := if !op.nonGreenfield && num(NoGreenfield) != 0 then true
              else if op.nonGreenfield && num(NoGreenfield) == 0 then false
              else op.nonGreenfield;
    var noht := if !op.nonHt && (num(NoHt) != 0 || olbc) then true
                else if op.nonHt && num(NoHt) == 0 && !olbc then false
                else op.nonHt;
    OpMode(NewMode(env, num, olbc), gf, noht)
  }

  /** `rtw_ht_operation_update`; `olbc` is the overlapping legacy BSS mark at this time. */
  function HtOperationUpdate(env: Settings, s: Bss, olbc: bool): (r: Bss)
    ensures |r.sta| == |s.sta|
  {
    if env.htOption then s.(op := NewOp(env, s.num, s.op, olbc)) else s
  }

  function JoinHt(env: Settings, s: Bss, i: nat, cap: Capability): (r: Bss)
    requires i < |s.sta|
    ensures |r.sta| == |s.sta|
  {
    if !cap.ht then Raise(s, i, NoHt)
    else
      var a := Lower(s, i, NoHt);
      var b := if cap.greenfield then a else Raise(a, i, NoGreenfield);
      var c := if cap.supWidth then b else Raise(b, i, Ht20);
      if cap.intolerant40 then Raise(c, i, Intolerant40) else c
  }

  /** Preamble, ERP and slot time. */
  function JoinBasic(env: Settings, s: Bss, i: nat, cap: Capability): (r: Bss)
    requires i < |s.sta|
    ensures |r.sta| == |s.sta|
  {
    var a := Put(s, i, NoShortPreamble, !cap.shortPreamble);
    var b := PutErp(env, a, i, cap.nonErp);
    Put(b, i, NoShortSlot, !cap.shortSlot)
  }

  /** `bss_cap_update_on_sta_join`. */
  function Join(env: Settings, s: Bss, i: nat, cap: Capability, olbc: bool): (r: Bss)
    requires i < |s.sta|
    ensures |r.sta| == |s.sta|
  {
    var c := JoinBasic(env, s, i, cap);
    if env.htEnable then HtOperationUpdate(env, JoinHt(env, c, i, cap), olbc) else c
  }

  function LeaveHt(s: Bss, i: nat): (r: Bss)
    requires i < |s.sta|
    ensures |r.sta| == |s.sta|
  {
    var d := Lower(s, i, NoGreenfield);
    var e := Lower(d, i, NoHt);
    var f := Lower(e, i, Ht20);
    if Intolerant40 !in f.sta[i] || f.num(Intolerant40) > 0 then Lower(f, i, Intolerant40)
    else f.(sta := f.sta[i := f.sta[i] - {Intolerant40}])
  }

  /** `bss_cap_update_on_sta_leave`. */
  function Leave(env: Settings, s: Bss, i: nat, olbc: bool): (r: Bss)
    requires i < |s.sta|
    ensures |r.sta| == |s.sta|
  {
    var a := Lower(s, i, NoShortPreamble);
    var b := PutErp(env, a, i, false);
    var c := Lower(b, i, NoShortSlot);
    HtOperationUpdate(env, LeaveHt(c, i), olbc)
  }

  /** What a 20/40 coexistence frame reports. */
  datatype Report = Report(intolerant40: bool, widthReq: bool, channels: bool)

  /** `rtw_process_public_act_bsscoex`, up to the beacon update. */
  function Coexist(s: Bss, i: nat, report: Report): (r: Bss)
    requires i < |s.sta|
    ensures |r.sta| == |s.sta|
  {
    var a := if report.intolerant40 then Raise(s, i, Intolerant40)
             else if report.widthReq then s.(widthReq := true)
             else s;
    if report.channels then a.(chReported := true) else a
  }

  // ---------------------------------------------------------------------------
  // Counters count
  // ---------------------------------------------------------------------------

  function Tally(sta: seq<set<Flag>>, f: Flag): nat {
    if sta == [] then 0 else (if f in sta[0] then 1 else 0) + Tally(sta[1..], f)
  }

  ghost predicate Someone(sta: seq<set<Flag>>, f: Flag) {
    exists i :: 0 <= i < |sta| && f in sta[i]
  }

  lemma {:induction false} TallyPositive(sta: seq<set<Flag>>, f: Flag)
    ensures Tally(sta, f) > 0 <==> Someone(sta, f)
  {
    if sta != [] {
      TallyPositive(sta[1..], f);
      assert forall i :: 1 <= i < |sta| ==> sta[i] == sta[1..][i - 1];
      if f in sta[0] {
        assert Someone(sta, f);
      } else if Someone(sta[1..], f) {
        var i :| 0 <= i < |sta[1..]| && f in sta[1..][i];
        assert f in sta[i + 1];
      }
    }
  }

  lemma {:induction false} TallyPut(sta: seq<set<Flag>>, i: nat, flags: set<Flag>, f: Flag)
    requires i < |sta|
    ensures Tally(sta[i := flags], f)
         == Tally(sta, f) - (if f in sta[i] then 1 else 0) + (if f in flags then 1 else 0)
  {
    if i == 0 {
      assert sta[i := flags][1..] == sta[1..];
    } else {
      assert sta[i := flags][1..] == sta[1..][i - 1 := flags];
      TallyPut(sta[1..], i - 1, flags, f);
    }
  }

  /** Every counter is the number of stations with its flag. */
  ghost predicate Matches(s: Bss) {
    forall f: Flag :: s.num(f) == Tally(s.sta, f)
  }

  /** Nothing but one flag of one station has changed among the flags. */
  ghost predicate Only(s: Bss, r: Bss, i: nat, f: Flag, on: bool) {
    && i < |s.sta| == |r.sta|
    && (forall j :: 0 <= j < |s.sta| && j != i ==> r.sta[j] == s.sta[j])
    && (forall g: Flag :: g in r.sta[i] <==> if g == f then on else g in s.sta[i])
  }

  lemma PutMatches(s: Bss, i: nat, f: Flag, on: bool)
    requires i < |s.sta| && Matches(s)
    ensures Matches(Put(s, i, f, on)) && Only(s, Put(s, i, f, on), i, f, on)
  {
    var r := Put(s, i, f, on);
    forall g: Flag ensures r.num(g) == Tally(r.sta, g) {
      if r != s {
        TallyPut(s.sta, i, r.sta[i], g);
      }
    }
  }

  /** Protection is on exactly when some station is non-ERP. */
  ghost predicate ErpRight(env: Settings, s: Bss) {
    env.erpInfo ==>
      && s.erp.useProtection == (s.num(NonErp) > 0)
      && s.erp.nonErpPresent == (s.num(NonErp) > 0)
  }

  ghost predicate ModeRight(env: Settings, s: Bss) {
    env.htEnable && env.htOption ==> (s.op.mode == Mixed <==> s.num(NoHt) > 0)
  }

  ghost predicate Inv(env: Settings, s: Bss) {
    Matches(s) && ErpRight(env, s)
  }

  lemma PutErpKeeps(env: Settings, s: Bss, i: nat, on: bool)
    requires i < |s.sta| && Inv(env, s)
    ensures Inv(env, PutErp(env, s, i, on))
    ensures Only(s, PutErp(env, s, i, on), i, NonErp, on)
    ensures PutErp(env, s, i, on).op == s.op
  {
    PutMatches(s, i, NonErp, on);
  }

  /** A flag other than NonErp. */
  lemma PutKeeps(env: Settings, s: Bss, i: nat, f: Flag, on: bool)
    requires i < |s.sta| && Inv(env, s) && f != NonErp
    ensures Inv(env, Put(s, i, f, on)) && Put(s, i, f, on).op == s.op
    ensures Only(s, Put(s, i, f, on), i, f, on)
  {
    PutMatches(s, i, f, on);
  }

  /** Whether a station has a flag after the HT part of a join. */
  predicate HtFlag(f: Flag, was: bool, cap: Capability) {
    match f
    case NoHt => !cap.ht
    case NoGreenfield => was || (cap.ht && !cap.greenfield)
    case Ht20 => was || (cap.ht && !cap.supWidth)
    case Intolerant40 => was || (cap.ht && cap.intolerant40)
    case _ => was
  }

  /** Whether a station has a flag after it joins. */
  predicate JoinFlag(env: Settings, f: Flag, was: bool, cap: Capability) {
    match f
    case NoShortPreamble => !cap.shortPreamble
    case NonErp => cap.nonErp
    case NoShortSlot => !cap.shortSlot
    case _ => if env.htEnable then HtFlag(f, was, cap) else was
  }

  /** The other stations keep their flags, and this one gets the expected ones. */
  ghost predicate Becomes(s: Bss, r: Bss, i: nat, has: Flag -> bool) {
    && i < |s.sta| == |r.sta|
    && (forall j :: 0 <= j < |s.sta| && j != i ==> r.sta[j] == s.sta[j])
    && (forall g: Flag :: g in r.sta[i] <==> has(g))
  }

  lemma HtChain(s: Bss, a: Bss, b: Bss, c: Bss, d: Bss, i: nat, cap: Capability)
    requires cap.ht && Only(s, a, i, NoHt, false)
    requires if cap.greenfield then b == a else Only(a, b, i, NoGreenfield, true)
    requires if cap.supWidth then c == b else Only(b, c, i, Ht20, true)
    requires if cap.intolerant40 then Only(c, d, i, Intolerant40, true) else d == c
    ensures Becomes(s, d, i, g => HtFlag(g, i < |s.sta| && g in s.sta[i], cap))
  {
  }

  lemma JoinHtKeeps(env: Settings, s: Bss, i: nat, cap: Capability)
    requires i < |s.sta| && Inv(env, s)
    ensures var r := JoinHt(env, s, i, cap);
            && Inv(env, r) && r.op == s.op
            && Becomes(s, r, i, g => HtFlag(g, i < |s.sta| && g in s.sta[i], cap))
  {
    PutKeeps(env, s, i, NoHt, !cap.ht);
    if cap.ht {
      var a := Put(s, i, NoHt, false);
      PutKeeps(env, a, i, NoGreenfield, true);
      var b := if cap.greenfield then a else Put(a, i, NoGreenfield, true);
      PutKeeps(env, b, i, Ht20, true);
      var c := if cap.supWidth then b else Put(b, i, Ht20, true);
      PutKeeps(env, c, i, Intolerant40, true);
      var d := if cap.intolerant40 then Put(c, i, Intolerant40, true) else c;
      HtChain(s, a, b, c, d, i, cap);
    }
  }

  /** Whether a station has a flag after the first part of a join. */
  predicate BasicFlag(f: Flag, was: bool, cap: Capability) {
    match f
    case NoShortPreamble => !cap.shortPreamble
    case NonErp => cap.nonErp
    case NoShortSlot => !cap.shortSlot
    case _ => was
  }

  lemma BasicChain(s: Bss, a: Bss, b: Bss, c: Bss, i: nat, cap: Capability)
    requires Only(s, a, i, NoShortPreamble, !cap.shortPreamble)
    requires Only(a, b, i, NonErp, cap.nonErp)
    requires Only(b, c, i, NoShortSlot, !cap.shortSlot)
    ensures Becomes(s, c, i, g => BasicFlag(g, i < |s.sta| && g in s.sta[i], cap))
  {
  }

  lemma JoinBasicKeeps(env: Settings, s: Bss, i: nat, cap: Capability)
    requires i < |s.sta| && Inv(env, s)
    ensures var r := JoinBasic(env, s, i, cap);
            && Inv(env, r) && r.op == s.op
            && Becomes(s, r, i, g => BasicFlag(g, i < |s.sta| && g in s.sta[i], cap))
  {
    PutKeeps(env, s, i, NoShortPreamble, !cap.shortPreamble);
    var a := Put(s, i, NoShortPreamble, !cap.shortPreamble);
    PutErpKeeps(env, a, i, cap.nonErp);
    var b := PutErp(env, a, i, cap.nonErp);
    PutKeeps(env, b, i, NoShortSlot, !cap.shortSlot);
    BasicChain(s, a, b, Put(b, i, NoShortSlot, !cap.shortSlot), i, cap);
  }

  lemma JoinChain(env: Settings, s: Bss, c: Bss, d: Bss, i: nat, cap: Capability)
    requires Becomes(s, c, i, g => BasicFlag(g, i < |s.sta| && g in s.sta[i], cap))
    requires if env.htEnable then Becomes(c, d, i, g => HtFlag(g, i < |c.sta| && g in c.sta[i], cap))
             else d == c
    ensures Becomes(s, d, i, g => JoinFlag(env, g, i < |s.sta| && g in s.sta[i], cap))
  {
  }

  lemma JoinKeeps(env: Settings, s: Bss, i: nat, cap: Capability, olbc: bool)
    requires i < |s.sta| && Inv(env, s)
    ensures var r := Join(env, s, i, cap, olbc);
            && Inv(env, r)
            && (env.htEnable ==> ModeRight(env, r))
            && (!env.htEnable ==> r.op == s.op)
            && Becomes(s, r, i, g => JoinFlag(env, g, i < |s.sta| && g in s.sta[i], cap))
  {
    JoinBasicKeeps(env, s, i, cap);
    var c := JoinBasic(env, s, i, cap);
    var d := if env.htEnable then JoinHt(env, c, i, cap) else c;
    if env.htEnable {
      JoinHtKeeps(env, c, i, cap);
      HtUpdateKeeps(env, d, olbc);
    }
    JoinChain(env, s, c, d, i, cap);
  }

  lemma HtUpdateKeeps(env: Settings, s: Bss, olbc: bool)
    requires Inv(env, s)
    ensures var r := HtOperationUpdate(env, s, olbc);
            Inv(env, r) && r.sta == s.sta && ModeRight(env, r)
  {
  }

  lemma LeaveChain(s: Bss, a: Bss, b: Bss, c: Bss, d: Bss, e: Bss, f: Bss, g: Bss, i: nat)
    requires Only(s, a, i, NoShortPreamble, false) && Only(a, b, i, NonErp, false)
    requires Only(b, c, i, NoShortSlot, false) && Only(c, d, i, NoGreenfield, false)
    requires Only(d, e, i, NoHt, false) && Only(e, f, i, Ht20, false)
    requires Only(f, g, i, Intolerant40, false)
    ensures Becomes(s, g, i, k => false)
  {
  }

  lemma LeaveKeeps(env: Settings, s: Bss, i: nat, olbc: bool)
    requires i < |s.sta| && Inv(env, s)
    ensures var r := Leave(env, s, i, olbc);
            && Inv(env, r) && ModeRight(env, r) && Becomes(s, r, i, k => false)
  {
    var a := Put(s, i, NoShortPreamble, false);
    PutKeeps(env, s, i, NoShortPreamble, false);
    var b := PutErp(env, a, i, false);
    PutErpKeeps(env, a, i, false);
    var c := Put(b, i, NoShortSlot, false);
    PutKeeps(env, b, i, NoShortSlot, false);
    var d := Put(c, i, NoGreenfield, false);
    PutKeeps(env, c, i, NoGreenfield, false);
    var e := Put(d, i, NoHt, false);
    PutKeeps(env, d, i, NoHt, false);
    var f := Put(e, i, Ht20, false);
    PutKeeps(env, e, i, Ht20, false);
    var g := Put(f, i, Intolerant40, false);
    PutKeeps(env, f, i, Intolerant40, false);
    LeaveChain(s, a, b, c, d, e, f, g, i);
    TallyPositive(f.sta, Intolerant40);
    assert f.num(Intolerant40) == Tally(f.sta, Intolerant40);
    HtUpdateKeeps(env, g, olbc);
  }

  // ---------------------------------------------------------------------------
  // Every run
  // ---------------------------------------------------------------------------

  datatype Event =
    | Joined(i: nat, cap: Capability, olbc: bool)
    | Left(i: nat, olbc: bool)
    | Reported(i: nat, report: Report)

  function Step(env: Settings, s: Bss, ev: Event): (r: Bss)
    requires ev.i < |s.sta|
    ensures |r.sta| == |s.sta|
  {
    match ev
    case Joined(i, cap, olbc) => Join(env, s, i, cap, olbc)
    case Left(i, olbc) => Leave(env, s, i, olbc)
    case Reported(i, report) => Coexist(s, i, report)
  }

  ghost predicate Events(n: nat, run: seq<Event>) {
    forall k :: 0 <= k < |run| ==> run[k].i < n
  }

  function Start(n: nat): Bss {
    Bss(seq(n, _ => {}), (_ => 0), Erp(false, false, false), OpMode(Pure, false, false), false, false)
  }

  function Run(env: Settings, n: nat, run: seq<Event>): (s: Bss)
    requires Events(n, run)
    ensures |s.sta| == n
  {
    if run == [] then Start(n)
    else
      assert Events(n, run[..|run| - 1]);
      Step(env, Run(env, n, run[..|run| - 1]), run[|run| - 1])
  }

  function MemberAfter(was: Option<Capability>, ev: Event, i: nat): Option<Capability> {
    if ev.Joined? && ev.i == i then Some(ev.cap)
    else if ev.Left? && ev.i == i then None
    else was
  }

  /** What the station said when it last joined, if it has not left since. */
  function Member(run: seq<Event>, i: nat): Option<Capability> {
    if run == [] then None
    else MemberAfter(Member(run[..|run| - 1], i), run[|run| - 1], i)
  }

  /** What the flags of one station mean, by its last join. */
  ghost predicate FlagsRight(env: Settings, flags: set<Flag>, member: Option<Capability>) {
    && (NonErp in flags <==> member.Some? && member.value.nonErp)
    && (NoShortPreamble in flags <==> member.Some? && !member.value.shortPreamble)
    && (NoShortSlot in flags <==> member.Some? && !member.value.shortSlot)
    && (NoHt in flags <==> env.htEnable && member.Some? && !member.value.ht)
  }

  lemma TallyNone(n: nat, f: Flag)
    ensures Tally(seq(n, _ => {}), f) == 0
  {
    TallyPositive(seq(n, _ => {}), f);
  }

  lemma StepKeeps(env: Settings, s: Bss, ev: Event)
    requires ev.i < |s.sta| && Inv(env, s) && ModeRight(env, s)
    ensures Inv(env, Step(env, s, ev)) && ModeRight(env, Step(env, s, ev))
  {
    match ev {
      case Joined(i, cap, olbc) => JoinKeeps(env, s, i, cap, olbc);
      case Left(i, olbc) => LeaveKeeps(env, s, i, olbc);
      case Reported(i, report) =>
        PutKeeps(env, s, i, Intolerant40, true);
        CoexistLeavesNoHt(s, i, report);
    }
  }

  lemma CoexistLeavesNoHt(s: Bss, i: nat, report: Report)
    requires i < |s.sta|
    ensures Coexist(s, i, report).num(NoHt) == s.num(NoHt)
  {
  }

  lemma StepFlags(env: Settings, s: Bss, ev: Event, j: nat, was: Option<Capability>)
    requires ev.i < |s.sta| && j < |s.sta| && Inv(env, s)
    requires FlagsRight(env, s.sta[j], was)
    ensures FlagsRight(env, Step(env, s, ev).sta[j], MemberAfter(was, ev, j))
  {
    match ev {
      case Joined(i, cap, olbc) =>
        JoinKeeps(env, s, i, cap, olbc);
        JoinedFlags(env, s, Join(env, s, i, cap, olbc), i, cap, j, was);
      case Left(i, olbc) => LeaveKeeps(env, s, i, olbc);
      case Reported(i, report) => PutKeeps(env, s, i, Intolerant40, true);
    }
  }

  lemma JoinedFlags(env: Settings, s: Bss, r: Bss, i: nat, cap: Capability, j: nat,
                    was: Option<Capability>)
    requires Becomes(s, r, i, g => JoinFlag(env, g, i < |s.sta| && g in s.sta[i], cap))
    requires j < |s.sta| && FlagsRight(env, s.sta[j], was)
    ensures FlagsRight(env, r.sta[j], if j == i then Some(cap) else was)
  {
  }

  lemma {:induction false} RunKeeps(env: Settings, n: nat, run: seq<Event>)
    requires Events(n, run)
    ensures Inv(env, Run(env, n, run)) && ModeRight(env, Run(env, n, run))
    ensures forall i: nat :: i < n ==> FlagsRight(env, Run(env, n, run).sta[i], Member(run, i))
  {
    if run == [] {
      forall f: Flag ensures Start(n).num(f) == Tally(Start(n).sta, f) {
        TallyNone(n, f);
      }
    } else {
      var before, ev := run[..|run| - 1], run[|run| - 1];
      assert Events(n, before);
      RunKeeps(env, n, before);
      var s := Run(env, n, before);
      StepKeeps(env, s, ev);
      forall i: nat | i < n ensures FlagsRight(env, Run(env, n, run).sta[i], Member(run, i)) {
        StepFlags(env, s, ev, i, Member(before, i));
      }
    }
  }

  /** Some member is non-ERP. */
  ghost predicate AnyNonErp(run: seq<Event>, n: nat) {
    exists i: nat :: i < n && Member(run, i).Some? && Member(run, i).value.nonErp
  }

  /** Some member is not HT. */
  ghost predicate AnyNonHt(run: seq<Event>, n: nat) {
    exists i: nat :: i < n && Member(run, i).Some? && !Member(run, i).value.ht
  }

  lemma FlagsMeanMembers(env: Settings, n: nat, run: seq<Event>, sta: seq<set<Flag>>)
    requires |sta| == n
    requires forall i: nat :: i < n ==> FlagsRight(env, sta[i], Member(run, i))
    ensures Someone(sta, NonErp) <==> AnyNonErp(run, n)
    ensures env.htEnable ==> (Someone(sta, NoHt) <==> AnyNonHt(run, n))
  {
  }

  /**
    After every run of joins, re-joins, leaves and coexistence reports: each
    counter is the number of stations with its flag; the beacon asks for
    protection exactly when some member is non-ERP, although the updater only
    tests for a count of 1; and the HT mode is MIXED exactly when some member is
    not HT.
   */
  lemma BeaconTellsTheTruth(env: Settings, n: nat, run: seq<Event>)
    requires Events(n, run)
    ensures var s := Run(env, n, run);
            && (forall f: Flag :: s.num(f) == Tally(s.sta, f))
            && (env.erpInfo ==> (s.erp.useProtection <==> AnyNonErp(run, n)))
            && (env.htEnable && env.htOption ==> (s.op.mode == Mixed <==> AnyNonHt(run, n)))
  {
    RunKeeps(env, n, run);
    var s := Run(env, n, run);
    TallyPositive(s.sta, NonErp);
    TallyPositive(s.sta, NoHt);
    FlagsMeanMembers(env, n, run, s.sta);
  }

  /** Right after a join or leave with HT on, every part of the HT mode follows the counters. */
  lemma HtModeFollows(env: Settings, s: Bss, olbc: bool)
    requires env.htOption && Matches(s)
    ensures var op := HtOperationUpdate(env, s, olbc).op;
            && (op.nonGreenfield <==> Someone(s.sta, NoGreenfield))
            && (op.nonHt <==> olbc || Someone(s.sta, NoHt))
            && (op.mode == Mixed <==> Someone(s.sta, NoHt))
            && (op.mode == Ht20Associated <==> !Someone(s.sta, NoHt) && env.supWidth && Someone(s.sta, Ht20))
            && (op.mode == MayBeLegacy <==>
                  olbc && !Someone(s.sta, NoHt) && !(env.supWidth && Someone(s.sta, Ht20)))
  {
    TallyPositive(s.sta, NoGreenfield);
    TallyPositive(s.sta, NoHt);
    TallyPositive(s.sta, Ht20);
  }

  /**
    A coexistence report: the station is counted as intolerant from now on if it says so;
    a mere request for narrow channels and reported channels are remembered for the BSS.
   */
  lemma ReportIsRemembered(env: Settings, s: Bss, i: nat, report: Report)
    requires i < |s.sta| && Inv(env, s)
    ensures var r := Coexist(s, i, report);
            && Inv(env, r) && r.erp == s.erp && r.op == s.op
            && Becomes(s, r, i, g => (0 <= i < |s.sta| && g in s.sta[i]) || (g == Intolerant40 && report.intolerant40))
            && (r.widthReq <==> s.widthReq || (report.widthReq && !report.intolerant40))
            && (r.chReported <==> s.chReported || report.channels)
  {
    PutKeeps(env, s, i, Intolerant40, true);
  }

  // ---------------------------------------------------------------------------
  // Two facts the beacon does not keep up with
  // ---------------------------------------------------------------------------

  /** The Barker preamble bit says whether some station has no short preamble. */
  predicate BarkerRight(s: Bss) {
    s.erp.barker == (s.num(NoShortPreamble) > 0)
  }

  /** The ERP element is rewritten: the count of non-ERP stations gets to 1 or back to 0. */
  predicate Rewritten(s: Bss, i: nat, nonErp: bool)
    requires i < |s.sta|
  {
    var t := Put(s, i, NonErp, nonErp);
    t.num(NonErp) != s.num(NonErp) && t.num(NonErp) == (if nonErp then 1 else 0)
  }

  /** Whether some station has no short preamble after one changes its mark. */
  predicate SomeLongAfter(s: Bss, i: nat, long: bool)
    requires i < |s.sta|
  {
    Put(s, i, NoShortPreamble, long).num(NoShortPreamble) > 0
  }

  /** Preamble and ERP: the bit is rewritten with the new count, or stays. */
  lemma BarkerAfterErp(env: Settings, s: Bss, i: nat, long: bool, nonErp: bool)
    requires i < |s.sta| && env.erpInfo && BarkerRight(s)
    ensures var r := PutErp(env, Put(s, i, NoShortPreamble, long), i, nonErp);
            && (r.num(NoShortPreamble) > 0 <==> SomeLongAfter(s, i, long))
            && (BarkerRight(r) <==>
                  Rewritten(s, i, nonErp) || SomeLongAfter(s, i, long) == (s.num(NoShortPreamble) > 0))
  {
    OnlyItsFlag(s, i, NoShortPreamble, long, NonErp);
    OnlyItsFlag(Put(s, i, NoShortPreamble, long), i, NonErp, nonErp, NoShortPreamble);
  }

  lemma OnlyItsFlag(s: Bss, i: nat, f: Flag, on: bool, g: Flag)
    requires i < |s.sta| && f != g
    ensures var r := Put(s, i, f, on);
            r.num(g) == s.num(g) && (g in r.sta[i] <==> g in s.sta[i]) && r.erp == s.erp
  {
  }

  /** What the bit depends on. */
  predicate SameBarker(s: Bss, r: Bss) {
    r.erp == s.erp && r.num(NoShortPreamble) == s.num(NoShortPreamble)
  }

  lemma JoinHtSameBarker(env: Settings, s: Bss, i: nat, cap: Capability)
    requires i < |s.sta|
    ensures SameBarker(s, JoinHt(env, s, i, cap))
  {
    var a := Lower(s, i, NoHt);
    var b := if cap.greenfield then a else Raise(a, i, NoGreenfield);
    assert SameBarker(s, b);
  }

  lemma LeaveHtSameBarker(s: Bss, i: nat)
    requires i < |s.sta|
    ensures SameBarker(s, LeaveHt(s, i))
  {
    var d := Lower(s, i, NoGreenfield);
    var e := Lower(d, i, NoHt);
    assert SameBarker(s, e);
  }

  /**
    After a join the bit is still right exactly if the element is rewritten, or
    there is some station without short preamble as there was before.
   */
  lemma BarkerAfterJoinExactly(env: Settings, s: Bss, i: nat, cap: Capability, olbc: bool)
    requires i < |s.sta| && env.erpInfo && BarkerRight(s)
    ensures BarkerRight(Join(env, s, i, cap, olbc)) <==>
              || Rewritten(s, i, cap.nonErp)
              || SomeLongAfter(s, i, !cap.shortPreamble) == (s.num(NoShortPreamble) > 0)
  {
    BarkerAfterErp(env, s, i, !cap.shortPreamble, cap.nonErp);
    var b := PutErp(env, Put(s, i, NoShortPreamble, !cap.shortPreamble), i, cap.nonErp);
    OnlyItsFlag(b, i, NoShortSlot, !cap.shortSlot, NoShortPreamble);
    JoinHtSameBarker(env, JoinBasic(env, s, i, cap), i, cap);
  }

  /** The same for a leave. */
  lemma BarkerAfterLeaveExactly(env: Settings, s: Bss, i: nat, olbc: bool)
    requires i < |s.sta| && env.erpInfo && BarkerRight(s)
    ensures BarkerRight(Leave(env, s, i, olbc)) <==>
              || Rewritten(s, i, false)
              || SomeLongAfter(s, i, false) == (s.num(NoShortPreamble) > 0)
  {
    BarkerAfterErp(env, s, i, false, false);
    var b := PutErp(env, Put(s, i, NoShortPreamble, false), i, false);
    OnlyItsFlag(b, i, NoShortSlot, false, NoShortPreamble);
    LeaveHtSameBarker(Lower(b, i, NoShortSlot), i);
  }

  /** A coexistence report leaves the bit as right or wrong as it was. */
  lemma BarkerAfterReport(s: Bss, i: nat, report: Report)
    requires i < |s.sta|
    ensures BarkerRight(Coexist(s, i, report)) <==> BarkerRight(s)
  {
  }

  /** A first join after which the bit is wrong. */
  lemma BarkerBitIsStale()
    ensures exists env: Settings, run: seq<Event> :: Events(1, run) && env.erpInfo
              && !BarkerRight(Run(env, 1, run))
  {
    var env := Settings(false, false, false, true, true);
    var cap := Capability(false, false, true, false, false, false, false);
    var run := [Joined(0, cap, false)];
    assert run[..0] == [] && Events(1, run);
    assert Run(env, 1, run) == Join(env, Start(1), 0, cap, false);
    BarkerAfterJoinExactly(env, Start(1), 0, cap, false);
  }

  /** A station that joins again as a 40 MHz one is still counted as a 20 MHz one. */
  lemma RejoinKeepsOldWidth(env: Settings, s: Bss, i: nat, cap: Capability, olbc: bool)
    requires i < |s.sta| && Inv(env, s) && env.htEnable && env.htOption && env.supWidth
    requires Ht20 in s.sta[i] && cap.ht && cap.supWidth
    ensures var r := Join(env, s, i, cap, olbc);
            Ht20 in r.sta[i] && (r.op.mode == Mixed || r.op.mode == Ht20Associated)
  {
    JoinKeepsHt20(env, s, i, cap, olbc);
    JoinEndsWithUpdate(env, s, i, cap, olbc);
    ModeWithNarrow(env, Join(env, s, i, cap, olbc), i, olbc);
  }

  lemma JoinKeepsHt20(env: Settings, s: Bss, i: nat, cap: Capability, olbc: bool)
    requires i < |s.sta| && Inv(env, s) && Ht20 in s.sta[i] && env.htEnable
    ensures Matches(Join(env, s, i, cap, olbc)) && Ht20 in Join(env, s, i, cap, olbc).sta[i]
  {
    JoinKeeps(env, s, i, cap, olbc);
    FlagAfterJoin(env, s, Join(env, s, i, cap, olbc), i, cap, Ht20);
  }

  lemma FlagAfterJoin(env: Settings, s: Bss, r: Bss, i: nat, cap: Capability, f: Flag)
    requires i < |s.sta| && Becomes(s, r, i, g => JoinFlag(env, g, i < |s.sta| && g in s.sta[i], cap))
    ensures f in r.sta[i] <==> JoinFlag(env, f, f in s.sta[i], cap)
  {
  }

  lemma JoinEndsWithUpdate(env: Settings, s: Bss, i: nat, cap: Capability, olbc: bool)
    requires i < |s.sta| && env.htEnable && env.htOption
    ensures var r := Join(env, s, i, cap, olbc); r.op.mode == NewMode(env, r.num, olbc)
  {
  }

  lemma ModeWithNarrow(env: Settings, r: Bss, i: nat, olbc: bool)
    requires i < |r.sta| && Matches(r) && Ht20 in r.sta[i]
    ensures env.supWidth ==> NewMode(env, r.num, olbc) in {Mixed, Ht20Associated}
  {
    TallyPositive(r.sta, Ht20);
  }
}
