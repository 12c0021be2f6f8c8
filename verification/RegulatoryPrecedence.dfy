/** Which regulatory setting is in force: country elements of access points, the user, or the default. */
module RegulatoryPrecedence {

  import opened Basics

  type Plan = p: int | 0 <= p < 256

  datatype Alpha2 = Alpha2(first: char, second: char)

  const WORLD := Alpha2('0', '0')
  const UNSPEC := Alpha2('9', '9')
  const NO_ALPHA2 := Alpha2('\0', '\0')
  /** The element's code for no country. */
  const NONCOUNTRY := Alpha2('X', 'X')
  const WORLD_PLAN: Plan := 0x7F
  const PLAN_UNSPECIFIED: Plan := 0xFF

  predicate IsAlpha(c: char) {
    'a' <= c <= 'z' || 'A' <= c <= 'Z'
  }

  predicate Letters(a: Alpha2) {
    IsAlpha(a.first) && IsAlpha(a.second)
  }

  /** `enum rtw_edcca_mode`; as an override, `Default` refers to the plan's regulation. */
  datatype Mode = Normal | Adapt | CarrierSense | Default

  /** `enum rtw_regd`. */
  datatype Regulation =
    NoRegulation | Fcc | Mkk | Etsi | Ic | Kcc | Ncc | Acma | Chile | Mexico | WorldWide

  /** `_rtw_regd_to_edcca_mode`. */
  function ModeOf(r: Regulation): (m: Mode)
    ensures m.Default? <==> r.NoRegulation?
  {
    match r
    case NoRegulation => Default
    case Mkk => CarrierSense
    case Etsi | WorldWide => Adapt
    case _ => Normal
  }

  /** The EDCCA modes of both bands, the power limit and the protocols of a country. */
  datatype Overrides = Overrides(mode2g: Mode, mode5g: Mode, limit: int, protocols: int)

  const TXPWR_LMT_DEF := 15
  const WORLD_OVERRIDES := Overrides(Default, Default, TXPWR_LMT_DEF, 3)
  const UNSPEC_OVERRIDES := Overrides(Default, Default, TXPWR_LMT_DEF, 0xFF)

  /** `country_chplan`. */
  datatype Entry = Entry(alpha2: Alpha2, plan: Plan, overrides: Overrides)

  /** An entry of zeros. */
  const NO_ENTRY := Entry(NO_ALPHA2, 0, Overrides(Normal, Normal, 0, 0))
  const WORLD_ENTRY := Entry(WORLD, WORLD_PLAN, WORLD_OVERRIDES)

  /** The regulatory database: any tables of countries and of plans. */
  datatype Database = Database(
    country: Alpha2 -> Option<Entry>,
    valid: Plan -> bool,
    regd2g: Plan -> Regulation,
    regd5g: Plan -> Regulation)

  /** `rtw_country_chplan_get_edcca_modes`. */
  function Modes(db: Database, e: Entry): (m: (Mode, Mode))
    ensures m == (Default, Default) <==>
              e.overrides.mode2g.Default? && e.overrides.mode5g.Default?
              && db.regd2g(e.plan).NoRegulation? && db.regd5g(e.plan).NoRegulation?
  {
    (if !e.overrides.mode2g.Default? then e.overrides.mode2g else ModeOf(db.regd2g(e.plan)),
     if !e.overrides.mode5g.Default? then e.overrides.mode5g else ModeOf(db.regd5g(e.plan)))
  }

  /** The world-wide entry with the modes computed for a country. */
  function WorldWith(db: Database, e: Entry): Entry {
    var (mode2g, mode5g) := Modes(db, e);
    WORLD_ENTRY.(overrides := WORLD_OVERRIDES.(mode2g := mode2g, mode5g := mode5g))
  }

  /** Only letters name countries, their plans are valid plans, and the stored code finds the same entry. */
  ghost predicate Consistent(db: Database) {
    && db.valid(WORLD_PLAN)
    && forall a: Alpha2 :: db.country(a).Some? ==>
         var e := db.country(a).value;
         Letters(a) && Letters(e.alpha2) && db.valid(e.plan) && e.plan != PLAN_UNSPECIFIED
         && db.country(e.alpha2) == Some(e)
  }

  /** Every country that an element can name has a mode of its own in some band. */
  ghost predicate Regulated(db: Database) {
    forall a: Alpha2 :: db.country(a).Some? && a != NONCOUNTRY ==>
      Modes(db, db.country(a).value) != (Default, Default)
  }

  // ---------------------------------------------------------------------------
  // Country element records
  // ---------------------------------------------------------------------------

  datatype Status = NoCountry | Unknown | NoChannel | Applicable

  /** `country_ie_slave_record`. */
  datatype Record = Record(alpha2: Alpha2, band: int, opch: int, status: Status, entry: Entry)

  /** `rtw_get_cisr_from_recv_country_ie`; `onAir` tells whether a plan has the operating channel. */
  function MakeRecord(db: Database, band: int, opch: int, code: Option<Alpha2>, onAir: Plan -> bool): Record {
    match code
    case None => Record(NO_ALPHA2, band, opch, NoCountry, NO_ENTRY)
    case Some(a) =>
      if a == NONCOUNTRY then Record(a, band, opch, NoCountry, NO_ENTRY)
      else match db.country(a)
        case None => Record(a, band, opch, Unknown, WORLD_ENTRY)
        case Some(e) =>
          if !onAir(e.plan) then Record(a, band, opch, NoChannel, WorldWith(db, e))
          else Record(a, band, opch, Applicable, e)
  }

  const NO_RECORD := Record(NO_ALPHA2, 0, 0, NoCountry, NO_ENTRY)

  /** What every record made from an element satisfies. */
  predicate RecordOk(db: Database, r: Record) {
    match r.status
    case NoCountry => r.entry == NO_ENTRY
    case Unknown => db.country(r.alpha2).None? && r.entry == WORLD_ENTRY
    case NoChannel =>
      && r.alpha2 != NONCOUNTRY && db.country(r.alpha2).Some?
      && r.entry == WorldWith(db, db.country(r.alpha2).value)
    case Applicable =>
      && db.country(r.alpha2) == Some(r.entry)
      && Letters(r.entry.alpha2) && db.country(r.entry.alpha2) == Some(r.entry)
  }

  lemma MadeRecordsAreOk(db: Database, band: int, opch: int, code: Option<Alpha2>, onAir: Plan -> bool)
    requires Consistent(db)
    ensures RecordOk(db, MakeRecord(db, band, opch, code, onAir))
  {
  }

  /** The record keeps what was received, and its status says how the country and its plan fared. */
  lemma MadeStatusExactly(db: Database, band: int, opch: int, code: Option<Alpha2>, onAir: Plan -> bool)
    ensures var r := MakeRecord(db, band, opch, code, onAir);
            && r.band == band && r.opch == opch
            && r.alpha2 == (if code.Some? then code.value else Alpha2('\0', '\0'))
            && (r.status == NoCountry <==> code.None? || code.value == Alpha2('X', 'X'))
            && (r.status == Unknown <==> r.status != NoCountry && db.country(r.alpha2).None?)
            && (r.status == Applicable <==>
                  r.status != NoCountry && db.country(r.alpha2).Some? && onAir(db.country(r.alpha2).value.plan))
            && (r.status == NoChannel <==>
                  r.status != NoCountry && db.country(r.alpha2).Some? && !onAir(db.country(r.alpha2).value.plan))
  {
  }

  /** Conservative: an unknown country counts most. */
  function Score(status: Status): nat {
    match status
    case NoCountry => 0
    case Unknown => 3
    case NoChannel => 2
    case Applicable => 1
  }

  /** Whether a record has the status and country of the one in effect so far. */
  predicate SameCountry(was: Option<Record>, r: Record) {
    was.Some? && was.value.status == r.status && was.value.alpha2 == r.alpha2
  }

  /** The comparison of the selection loop. */
  predicate Replaces(was: Option<Record>, best: Record, r: Record) {
    || Score(r.status) > Score(best.status)
    || (Score(r.status) == Score(best.status)
        && was.Some?
        && was.value.status == best.status
        && was.value.alpha2 != best.alpha2
        && was.value.alpha2 == r.alpha2)
  }

  /** The selection loop over the first n records. */
  function Choose(recs: seq<Record>, was: Option<Record>, n: nat): (best: Option<nat>)
    requires n <= |recs|
    ensures best.Some? ==> best.value < n && recs[best.value].status != NoCountry
  {
    if n == 0 then None
    else
      var best := Choose(recs, was, n - 1);
      if recs[n - 1].status == NoCountry then best
      else if best.None? || Replaces(was, recs[best.value], recs[n - 1]) then Some(n - 1)
      else best
  }

  predicate Better(was: Option<Record>, a: Record, b: Record) {
    || Score(a.status) > Score(b.status)
    || (Score(a.status) == Score(b.status) && SameCountry(was, a) && !SameCountry(was, b))
  }

  /**
    The chosen record is the first of the best ones: highest score, and among
    those the country in effect so far.
   */
  lemma {:induction false} ChooseIsFirstBest(recs: seq<Record>, was: Option<Record>, n: nat)
    requires n <= |recs|
    ensures var best := Choose(recs, was, n);
            && (best.None? <==> forall j :: 0 <= j < n ==> recs[j].status == NoCountry)
            && (best.Some? ==>
                 && (forall j :: 0 <= j < n && recs[j].status != NoCountry ==>
                       !Better(was, recs[j], recs[best.value]))
                 && (forall j :: 0 <= j < best.value && recs[j].status != NoCountry ==>
                       Better(was, recs[best.value], recs[j])))
  {
    if n > 0 {
      ChooseIsFirstBest(recs, was, n - 1);
    }
  }

  // ---------------------------------------------------------------------------
  // Requests
  // ---------------------------------------------------------------------------

  datatype Setting = Setting(alpha2: Alpha2, plan: Plan)

  datatype Initiator = ByInit | ByUser | ByCountryIe

  /** The regulatory part of `rf_ctl_t`; `user.alpha2` starts with NUL while the user has set nothing. */
  datatype Rf = Rf(init: Setting, user: Setting, cisr: seq<Record>, effected: Option<nat>,
                   now: Setting, overrides: Overrides, inr: Initiator)

  /** `SetChannelPlan_param`. */
  datatype Param = Param(inr: Initiator, plan: Plan, entry: Option<Entry>, cisr: Record, iface: nat)

  /** `rtw_cisr_compare` gives no difference in the entry. */
  predicate SameEntry(a: Record, b: Record) {
    a.entry == b.entry
  }

  /** The setting that holds without any country element: the user's, or else the initial one. */
  function Restored(s: Rf): (Initiator, Setting) {
    if s.user.alpha2.first != '\0' then (ByUser, s.user) else (ByInit, s.init)
  }

  function RestoreParam(db: Database, s: Rf, p: Param): Param {
    var (inr, setting) := Restored(s);
    if setting.alpha2 == UNSPEC || setting.alpha2 == WORLD then
      p.(inr := inr, plan := setting.plan, entry := None)
    else match db.country(setting.alpha2)
      case Some(e) => p.(inr := inr, plan := e.plan, entry := Some(e))
      case None => p.(inr := inr, plan := WORLD_PLAN, entry := Some(WORLD_ENTRY))
  }

  /** `rtw_chplan_rtk_priv_req_prehdl_country_ie`: the request, and whether it takes effect. */
  function PrehdlCountryIe(db: Database, s: Rf, p: Param): (r: (Rf, Param, bool))
    requires p.iface < |s.cisr|
    requires s.effected.Some? ==> s.effected.value < |s.cisr|
  {
    if p.inr == ByUser && s.effected.Some? then (s, p, false)
    else if p.inr != ByCountryIe then (s, p, true)
    else
      var before := s.cisr[p.iface];
      if before == p.cisr then (s, p, false)
      else
        var was := if s.effected.Some? then Some(s.cisr[s.effected.value]) else None;
        var t := s.(cisr := s.cisr[p.iface := p.cisr]);
        if SameEntry(before, p.cisr) then (t, p, false)
        else
          var best := Choose(t.cisr, was, |t.cisr|);
          var u := t.(effected := best);
          if best.Some? && was.Some? && u.cisr[best.value] == was.value then (u, p, false)
          else if best.None? then (u, RestoreParam(db, u, p), true)
          else
            var e := u.cisr[best.value].entry;
            (u, p.(plan := e.plan, entry := Some(e)), true)
  }

  /** `rtw_chplan_rtk_priv_req_prehdl_domain_code`: None for an invalid plan. */
  function PrehdlDomainCode(db: Database, s: Rf, p: Param): Option<Param> {
    if p.plan == PLAN_UNSPECIFIED then Some(p.(plan := s.now.plan))
    else if !db.valid(p.plan) then None
    else Some(p)
  }

  /** `rtw_chplan_rtk_priv_req_prehdl_country_ent`. */
  function EntryOf(p: Param): Entry {
    match p.entry
    case Some(e) => e
    case None =>
      if p.plan == WORLD_PLAN then WORLD_ENTRY else Entry(UNSPEC, 0, UNSPEC_OVERRIDES)
  }

  /** `rtw_set_chplan_hdl` for a request of the driver's own regulatory source. */
  function SetChplan(db: Database, s: Rf, p: Param): (r: (bool, Rf))
    requires p.iface < |s.cisr|
    requires s.effected.Some? ==> s.effected.value < |s.cisr|
  {
    var (t, q, effected) := PrehdlCountryIe(db, s, p);
    match PrehdlDomainCode(db, t, q)
    case None => (false, t)
    case Some(q) =>
      var setting := Setting(EntryOf(q).alpha2, q.plan);
      var u := if q.inr == ByUser then t.(user := setting) else t;
      (true,
       if effected then u.(now := setting, overrides := EntryOf(q).overrides, inr := q.inr) else u)
  }

  /** A user's request fails exactly for an invalid plan, and then, as every failed one, sets nothing. */
  lemma FailsExactly(db: Database, s: Rf, p: Param)
    requires p.iface < |s.cisr|
    requires s.effected.Some? ==> s.effected.value < |s.cisr|
    ensures p.inr == ByUser ==> (SetChplan(db, s, p).0 <==> p.plan == 0xFF || db.valid(p.plan))
    ensures p.inr == ByUser && !SetChplan(db, s, p).0 ==> SetChplan(db, s, p).1 == s
    ensures var (ok, r) := SetChplan(db, s, p);
            !ok ==> r.now == s.now && r.overrides == s.overrides && r.inr == s.inr && r.user == s.user
  {
  }

  datatype Request =
    | UserPlan(plan: Plan)
    | UserCountry(code: Alpha2)
    | CountryIe(iface: nat, band: int, opch: int, element: Option<Alpha2>, onAir: Plan -> bool)

  /** The commands that issue requests; None when the command itself fails. */
  function Issue(db: Database, req: Request): (p: Option<Param>)
    ensures p.Some? && p.value.inr == ByCountryIe ==> req.CountryIe? && p.value.iface == req.iface
    ensures p.Some? && p.value.inr != ByCountryIe ==> p.value.iface == 0
  {
    match req
    case UserPlan(plan) => Some(Param(ByUser, plan, None, NO_RECORD, 0))
    case UserCountry(code) =>
      if code == WORLD then Some(Param(ByUser, WORLD_PLAN, Some(WORLD_ENTRY), NO_RECORD, 0))
      else if !Letters(code) then None
      else (match db.country(code)
            case None => None
            case Some(e) => Some(Param(ByUser, e.plan, Some(e), NO_RECORD, 0)))
    case CountryIe(iface, band, opch, element, onAir) =>
      Some(Param(ByCountryIe, PLAN_UNSPECIFIED, None, MakeRecord(db, band, opch, element, onAir), iface))
  }

  // ---------------------------------------------------------------------------
  // What every run keeps
  // ---------------------------------------------------------------------------

  /** A setting that restoring brings back as it is. */
  predicate SettingOk(db: Database, s: Setting) {
    && db.valid(s.plan) && s.plan != PLAN_UNSPECIFIED && s.alpha2.first != '\0'
    && if s.alpha2 == WORLD || s.alpha2 == UNSPEC then s.alpha2 == (if s.plan == WORLD_PLAN then WORLD else UNSPEC)
       else db.country(s.alpha2).Some? && db.country(s.alpha2).value.alpha2 == s.alpha2
            && db.country(s.alpha2).value.plan == s.plan
  }

  /** What ought to be in force. */
  function Rightful(s: Rf): Setting
    requires s.effected.Some? ==> s.effected.value < |s.cisr|
  {
    if s.effected.Some? then
      var e := s.cisr[s.effected.value].entry; Setting(e.alpha2, e.plan)
    else Restored(s).1
  }

  ghost predicate Records(db: Database, recs: seq<Record>) {
    forall j :: 0 <= j < |recs| ==> RecordOk(db, recs[j])
  }

  /** Some access point's country is unknown, or lacks the channel it works on. */
  ghost predicate SomeDoubt(recs: seq<Record>) {
    exists j :: 0 <= j < |recs| && recs[j].status in {Unknown, NoChannel}
  }

  ghost predicate Inv(db: Database, s: Rf) {
    && |s.cisr| > 0
    && Records(db, s.cisr)
    && (s.effected.Some? ==> s.effected.value < |s.cisr| && s.cisr[s.effected.value].status != NoCountry)
    && (s.effected.None? ==> forall j :: 0 <= j < |s.cisr| ==> s.cisr[j].status == NoCountry)
    && (s.effected.Some? && SomeDoubt(s.cisr) ==> s.cisr[s.effected.value].status != Applicable)
    && SettingOk(db, s.init)
    && (s.user.alpha2.first != '\0' ==> SettingOk(db, s.user))
    && s.now == Rightful(s)
  }

  function Start(init: Setting, overrides: Overrides, ifaces: nat): Rf {
    Rf(init, Setting(NO_ALPHA2, 0), seq(ifaces, _ => NO_RECORD), None, init, overrides, ByInit)
  }

  lemma StartIsFine(db: Database, init: Setting, overrides: Overrides, ifaces: nat)
    requires ifaces > 0 && SettingOk(db, init)
    ensures Inv(db, Start(init, overrides, ifaces))
  {
  }

  /** The setting in force is itself a setting that can be recorded. */
  lemma NowIsValid(db: Database, s: Rf)
    requires Consistent(db) && Inv(db, s)
    ensures db.valid(s.now.plan) && s.now.plan != PLAN_UNSPECIFIED
  {
  }

  lemma UserKeeps(db: Database, s: Rf, p: Param)
    requires Consistent(db) && Inv(db, s) && p.inr == ByUser && p.iface < |s.cisr|
    requires match p.entry
             case None => true
             case Some(e) => p.plan == e.plan && (e == WORLD_ENTRY || db.country(e.alpha2) == Some(e))
    ensures Inv(db, SetChplan(db, s, p).1)
  {
    NowIsValid(db, s);
  }

  /** The part of a country element request that reselects. */
  lemma ReselectKeeps(db: Database, s: Rf, was: Option<Record>)
    requires Records(db, s.cisr)
    ensures var best := Choose(s.cisr, was, |s.cisr|);
            && (best.None? ==> forall j :: 0 <= j < |s.cisr| ==> s.cisr[j].status == NoCountry)
            && (best.Some? && SomeDoubt(s.cisr) ==> s.cisr[best.value].status != Applicable)
  {
    ChooseIsFirstBest(s.cisr, was, |s.cisr|);
    var best := Choose(s.cisr, was, |s.cisr|);
    if best.Some? && SomeDoubt(s.cisr) {
      var j :| 0 <= j < |s.cisr| && s.cisr[j].status in {Unknown, NoChannel};
      assert !Better(was, s.cisr[j], s.cisr[best.value]);
    }
  }

  /** Records with the same entry are alike in what matters here. */
  lemma SameEntryAlike(db: Database, a: Record, b: Record)
    requires Consistent(db) && RecordOk(db, a) && RecordOk(db, b) && SameEntry(a, b)
    ensures a.status == NoCountry <==> b.status == NoCountry
    ensures a.status == Applicable <==> b.status == Applicable
    ensures Regulated(db) ==> a.status == b.status
  {
  }

  /** A record that changes without changing its entry: nothing is chosen again. */
  lemma UpdateAlikeKeeps(db: Database, s: Rf, i: nat, r: Record)
    requires Consistent(db) && Inv(db, s) && i < |s.cisr|
    requires RecordOk(db, r) && SameEntry(s.cisr[i], r)
    ensures Inv(db, s.(cisr := s.cisr[i := r]))
  {
    var t := s.(cisr := s.cisr[i := r]);
    SameEntryAlike(db, s.cisr[i], r);
    if t.effected.Some? && SomeDoubt(t.cisr) {
      var j :| 0 <= j < |t.cisr| && t.cisr[j].status in {Unknown, NoChannel};
      assert s.cisr[j].status in {Unknown, NoChannel};
    }
  }

  lemma RestoreIsRightful(db: Database, s: Rf, p: Param)
    requires Consistent(db) && s.effected.None?
    requires SettingOk(db, s.init) && (s.user.alpha2.first != '\0' ==> SettingOk(db, s.user))
    ensures var q := RestoreParam(db, s, p);
            && db.valid(q.plan) && q.plan != PLAN_UNSPECIFIED
            && Setting(EntryOf(q).alpha2, q.plan) == Rightful(s)
            && (q.inr == ByUser ==> s.user == Rightful(s))
  {
  }

  /** A record whose entry changes: the choice, and then its setting or the restored one. */
  lemma ReselectSettles(db: Database, s: Rf, p: Param)
    requires Consistent(db) && Inv(db, s) && p.inr == ByCountryIe && p.iface < |s.cisr|
    requires RecordOk(db, p.cisr) && p.plan == PLAN_UNSPECIFIED && p.entry.None?
    requires !SameEntry(s.cisr[p.iface], p.cisr)
    ensures SetChplan(db, s, p).0 && Inv(db, SetChplan(db, s, p).1)
  {
    NowIsValid(db, s);
    var t := s.(cisr := s.cisr[p.iface := p.cisr]);
    var was := if s.effected.Some? then Some(s.cisr[s.effected.value]) else None;
    ReselectKeeps(db, t, was);
    var u := t.(effected := Choose(t.cisr, was, |t.cisr|));
    if u.effected.None? {
      RestoreIsRightful(db, u, p);
    } else {
      assert RecordOk(db, u.cisr[u.effected.value]);
    }
  }

  lemma ElementKeeps(db: Database, s: Rf, p: Param)
    requires Consistent(db) && Inv(db, s) && p.inr == ByCountryIe && p.iface < |s.cisr|
    requires RecordOk(db, p.cisr) && p.plan == PLAN_UNSPECIFIED && p.entry.None?
    ensures SetChplan(db, s, p).0 && Inv(db, SetChplan(db, s, p).1)
  {
    if !SameEntry(s.cisr[p.iface], p.cisr) {
      ReselectSettles(db, s, p);
    } else {
      NowIsValid(db, s);
      UpdateAlikeKeeps(db, s, p.iface, p.cisr);
    }
  }

  predicate Shaped(s: Rf) {
    |s.cisr| > 0 && (s.effected.Some? ==> s.effected.value < |s.cisr|)
  }

  predicate Fits(ifaces: nat, req: Request) {
    req.CountryIe? ==> req.iface < ifaces
  }

  /** One request; a command that fails changes nothing. */
  function Handle(db: Database, s: Rf, req: Request): (r: Rf)
    requires Shaped(s) && Fits(|s.cisr|, req)
    ensures Shaped(r) && |r.cisr| == |s.cisr|
  {
    match Issue(db, req)
    case None => s
    case Some(p) => SetChplan(db, s, p).1
  }

  lemma HandleKeeps(db: Database, s: Rf, req: Request)
    requires Consistent(db) && Inv(db, s) && Fits(|s.cisr|, req)
    ensures Inv(db, Handle(db, s, req))
  {
    match Issue(db, req) {
      case None =>
      case Some(p) =>
        if req.CountryIe? {
          MadeRecordsAreOk(db, req.band, req.opch, req.element, req.onAir);
          ElementKeeps(db, s, p);
        } else {
          UserKeeps(db, s, p);
        }
    }
  }

  ghost predicate AllFit(ifaces: nat, reqs: seq<Request>) {
    forall k :: 0 <= k < |reqs| ==> Fits(ifaces, reqs[k])
  }

  /** The state after a run of requests. */
  function Run(db: Database, s: Rf, reqs: seq<Request>): (r: Rf)
    requires Shaped(s) && AllFit(|s.cisr|, reqs)
    ensures Shaped(r) && |r.cisr| == |s.cisr|
  {
    if reqs == [] then s
    else
      var before := reqs[..|reqs| - 1];
      assert AllFit(|s.cisr|, before);
      Handle(db, Run(db, s, before), reqs[|reqs| - 1])
  }

  lemma {:induction false} RunKeeps(db: Database, s: Rf, reqs: seq<Request>)
    requires Consistent(db) && Inv(db, s) && AllFit(|s.cisr|, reqs)
    ensures Inv(db, Run(db, s, reqs))
  {
    if reqs != [] {
      var before := reqs[..|reqs| - 1];
      assert AllFit(|s.cisr|, before);
      RunKeeps(db, s, before);
      HandleKeeps(db, Run(db, s, before), reqs[|reqs| - 1]);
    }
  }

  /**
    After every run of user requests and received country elements: a record is in
    effect exactly when some record has a country; the setting in force is that
    record's, or else the recorded user setting, or else the initial one; and
    while any access point's country is unknown or lacks its channel, the
    world-wide plan is in force.
   */
  lemma PrecedenceHolds(db: Database, init: Setting, overrides: Overrides, ifaces: nat, reqs: seq<Request>)
    requires Consistent(db) && SettingOk(db, init) && ifaces > 0 && AllFit(ifaces, reqs)
    ensures var s := Run(db, Start(init, overrides, ifaces), reqs);
            && (s.effected.None? <==> forall j :: 0 <= j < |s.cisr| ==> s.cisr[j].status == NoCountry)
            && s.now == Rightful(s)
            && (SomeDoubt(s.cisr) ==> s.now == Setting(WORLD, WORLD_PLAN))
  {
    StartIsFine(db, init, overrides, ifaces);
    RunKeeps(db, Start(init, overrides, ifaces), reqs);
    var s := Run(db, Start(init, overrides, ifaces), reqs);
    if s.effected.Some? {
      assert RecordOk(db, s.cisr[s.effected.value]);
    }
  }

  // ---------------------------------------------------------------------------
  // The overrides and the initiator in force
  // ---------------------------------------------------------------------------

  /** What a recorded setting brings with it: its country's overrides, or those of no country. */
  function OverridesFor(db: Database, setting: Setting): Overrides {
    if setting.alpha2 == UNSPEC then Overrides(Default, Default, 15, 0xFF)
    else if setting.alpha2 == WORLD || db.country(setting.alpha2).None? then Overrides(Default, Default, 15, 3)
    else db.country(setting.alpha2).value.overrides
  }

  /** In force are the overrides of the record in effect, or else those of the recorded setting, and its initiator. */
  ghost predicate InForce(db: Database, s: Rf)
    requires Shaped(s)
  {
    if s.effected.Some? then
      s.overrides == s.cisr[s.effected.value].entry.overrides && s.inr == ByCountryIe
    else
      s.overrides == OverridesFor(db, Restored(s).1) && s.inr == Restored(s).0
  }

  lemma UserInForce(db: Database, s: Rf, p: Param)
    requires Consistent(db) && Inv(db, s) && InForce(db, s) && p.inr == ByUser && p.iface < |s.cisr|
    requires match p.entry
             case None => true
             case Some(e) => p.plan == e.plan && (e == WORLD_ENTRY || db.country(e.alpha2) == Some(e))
    ensures Shaped(SetChplan(db, s, p).1) && InForce(db, SetChplan(db, s, p).1)
  {
    NowIsValid(db, s);
  }

  lemma ElementInForce(db: Database, s: Rf, p: Param)
    requires Consistent(db) && Inv(db, s) && InForce(db, s) && p.inr == ByCountryIe && p.iface < |s.cisr|
    requires RecordOk(db, p.cisr) && p.plan == PLAN_UNSPECIFIED && p.entry.None?
    ensures Shaped(SetChplan(db, s, p).1) && InForce(db, SetChplan(db, s, p).1)
  {
    NowIsValid(db, s);
    if SameEntry(s.cisr[p.iface], p.cisr) {
      UpdateOnly(db, s, p);
    } else {
      ReselectInForce(db, s, p);
    }
  }

  lemma ReselectInForce(db: Database, s: Rf, p: Param)
    requires Consistent(db) && Inv(db, s) && InForce(db, s) && p.inr == ByCountryIe && p.iface < |s.cisr|
    requires RecordOk(db, p.cisr) && p.plan == PLAN_UNSPECIFIED && p.entry.None?
    requires !SameEntry(s.cisr[p.iface], p.cisr)
    ensures Shaped(SetChplan(db, s, p).1) && InForce(db, SetChplan(db, s, p).1)
  {
    var was := InEffect(s);
    var t := s.(cisr := s.cisr[p.iface := p.cisr]);
    var u := t.(effected := Choose(t.cisr, was, |t.cisr|));
    if u.effected.None? {
      RestoreIsRightful(db, u, p);
      RestoredOverrides(db, u, p);
    } else {
      assert RecordOk(db, u.cisr[u.effected.value]);
    }
  }

  lemma RestoredOverrides(db: Database, s: Rf, p: Param)
    requires Consistent(db) && s.effected.None?
    requires SettingOk(db, s.init) && (s.user.alpha2.first != '\0' ==> SettingOk(db, s.user))
    ensures EntryOf(RestoreParam(db, s, p)).overrides == OverridesFor(db, Restored(s).1)
    ensures RestoreParam(db, s, p).inr == Restored(s).0
  {
  }

  lemma HandleInForce(db: Database, s: Rf, req: Request)
    requires Consistent(db) && Inv(db, s) && InForce(db, s) && Fits(|s.cisr|, req)
    ensures InForce(db, Handle(db, s, req))
  {
    match Issue(db, req) {
      case None =>
      case Some(p) =>
        if req.CountryIe? {
          MadeRecordsAreOk(db, req.band, req.opch, req.element, req.onAir);
          ElementInForce(db, s, p);
        } else {
          UserInForce(db, s, p);
        }
    }
  }

  /** After every run the overrides and the initiator in force belong to the setting in force. */
  lemma {:induction false} OverridesFollow(db: Database, init: Setting, ifaces: nat, reqs: seq<Request>)
    requires Consistent(db) && SettingOk(db, init) && ifaces > 0 && AllFit(ifaces, reqs)
    ensures InForce(db, Run(db, Start(init, OverridesFor(db, init), ifaces), reqs))
  {
    if reqs != [] {
      var before := reqs[..|reqs| - 1];
      var s0 := Start(init, OverridesFor(db, init), ifaces);
      assert AllFit(ifaces, before);
      OverridesFollow(db, init, ifaces, before);
      StartIsFine(db, init, OverridesFor(db, init), ifaces);
      RunKeeps(db, s0, before);
      HandleInForce(db, Run(db, s0, before), reqs[|reqs| - 1]);
    }
  }

  /** A user request is recorded whether or not a country element is in effect. */
  lemma UserSettingIsRecorded(db: Database, s: Rf, plan: Plan)
    requires Consistent(db) && Inv(db, s) && db.valid(plan) && plan != PLAN_UNSPECIFIED
    ensures var r := Handle(db, s, UserPlan(plan));
            && r.user == Setting(if plan == WORLD_PLAN then WORLD else UNSPEC, plan)
            && r.now == (if s.effected.Some? then s.now else r.user)
            && r.cisr == s.cisr && r.effected == s.effected
  {
  }

  /** So is a country, as its table entry has it. */
  lemma UserCountryIsRecorded(db: Database, s: Rf, code: Alpha2)
    requires Consistent(db) && Inv(db, s) && Letters(code) && db.country(code).Some?
    ensures var r, e := Handle(db, s, UserCountry(code)), db.country(code).value;
            && r.user == Setting(e.alpha2, e.plan)
            && r.now == (if s.effected.Some? then s.now else r.user)
            && r.cisr == s.cisr && r.effected == s.effected
  {
  }

  /**
    Why the database must be consistent.  A request that selects again puts the
    chosen record in effect before its plan is looked at, so afterwards the setting
    in force is the chosen record's exactly if that record's plan is valid.
   */
  lemma ReselectIsRightfulExactly(db: Database, s: Rf, p: Param, best: Option<nat>)
    requires Shaped(s) && s.now == Rightful(s) && db.valid(s.now.plan) && s.now.plan != PLAN_UNSPECIFIED
    requires p.inr == ByCountryIe && p.iface < |s.cisr| && p.plan == PLAN_UNSPECIFIED && p.entry.None?
    requires !SameEntry(s.cisr[p.iface], p.cisr)
    requires best == Choose(s.cisr[p.iface := p.cisr], InEffect(s), |s.cisr|) && best.Some?
    ensures var (ok, r) := SetChplan(db, s, p);
            var plan := r.cisr[best.value].entry.plan;
            && r.effected == best && Shaped(r)
            && (r.now == Rightful(r) <==> db.valid(plan) && plan != PLAN_UNSPECIFIED)
            && (!ok ==> r.now == s.now)
  {
  }

  /** The record in effect, if any. */
  function InEffect(s: Rf): Option<Record>
    requires s.effected.Some? ==> s.effected.value < |s.cisr|
  {
    if s.effected.Some? then Some(s.cisr[s.effected.value]) else None
  }

  /** The record in effect has the highest score of all. */
  ghost predicate Highest(s: Rf)
    requires Shaped(s)
  {
    s.effected.Some? ==>
      forall j :: 0 <= j < |s.cisr| ==> Score(s.cisr[j].status) <= Score(s.cisr[s.effected.value].status)
  }

  /**
    Records are only compared again when an entry changes.  So the record in
    effect keeps the highest score exactly if the entry changed, or the new status
    of another interface scores no more than it, or its own new status scores no
    less than the others.
   */
  lemma ChoiceStaysHighestExactly(db: Database, s: Rf, p: Param)
    requires Consistent(db) && Inv(db, s) && Highest(s)
    requires p.inr == ByCountryIe && p.iface < |s.cisr| && RecordOk(db, p.cisr)
    requires p.plan == PLAN_UNSPECIFIED && p.entry.None?
    ensures var r := SetChplan(db, s, p).1;
            && Shaped(r)
            && (Highest(r) <==>
                 || !SameEntry(s.cisr[p.iface], p.cisr)
                 || s.effected.None?
                 || (p.iface != s.effected.value
                     && Score(p.cisr.status) <= Score(s.cisr[s.effected.value].status))
                 || (p.iface == s.effected.value
                     && forall j :: 0 <= j < |s.cisr| && j != p.iface ==>
                          Score(s.cisr[j].status) <= Score(p.cisr.status)))
  {
    var t := s.(cisr := s.cisr[p.iface := p.cisr]);
    if !SameEntry(s.cisr[p.iface], p.cisr) {
      ChosenIsHighest(t.cisr, InEffect(s));
      ReselectChooses(db, s, p);
    } else {
      UpdateOnly(db, s, p);
      if s.effected.Some? {
        UpdatedHighest(s, p.iface, p.cisr);
      }
    }
  }

  lemma ChosenIsHighest(recs: seq<Record>, was: Option<Record>)
    ensures var best := Choose(recs, was, |recs|);
            best.Some? ==> forall j :: 0 <= j < |recs| ==> Score(recs[j].status) <= Score(recs[best.value].status)
  {
    ChooseIsFirstBest(recs, was, |recs|);
    var best := Choose(recs, was, |recs|);
    if best.Some? {
      forall j | 0 <= j < |recs| ensures Score(recs[j].status) <= Score(recs[best.value].status) {
        if recs[j].status != NoCountry {
          assert !Better(was, recs[j], recs[best.value]);
        }
      }
    }
  }

  lemma ReselectChooses(db: Database, s: Rf, p: Param)
    requires Shaped(s) && p.inr == ByCountryIe && p.iface < |s.cisr| && !SameEntry(s.cisr[p.iface], p.cisr)
    ensures var r := SetChplan(db, s, p).1;
            && r.cisr == s.cisr[p.iface := p.cisr]
            && r.effected == Choose(r.cisr, InEffect(s), |r.cisr|)
  {
  }

  lemma UpdateOnly(db: Database, s: Rf, p: Param)
    requires Shaped(s) && p.inr == ByCountryIe && p.iface < |s.cisr| && SameEntry(s.cisr[p.iface], p.cisr)
    ensures var r := SetChplan(db, s, p).1;
            r.cisr == s.cisr[p.iface := p.cisr] && r.effected == s.effected
  {
  }

  lemma UpdatedHighest(s: Rf, i: nat, rec: Record)
    requires Shaped(s) && Highest(s) && s.effected.Some? && i < |s.cisr|
    ensures Highest(s.(cisr := s.cisr[i := rec])) <==>
              || (i != s.effected.value && Score(rec.status) <= Score(s.cisr[s.effected.value].status))
              || (i == s.effected.value && forall j :: 0 <= j < |s.cisr| && j != i ==>
                                             Score(s.cisr[j].status) <= Score(rec.status))
  {
    var t := s.(cisr := s.cisr[i := rec]);
    if Highest(t) {
      assert forall j :: 0 <= j < |s.cisr| && j != i ==> t.cisr[j] == s.cisr[j];
      assert Score(t.cisr[i].status) <= Score(t.cisr[s.effected.value].status);
    }
  }

  /** One request keeps the highest score in effect. */
  lemma HandleKeepsHighest(db: Database, s: Rf, req: Request)
    requires Consistent(db) && Regulated(db) && Inv(db, s) && Highest(s) && Fits(|s.cisr|, req)
    ensures Highest(Handle(db, s, req))
  {
    if req.CountryIe? {
      MadeRecordsAreOk(db, req.band, req.opch, req.element, req.onAir);
      var p := Issue(db, req).value;
      ChoiceStaysHighestExactly(db, s, p);
      if SameEntry(s.cisr[p.iface], p.cisr) {
        SameEntryAlike(db, s.cisr[p.iface], p.cisr);
      }
    }
  }

  /** After every run the record in effect has the highest score, if every country has a mode of its own. */
  lemma {:induction false} RunKeepsHighest(db: Database, s: Rf, reqs: seq<Request>)
    requires Consistent(db) && Regulated(db) && Inv(db, s) && Highest(s) && AllFit(|s.cisr|, reqs)
    ensures Highest(Run(db, s, reqs))
  {
    if reqs != [] {
      var before := reqs[..|reqs| - 1];
      assert AllFit(|s.cisr|, before);
      RunKeeps(db, s, before);
      RunKeepsHighest(db, s, before);
      HandleKeepsHighest(db, Run(db, s, before), reqs[|reqs| - 1]);
    }
  }

  /**
    After every run the record in effect has the highest score, exactly if there is
    only one interface, or every country that an element can name has a regulation
    in some band or an override of its own.
   */
  lemma ChoiceIsHighestExactly(db: Database, init: Setting, overrides: Overrides, ifaces: nat)
    requires Consistent(db) && SettingOk(db, init) && ifaces > 0
    ensures (forall reqs :: AllFit(ifaces, reqs) ==> Highest(Run(db, Start(init, overrides, ifaces), reqs)))
        <==> ifaces == 1 || Regulated(db)
  {
    var s := Start(init, overrides, ifaces);
    if Regulated(db) {
      StartIsFine(db, init, overrides, ifaces);
      forall reqs | AllFit(ifaces, reqs) ensures Highest(Run(db, s, reqs)) {
        RunKeepsHighest(db, s, reqs);
      }
    } else if ifaces > 1 {
      var a: Alpha2 :| db.country(a).Some? && a != NONCOUNTRY && Modes(db, db.country(a).value) == (Default, Default);
      var reqs := UnregulatedRun(db, init, overrides, ifaces, a);
      assert AllFit(ifaces, reqs) && !Highest(Run(db, s, reqs));
    }
  }

  /**
    For a database with a country without any regulation: two access points work on
    a channel that this country lacks, and then the second one's country becomes
    unknown.  Its record has the same entry, so nothing is chosen again.
   */
  lemma UnregulatedRun(db: Database, init: Setting, overrides: Overrides, ifaces: nat, a: Alpha2)
    returns (reqs: seq<Request>)
    requires Consistent(db) && SettingOk(db, init) && ifaces > 1
    requires db.country(a).Some? && a != NONCOUNTRY && Modes(db, db.country(a).value) == (Default, Default)
    ensures AllFit(ifaces, reqs) && !Highest(Run(db, Start(init, overrides, ifaces), reqs))
  {
    var off := (p: Plan) => false;
    var first, second := CountryIe(0, 0, 36, Some(a), off), CountryIe(1, 0, 36, Some(a), off);
    var third := CountryIe(1, 0, 36, Some(Alpha2('1', '1')), off);
    reqs := [first, second, third];
    RunOfThree(db, Start(init, overrides, ifaces), first, second, third);
    UnknownIsNotChosen(db, Start(init, overrides, ifaces), MakeRecord(db, 0, 36, Some(a), off),
                       MakeRecord(db, 0, 36, Some(Alpha2('1', '1')), off));
  }

  /** A request for the record of an interface. */
  function For(iface: nat, r: Record): Param {
    Param(ByCountryIe, PLAN_UNSPECIFIED, None, r, iface)
  }

  lemma UnknownIsNotChosen(db: Database, s: Rf, r: Record, unknown: Record)
    requires |s.cisr| > 1 && s.effected.None? && forall j :: 0 <= j < |s.cisr| ==> s.cisr[j] == NO_RECORD
    requires r.status == NoChannel && unknown.status == Unknown && r.entry == unknown.entry == WORLD_ENTRY
    ensures var s1 := SetChplan(db, s, For(0, r)).1;
            Shaped(s1) && |s1.cisr| == |s.cisr|
            && var s2 := SetChplan(db, s1, For(1, r)).1;
               Shaped(s2) && |s2.cisr| == |s.cisr|
               && var s3 := SetChplan(db, s2, For(1, unknown)).1;
                  Shaped(s3) && !Highest(s3)
  {
    FirstTakesEffect(db, s, r);
    var s1 := SetChplan(db, s, For(0, r)).1;
    SecondChangesNothing(db, s1, r);
    var s2 := SetChplan(db, s1, For(1, r)).1;
    UpdateOnly(db, s2, For(1, unknown));
    var s3 := SetChplan(db, s2, For(1, unknown)).1;
    assert s3.cisr[0] == r && s3.cisr[1] == unknown;
  }

  lemma FirstTakesEffect(db: Database, s: Rf, r: Record)
    requires |s.cisr| > 1 && s.effected.None? && forall j :: 0 <= j < |s.cisr| ==> s.cisr[j] == NO_RECORD
    requires r.status == NoChannel && r.entry != NO_ENTRY
    ensures var u := SetChplan(db, s, For(0, r)).1;
            u.cisr == s.cisr[0 := r] && u.effected == Some(0)
  {
    FirstStays(s.cisr[0 := r], None, |s.cisr|);
    ReselectChooses(db, s, For(0, r));
  }

  lemma SecondChangesNothing(db: Database, s: Rf, r: Record)
    requires |s.cisr| > 1 && s.effected == Some(0) && s.cisr[0] == r
    requires forall j :: 1 <= j < |s.cisr| ==> s.cisr[j] == NO_RECORD
    requires r.status == NoChannel && r.entry != NO_ENTRY
    ensures var u := SetChplan(db, s, For(1, r)).1;
            u.cisr == s.cisr[1 := r] && u.effected == Some(0)
  {
    FirstStays(s.cisr[1 := r], Some(r), |s.cisr|);
    ReselectChooses(db, s, For(1, r));
  }

  /** The first record is chosen as long as no later one replaces it. */
  lemma {:induction false} FirstStays(recs: seq<Record>, was: Option<Record>, n: nat)
    requires 0 < n <= |recs| && recs[0].status != NoCountry
    requires forall j :: 0 < j < n ==> recs[j].status == NoCountry || !Replaces(was, recs[0], recs[j])
    ensures Choose(recs, was, n) == Some(0)
  {
    if n > 1 {
      FirstStays(recs, was, n - 1);
    } else {
      assert Choose(recs, was, 0) == None;
    }
  }

  lemma RunOfThree(db: Database, s: Rf, a: Request, b: Request, c: Request)
    requires Shaped(s) && AllFit(|s.cisr|, [a, b, c])
    ensures var f := [a, b, c];
            && Fits(|s.cisr|, f[0]) && Fits(|s.cisr|, f[1]) && Fits(|s.cisr|, f[2])
            && Run(db, s, f) == Handle(db, Handle(db, Handle(db, s, a), b), c)
  {
    var f := [a, b, c];
    assert Fits(|s.cisr|, f[0]) && Fits(|s.cisr|, f[1]) && Fits(|s.cisr|, f[2]);
    assert f[..2] == [a, b] && f[..2][..1] == [a] && [a][..0] == [];
    assert AllFit(|s.cisr|, [a, b]) && AllFit(|s.cisr|, [a]);
    assert Run(db, s, []) == s;
    assert Run(db, s, [a]) == Handle(db, s, a);
    assert Run(db, s, [a, b]) == Handle(db, Run(db, s, [a]), b);
  }

  // ---------------------------------------------------------------------------
  // The shipped tables
  // ---------------------------------------------------------------------------

  /** The 2.4 GHz regulation of a plan in the plan map. */
  function ShippedRegd2g(p: Plan): Regulation {
    if p >= 0x80 || p == 0x0A || 0x0D <= p <= 0x1A || 0x1D <= p <= 0x1F then NoRegulation
    else if p in {0x4F, 0x5A, 0x5B, 0x5C, 0x6F, 0x70, 0x71, 0x72} then NoRegulation
    else if p in {0x20, 0x2E, 0x41, 0x7F} then WorldWide
    else if p in {0x23, 0x27, 0x2C, 0x37, 0x38, 0x58, 0x5F, 0x64, 0x79, 0x7D, 0x7E} then Mkk
    else if p in {0x03, 0x3B, 0x45} then Acma
    else if p in {0x1C, 0x28, 0x3E, 0x4B} then Kcc
    else if p in {0x39, 0x40, 0x44, 0x53} then Ncc
    else if p in {0x2B, 0x4A} then Ic
    else if p in {0x2D, 0x2F} then Chile
    else if p == 0x4D then Mexico
    else if p in {0x0C, 0x1B, 0x22, 0x25, 0x29, 0x2A, 0x30, 0x31, 0x32, 0x33, 0x34, 0x3F, 0x43, 0x46, 0x4C,
                  0x55, 0x57, 0x60, 0x61, 0x62, 0x66, 0x67, 0x68, 0x69, 0x6B, 0x6C, 0x6D, 0x6E, 0x73, 0x74,
                  0x76, 0x78} then Fcc
    else Etsi
  }

  /** The plans of the countries in the driver's own table and in the table of certified modules. */
  predicate CountryPlan(p: Plan) {
    || p in {0x00, 0x03, 0x04, 0x05, 0x06, 0x07, 0x08, 0x09, 0x0B}
    || p in {0x20, 0x21, 0x26, 0x27, 0x28, 0x2A, 0x2B, 0x2D, 0x30, 0x32, 0x34, 0x35, 0x36, 0x39, 0x3A, 0x3C, 0x3D}
    || p in {0x42, 0x44, 0x45, 0x47, 0x48, 0x49, 0x4B, 0x4D, 0x51, 0x59, 0x5D, 0x5E}
    || p in {0x61, 0x62, 0x63, 0x73, 0x74, 0x75, 0x76, 0x7D}
  }

  ghost predicate Shipped(db: Database) {
    && (forall a: Alpha2 :: db.country(a).Some? ==> CountryPlan(db.country(a).value.plan))
    && (forall p: Plan :: db.regd2g(p) == ShippedRegd2g(p))
  }

  /** Every country of the shipped tables has a regulation at 2.4 GHz. */
  lemma ShippedIsRegulated(db: Database)
    requires Shipped(db)
    ensures Regulated(db)
  {
    forall a: Alpha2 | db.country(a).Some? && a != NONCOUNTRY
      ensures Modes(db, db.country(a).value) != (Default, Default)
    {
      CountryPlansAreRegulated(db.country(a).value.plan);
    }
  }

  /**
    With the shipped tables a country without an override of its own has its regulation's
    mode at 2.4 GHz: carrier sense in Japan, adaptivity in Europe, none in America.
   */
  lemma ShippedModes(db: Database, e: Entry)
    requires Shipped(db) && e.overrides.mode2g.Default?
    ensures e.plan == 0x7D ==> Modes(db, e).0 == CarrierSense
    ensures e.plan == 0x5E ==> Modes(db, e).0 == Adapt
    ensures e.plan == 0x76 ==> Modes(db, e).0 == Normal
    ensures e.plan == 0x7F ==> Modes(db, e).0 == Adapt
  {
  }

  lemma CountryPlansAreRegulated(p: Plan)
    requires CountryPlan(p)
    ensures !ShippedRegd2g(p).NoRegulation?
  {
  }

  /** With the shipped tables the record in effect has the highest score after every run. */
  lemma ShippedChoiceIsHighest(db: Database, init: Setting, overrides: Overrides, ifaces: nat, reqs: seq<Request>)
    requires Consistent(db) && Shipped(db) && SettingOk(db, init) && ifaces > 0 && AllFit(ifaces, reqs)
    ensures Highest(Run(db, Start(init, overrides, ifaces), reqs))
  {
    ShippedIsRegulated(db);
    StartIsFine(db, init, overrides, ifaces);
    RunKeepsHighest(db, Start(init, overrides, ifaces), reqs);
  }
}
