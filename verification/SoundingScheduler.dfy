/** The sounding scheduler of transmit beamforming: single-user peers one by one, then all multi-user ones. */
module SoundingScheduler {

  const ENTRIES := 8
  const MAX_SU := 2
  const MAX_MU := 6

  /** A beamformee's abilities: multi-user, single-user VHT, explicit HT. */
  datatype Cap = Cap(mu: bool, su: bool, ht: bool)

  /** `beamformee_entry`; `added` tells whether the hardware has it. */
  datatype Bfee = Bfee(used: bool, added: bool, cap: Cap, apply: bool, suspended: bool, deleting: bool,
                       sounding: bool, timeout: bool, candidate: bool,
                       soundCnt: nat, period: nat, failCnt: nat)

  datatype State = Idle | Init | SuStart | SuDown | MuStart | MuDown | TimedOut

  /** What the scheduler does in a period, in order. */
  datatype Action = Su(i: nat) | Deleted(i: nat) | Mu(peers: seq<nat>)

  /** Sounding lists hold the used places only; `done` is what this period has done. */
  datatype Info = Info(bfee: seq<Bfee>, su: seq<nat>, mu: seq<nat>, muCnt: nat, cur: nat,
                       state: State, minPeriod: nat, running: int, waitCnt: nat, done: seq<Action>)

  predicate Listed(list: seq<nat>) {
    && (forall j :: 0 <= j < |list| ==> list[j] < ENTRIES)
    && (forall j, k :: 0 <= j < k < |list| ==> list[j] != list[k])
  }

  predicate Shape(s: Info) {
    && |s.bfee| == ENTRIES && s.minPeriod > 0
    && Listed(s.su) && Listed(s.mu)
    && (forall j, k :: 0 <= j < |s.su| && 0 <= k < |s.mu| ==> s.su[j] != s.mu[k])
    && s.muCnt <= |s.mu|
    && (s.state == SuStart ==> s.cur < ENTRIES)
  }

  // ---------------------------------------------------------------------------
  // A period's lists
  // ---------------------------------------------------------------------------

  /** `_sounding_reset_vars` on the entries. */
  function Reset(bfee: seq<Bfee>): (r: seq<Bfee>)
    ensures |r| == |bfee|
    ensures forall i :: 0 <= i < |r| ==>
              r[i] == if bfee[i].used && bfee[i].sounding
                      then bfee[i].(sounding := false, candidate := false) else bfee[i]
  {
    seq(|bfee|, i requires 0 <= i < |bfee| =>
      if bfee[i].used && bfee[i].sounding then bfee[i].(sounding := false, candidate := false) else bfee[i])
  }

  datatype Lists = Lists(bfee: seq<Bfee>, su: seq<nat>, mu: seq<nat>, notReady: nat)

  function InitSoundCnt(period: nat, minPeriod: nat): nat
    requires minPeriod > 0
  {
    period / minPeriod % 256
  }

  /** `_sounding_get_list` on one entry whose count has run down. */
  function ListDue(l: Lists, i: nat, minPeriod: nat): (r: Lists)
    requires i < |l.bfee| && minPeriod > 0
    ensures |r.bfee| == |l.bfee|
  {
    var e := l.bfee[i];
    var chosen := e.(candidate := true, soundCnt := InitSoundCnt(e.period, minPeriod));
    if e.cap.mu then
      if |l.mu| < MAX_MU && e.apply then l.(bfee := l.bfee[i := chosen], mu := l.mu + [i]) else l
    else if (e.cap.su || e.cap.ht) && |l.su| < MAX_SU then
      if e.deleting then l.(su := l.su + [i])
      else if e.apply && !e.suspended then l.(bfee := l.bfee[i := chosen], su := l.su + [i])
      else l
    else l
  }

  /** `_sounding_get_list` on one entry. */
  function ListOne(l: Lists, i: nat, minPeriod: nat): (r: Lists)
    requires i < |l.bfee| && minPeriod > 0
    ensures |r.bfee| == |l.bfee|
  {
    var e := l.bfee[i];
    if !e.used then l
    else if !e.added then l.(notReady := l.notReady + 1)
    else
      var cnt := if e.soundCnt > 0 then e.soundCnt - 1 else 0;
      var t := l.(bfee := l.bfee[i := e.(soundCnt := cnt)]);
      if cnt > 0 then t else ListDue(t, i, minPeriod)
  }

  function ListAll(bfee: seq<Bfee>, n: nat, minPeriod: nat): (l: Lists)
    requires n <= |bfee| && minPeriod > 0
    ensures |l.bfee| == |bfee|
  {
    if n == 0 then Lists(bfee, [], [], 0)
    else ListOne(ListAll(bfee, n - 1, minPeriod), n - 1, minPeriod)
  }

  /** One entry goes to at most one list, and keeps its progress flags. */
  lemma ListOneAdds(l: Lists, i: nat, minPeriod: nat)
    requires i < |l.bfee| && minPeriod > 0
    ensures var r := ListOne(l, i, minPeriod);
            && (r.su == l.su || (r.su == l.su + [i] && r.mu == l.mu && |l.su| < MAX_SU))
            && (r.mu == l.mu || (r.mu == l.mu + [i] && r.su == l.su && |l.mu| < MAX_MU))
            && (r.su != l.su || r.mu != l.mu ==> l.bfee[i].used)
            && (forall j :: 0 <= j < |l.bfee| && j != i ==> r.bfee[j] == l.bfee[j])
            && SameProgress(l.bfee[i], r.bfee[i])
  {
  }

  predicate SameProgress(a: Bfee, b: Bfee) {
    a.used == b.used && a.sounding == b.sounding && a.timeout == b.timeout
  }

  ghost predicate ListedBelow(bfee: seq<Bfee>, list: seq<nat>, n: nat) {
    && Listed(list)
    && forall j :: 0 <= j < |list| ==> list[j] < n && list[j] < |bfee| && bfee[list[j]].used
  }

  lemma ListedMore(bfee: seq<Bfee>, list: seq<nat>, n: nat)
    requires n < |bfee| == ENTRIES && ListedBelow(bfee, list, n)
    ensures ListedBelow(bfee, list, n + 1)
    ensures bfee[n].used ==> ListedBelow(bfee, list + [n], n + 1)
  {
  }

  /** What the first n entries have led to: disjoint lists within the limits. */
  ghost predicate ListsOk(bfee: seq<Bfee>, l: Lists, n: nat) {
    && |l.bfee| == |bfee| == ENTRIES
    && |l.su| <= 2 && |l.mu| <= 6
    && ListedBelow(bfee, l.su, n) && ListedBelow(bfee, l.mu, n)
    && (forall j, k :: 0 <= j < |l.su| && 0 <= k < |l.mu| ==> l.su[j] != l.mu[k])
    && (forall i :: 0 <= i < ENTRIES ==> SameProgress(bfee[i], l.bfee[i]))
    && (forall i :: n <= i < ENTRIES ==> l.bfee[i] == bfee[i])
  }

  lemma ListOneKeeps(bfee: seq<Bfee>, l: Lists, r: Lists, n: nat)
    requires n < ENTRIES && ListsOk(bfee, l, n) && |r.bfee| == ENTRIES
    requires r.su == l.su || (r.su == l.su + [n] && r.mu == l.mu && |l.su| < MAX_SU)
    requires r.mu == l.mu || (r.mu == l.mu + [n] && r.su == l.su && |l.mu| < MAX_MU)
    requires r.su != l.su || r.mu != l.mu ==> bfee[n].used
    requires forall j :: 0 <= j < ENTRIES && j != n ==> r.bfee[j] == l.bfee[j]
    requires SameProgress(l.bfee[n], r.bfee[n])
    ensures ListsOk(bfee, r, n + 1)
  {
    ListedMore(bfee, l.su, n);
    ListedMore(bfee, l.mu, n);
  }

  /** Peers are listed at most once, in one list only, and none beyond those seen. */
  lemma {:induction false} ListsAreDistinct(bfee: seq<Bfee>, n: nat, minPeriod: nat)
    requires n <= |bfee| == ENTRIES && minPeriod > 0
    ensures ListsOk(bfee, ListAll(bfee, n, minPeriod), n)
  {
    if n > 0 {
      ListsAreDistinct(bfee, n - 1, minPeriod);
      var l := ListAll(bfee, n - 1, minPeriod);
      ListOneAdds(l, n - 1, minPeriod);
      ListOneKeeps(bfee, l, ListOne(l, n - 1, minPeriod), n - 1);
    }
  }

  /**
    Who is listed: exactly the ready peers whose count has run down, that either
    want sounding or, as single-user ones, are to be deleted, up to the limits.
   */
  predicate Due(e: Bfee) {
    e.used && e.added && e.soundCnt <= 1
  }

  predicate WantsMu(e: Bfee) {
    Due(e) && e.cap.mu && e.apply
  }

  predicate WantsSu(e: Bfee) {
    Due(e) && !e.cap.mu && (e.cap.su || e.cap.ht) && (e.deleting || (e.apply && !e.suspended))
  }

  lemma {:induction false} SuListIsRight(bfee: seq<Bfee>, n: nat, minPeriod: nat)
    requires n <= |bfee| == ENTRIES && minPeriod > 0
    ensures var l := ListAll(bfee, n, minPeriod);
            && (forall i :: n <= i < ENTRIES ==> l.bfee[i] == bfee[i])
            && (forall i :: i in l.su ==> i < n && WantsSu(bfee[i]))
            && (|l.su| < MAX_SU ==> forall i :: 0 <= i < n && WantsSu(bfee[i]) ==> i in l.su)
  {
    if n > 0 {
      SuListIsRight(bfee, n - 1, minPeriod);
    }
  }

  lemma {:induction false} MuListIsRight(bfee: seq<Bfee>, n: nat, minPeriod: nat)
    requires n <= |bfee| == ENTRIES && minPeriod > 0
    ensures var l := ListAll(bfee, n, minPeriod);
            && (forall i :: n <= i < ENTRIES ==> l.bfee[i] == bfee[i])
            && (forall i :: i in l.mu ==> i < n && WantsMu(bfee[i]))
            && (|l.mu| < MAX_MU ==> forall i :: 0 <= i < n && WantsMu(bfee[i]) ==> i in l.mu)
  {
    if n > 0 {
      MuListIsRight(bfee, n - 1, minPeriod);
    }
  }

  /**
    Counts run down by one for each period begun.  A listed peer that wants sounding is
    due again after its own period, in units of the least one; a peer that is to be
    deleted, or was not wanted, stays due.
   */
  lemma {:induction false} CountsAre(bfee: seq<Bfee>, n: nat, minPeriod: nat, i: nat)
    requires i < n <= |bfee| == ENTRIES && minPeriod > 0
    ensures var l, e := ListAll(bfee, n, minPeriod), bfee[i];
            var cnt := if e.soundCnt > 1 then e.soundCnt - 1 else 0;
            l.bfee[i] ==
              (if !e.used || !e.added then e
               else if i in l.mu || (i in l.su && !e.deleting)
               then e.(candidate := true, soundCnt := e.period / minPeriod % 256)
               else e.(soundCnt := cnt))
  {
    SuListIsRight(bfee, n - 1, minPeriod);
    MuListIsRight(bfee, n - 1, minPeriod);
    var l := ListAll(bfee, n - 1, minPeriod);
    ListOneAdds(l, n - 1, minPeriod);
    if i < n - 1 {
      CountsAre(bfee, n - 1, minPeriod, i);
    }
  }

  // ---------------------------------------------------------------------------
  // The handlers
  // ---------------------------------------------------------------------------

  /** The first listed single-user peer that has not been sounded. */
  function FirstUnsounded(bfee: seq<Bfee>, su: seq<nat>): (k: nat)
    requires forall j :: 0 <= j < |su| ==> su[j] < |bfee|
    ensures k <= |su|
    ensures forall j :: 0 <= j < k ==> bfee[su[j]].sounding
    ensures k < |su| ==> !bfee[su[k]].sounding
  {
    if su == [] || !bfee[su[0]].sounding then 0 else 1 + FirstUnsounded(bfee, su[1..])
  }

  /** How many listed single-user peers have not been sounded: the handlers' measure. */
  function Left(bfee: seq<Bfee>, su: seq<nat>): nat
    requires forall j :: 0 <= j < |su| ==> su[j] < |bfee|
  {
    if su == [] then 0 else (if bfee[su[0]].sounding then 0 else 1) + Left(bfee, su[1..])
  }

  lemma {:induction false} LeftDrops(bfee: seq<Bfee>, su: seq<nat>, k: nat, e: Bfee)
    requires forall j :: 0 <= j < |su| ==> su[j] < |bfee|
    requires forall i, j :: 0 <= i < j < |su| ==> su[i] != su[j]
    requires k < |su| && !bfee[su[k]].sounding && e.sounding
    ensures Left(bfee[su[k] := e], su) == Left(bfee, su) - 1
  {
    if k > 0 {
      LeftDrops(bfee, su[1..], k - 1, e);
      assert bfee[su[k] := e][su[0]] == bfee[su[0]];
    } else {
      LeftSame(bfee, su[1..], su[0], e);
    }
  }

  lemma {:induction false} LeftSame(bfee: seq<Bfee>, su: seq<nat>, i: nat, e: Bfee)
    requires forall j :: 0 <= j < |su| ==> su[j] < |bfee|
    requires i < |bfee| && (i in su ==> e.sounding == bfee[i].sounding)
    ensures Left(bfee[i := e], su) == Left(bfee, su)
  {
    if su != [] {
      LeftSame(bfee, su[1..], i, e);
    }
  }

  /** Marks the candidates of the multi-user sounding. */
  function MarkMu(bfee: seq<Bfee>, mu: seq<nat>): (r: seq<Bfee>)
    requires forall j :: 0 <= j < |mu| ==> mu[j] < |bfee|
    ensures |r| == |bfee|
    ensures forall i :: 0 <= i < |r| ==> r[i] == bfee[i] || (i in mu && r[i] == bfee[i].(sounding := true))
  {
    seq(|bfee|, i requires 0 <= i < |bfee| => if i in mu then bfee[i].(sounding := true) else bfee[i])
  }

  /** The start of a period: reset, and list.  None when there is nothing to do now. */
  function Begin(s: Info, survey: bool): (r: (bool, Info))
    requires Shape(s) && s.state == Init
    ensures Shape(r.1) && r.1.state in {Init, Idle} && (r.0 ==> r.1.state == Init)
  {
    ListsAreDistinct(Reset(s.bfee), ENTRIES, s.minPeriod);
    var l := ListAll(Reset(s.bfee), ENTRIES, s.minPeriod);
    var t := s.(bfee := l.bfee, su := l.su, mu := l.mu, muCnt := |l.mu|, cur := 255, done := []);
    if l.su == [] && l.mu == [] then
      if l.notReady == 0 then (false, t.(waitCnt := 0, state := Idle, running := t.running - 1))
      else if t.waitCnt < 5 then (false, t.(waitCnt := t.waitCnt + 1, running := t.running - 1))
      else (false, t.(waitCnt := 0, state := Idle, running := t.running - 1))
    else if survey then (false, t.(waitCnt := 0, running := t.running - 1))
    else (true, t.(waitCnt := 0))
  }

  /** `_sounding_handler` from the choice of the next peer on. */
  function Next(s: Info): (r: Info)
    requires Shape(s)
    ensures Shape(r)
    decreases Left(s.bfee, s.su), 0
  {
    var k := FirstUnsounded(s.bfee, s.su);
    if k < |s.su| then
      var i := s.su[k];
      var e := s.bfee[i].(sounding := true, timeout := false);
      var t := s.(cur := i, state := SuStart, bfee := s.bfee[i := e]);
      LeftDrops(s.bfee, s.su, k, e);
      if e.deleting then Down(t.(done := t.done + [Deleted(i)]), false)
      else t.(done := t.done + [Su(i)])
    else if s.muCnt > 0 then
      s.(state := MuStart, bfee := MarkMu(s.bfee, s.mu[..s.muCnt]), muCnt := 0,
         done := s.done + [Mu(s.mu[..s.muCnt])])
    else s.(running := s.running - 1, state := Init)
  }

  /** The peer's record after its sounding; the count of failures has five bits. */
  function AfterDown(e: Bfee, status: bool): (r: Bfee)
    ensures r.sounding == e.sounding && r.timeout == e.timeout
  {
    if status then e.(failCnt := 0)
    else if e.deleting then e.(deleting := false)
    else e.(failCnt := (e.failCnt + 1) % 32)
  }

  /** `_beamforming_sounding_down`. */
  function Down(s: Info, status: bool): (r: Info)
    requires Shape(s)
    ensures Shape(r)
    decreases Left(s.bfee, s.su), 1
  {
    if s.state == MuStart then Next(s.(state := MuDown))
    else if s.state == SuStart then
      var e := s.bfee[s.cur];
      if e.timeout then s.(state := SuDown, bfee := s.bfee[s.cur := e.(timeout := false)])
      else
        var after := AfterDown(e, status);
        LeftSame(s.bfee, s.su, s.cur, after);
        Next(s.(state := SuDown, bfee := s.bfee[s.cur := after]))
    else s
  }

  /** `_sounding_handler`. */
  function Handler(s: Info, survey: bool): (r: Info)
    requires Shape(s)
    ensures Shape(r)
  {
    if s.state == Init then
      var (ok, t) := Begin(s, survey);
      if ok then Next(t) else t
    else if s.state in {SuDown, MuDown, TimedOut} then Next(s)
    else s
  }

  /** `_sounding_timeout_timer_handler`; the command it issues is a later event. */
  function Timeout(s: Info): (r: Info)
    requires Shape(s)
    ensures Shape(r)
  {
    if s.state == SuStart then
      s.(state := TimedOut, bfee := s.bfee[s.cur := s.bfee[s.cur].(timeout := true)])
    else if s.state == MuStart then s.(state := TimedOut)
    else s
  }

  /** `_sounding_timer_handler`, short of a forced stop. */
  function Tick(s: Info): (r: Info)
    requires Shape(s)
    ensures Shape(r)
  {
    if s.state != Idle && s.running == 0 then s.(state := Init, running := 1) else s
  }

  /** The traffic evaluation: which peers are worth sounding. */
  function Traffic(s: Info, worth: set<nat>): (r: Info)
    requires Shape(s)
    ensures Shape(r)
  {
    var bfee := seq(ENTRIES, i requires 0 <= i < ENTRIES => Judged(s.bfee[i], i in worth));
    if bfee == s.bfee || s.state != Idle then s.(bfee := bfee) else s.(bfee := bfee, state := Init)
  }

  function Judged(e: Bfee, worth: bool): (r: Bfee)
    ensures r.sounding == e.sounding && r.timeout == e.timeout
  {
    if !e.used || worth == e.apply then e
    else if worth then e.(apply := true, soundCnt := 0)
    else e.(apply := false, deleting := true, soundCnt := 0)
  }

  /**
    After a traffic evaluation a used peer is sounded exactly if it is worth it; one whose
    judgement has changed is due at once, and marked for deletion if it is not worth it
    any more; and an idle scheduler wakes up exactly for a change.
   */
  lemma TrafficIsJudged(s: Info, worth: set<nat>, i: nat)
    requires Shape(s) && i < ENTRIES
    ensures var r := Traffic(s, worth);
            && (s.bfee[i].used ==> (r.bfee[i].apply <==> i in worth))
            && (!s.bfee[i].used || s.bfee[i].apply == r.bfee[i].apply ==> r.bfee[i] == s.bfee[i])
            && (s.bfee[i].apply != r.bfee[i].apply ==>
                  r.bfee[i].soundCnt == 0 && (r.bfee[i].deleting <==> s.bfee[i].deleting || i !in worth))
            && (r.state != s.state <==> s.state == Idle && r.bfee != s.bfee)
            && (r.state == s.state || r.state == Init)
            && r == s.(bfee := r.bfee, state := r.state)
  {
    var r := Traffic(s, worth);
    assert r.bfee[i] == Judged(s.bfee[i], i in worth);
  }
}
