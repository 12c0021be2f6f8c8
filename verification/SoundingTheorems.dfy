/** What every run of the sounding scheduler keeps. */
module SoundingTheorems {

  import opened SoundingScheduler

  predicate Single(a: Action) {
    a.Su? || a.Deleted?
  }

  predicate Active(s: Info) {
    s.state in {SuStart, SuDown, MuStart, MuDown, TimedOut}
  }

  ghost predicate Had(done: seq<Action>, i: nat) {
    exists j :: 0 <= j < |done| && Single(done[j]) && done[j].i == i
  }

  predicate EndsMu(done: seq<Action>) {
    done != [] && done[|done| - 1].Mu?
  }

  /** Each single-user peer at most once; the multi-user sounding at most once, after all of them. */
  ghost predicate Ordered(done: seq<Action>, su: seq<nat>, mu: seq<nat>) {
    && (forall j, k :: 0 <= j < k < |done| && Single(done[j]) && Single(done[k]) ==> done[j].i != done[k].i)
    && (forall j :: 0 <= j < |done| && Single(done[j]) ==> done[j].i in su)
    && (forall j :: 0 <= j < |done| && done[j].Mu? ==> j == |done| - 1 && done[j].peers == mu)
    && (EndsMu(done) ==> forall i :: i in su ==> Had(done, i))
  }

  /** During a period, the marks of the entries and the remaining count tell what is done. */
  ghost predicate Tracks(s: Info)
    requires Shape(s)
  {
    && (forall i :: i in s.su ==> (s.bfee[i].sounding <==> Had(s.done, i)))
    && s.muCnt == (if EndsMu(s.done) then 0 else |s.mu|)
    && (EndsMu(s.done) ==> s.mu != [])
    && (s.state in {MuStart, MuDown} ==> EndsMu(s.done))
    && (s.state == SuStart ==> s.cur in s.su && Had(s.done, s.cur) && !s.bfee[s.cur].timeout)
  }

  ghost predicate Inv(s: Info) {
    && Shape(s) && Ordered(s.done, s.su, s.mu)
    && (Active(s) ==> Tracks(s))
  }

  /** Every listed peer has had its turn. */
  ghost predicate Complete(s: Info) {
    && (forall i :: i in s.su ==> Had(s.done, i))
    && (s.mu != [] ==> EndsMu(s.done))
  }

  lemma HadMore(done: seq<Action>, a: Action)
    ensures forall i: nat :: Had(done + [a], i) <==> Had(done, i) || (Single(a) && a.i == i)
  {
    var more := done + [a];
    forall i: nat ensures Had(more, i) <==> Had(done, i) || (Single(a) && a.i == i) {
      if Had(done, i) {
        var j :| 0 <= j < |done| && Single(done[j]) && done[j].i == i;
        assert more[j] == done[j];
      }
      if Single(a) && a.i == i {
        assert more[|done|] == a;
      }
    }
  }

  lemma OrderedMore(done: seq<Action>, su: seq<nat>, mu: seq<nat>, a: Action)
    requires Ordered(done, su, mu) && !EndsMu(done)
    requires Single(a) ==> a.i in su && !Had(done, a.i)
    requires a.Mu? ==> a.peers == mu && forall i :: i in su ==> Had(done, i)
    ensures Ordered(done + [a], su, mu) && EndsMu(done + [a]) == a.Mu?
  {
    HadMore(done, a);
    var more := done + [a];
    assert forall j :: 0 <= j < |done| ==> !done[j].Mu? && more[j] == done[j];
  }

  /** Setting out for the k-th peer. */
  function Towards(s: Info, k: nat): (t: Info)
    requires Shape(s) && k < |s.su|
    ensures Shape(t)
  {
    var i := s.su[k];
    var e := s.bfee[i].(sounding := true, timeout := false);
    var t := s.(cur := i, state := SuStart, bfee := s.bfee[i := e]);
    t.(done := t.done + [if e.deleting then Deleted(i) else Su(i)])
  }

  lemma TowardsKeeps(s: Info, k: nat)
    requires Inv(s) && Tracks(s) && k < |s.su| && !s.bfee[s.su[k]].sounding
    ensures Inv(Towards(s, k)) && Active(Towards(s, k))
    ensures Left(Towards(s, k).bfee, s.su) == Left(s.bfee, s.su) - 1
  {
    var t, i := Towards(s, k), s.su[k];
    var a := t.done[|s.done|];
    assert i in s.su && !Had(s.done, i);
    OrderedMore(s.done, s.su, s.mu, a);
    HadMore(s.done, a);
    LeftDrops(s.bfee, s.su, k, t.bfee[i]);
  }

  /** The multi-user sounding. */
  lemma MuKeeps(s: Info)
    requires Inv(s) && Tracks(s) && s.muCnt > 0
    requires forall j :: 0 <= j < |s.su| ==> s.bfee[s.su[j]].sounding
    ensures Inv(s.(state := MuStart, bfee := MarkMu(s.bfee, s.mu[..s.muCnt]), muCnt := 0,
                   done := s.done + [Mu(s.mu[..s.muCnt])]))
  {
    var a := Mu(s.mu[..s.muCnt]);
    assert s.mu[..s.muCnt] == s.mu;
    OrderedMore(s.done, s.su, s.mu, a);
    HadMore(s.done, a);
    forall i | i in s.su ensures MarkMu(s.bfee, s.mu)[i] == s.bfee[i] {
      assert i !in s.mu;
    }
  }

  lemma {:induction false} NextKeeps(s: Info)
    requires Inv(s) && Tracks(s)
    ensures var r := Next(s);
            && Inv(r) && r.su == s.su && r.mu == s.mu && r.state in {SuStart, MuStart, Init}
            && (r.state == Init ==> Complete(r))
            && s.done <= r.done && |r.done| <= |s.done| + Left(s.bfee, s.su) + 1
    decreases Left(s.bfee, s.su), 0
  {
    var k := FirstUnsounded(s.bfee, s.su);
    if k < |s.su| {
      TowardsKeeps(s, k);
      var t := Towards(s, k);
      if t.bfee[t.cur].deleting {
        DownKeeps(t, false);
      }
    } else if s.muCnt > 0 {
      MuKeeps(s);
    }
  }

  /** The state in which a sounding has ended. */
  function Ended(s: Info, status: bool): (t: Info)
    requires Shape(s) && s.state in {SuStart, MuStart}
    ensures Shape(t) && t.su == s.su && t.mu == s.mu && t.done == s.done
  {
    if s.state == MuStart then s.(state := MuDown)
    else s.(state := SuDown, bfee := s.bfee[s.cur := AfterDown(s.bfee[s.cur], status)])
  }

  lemma EndedKeeps(s: Info, status: bool)
    requires Inv(s) && s.state in {SuStart, MuStart}
    ensures Inv(Ended(s, status)) && Tracks(Ended(s, status))
    ensures Left(Ended(s, status).bfee, s.su) == Left(s.bfee, s.su)
    ensures Down(s, status) == Next(Ended(s, status))
  {
    if s.state == SuStart {
      LeftSame(s.bfee, s.su, s.cur, AfterDown(s.bfee[s.cur], status));
    }
  }

  lemma {:induction false} DownKeeps(s: Info, status: bool)
    requires Inv(s) && s.state in {SuStart, MuStart}
    ensures var r := Down(s, status);
            && Inv(r) && r.su == s.su && r.mu == s.mu && r.state in {SuStart, MuStart, Init}
            && (r.state == Init ==> Complete(r))
            && s.done <= r.done && |r.done| <= |s.done| + Left(s.bfee, s.su) + 1
    decreases Left(s.bfee, s.su), 1
  {
    EndedKeeps(s, status);
    NextKeeps(Ended(s, status));
  }

  lemma BeginKeeps(s: Info, survey: bool)
    requires Inv(s) && s.state == Init
    ensures var (ok, t) := Begin(s, survey);
            Inv(t) && Tracks(t) && t.done == []
  {
    var bfee := Reset(s.bfee);
    ListsAreDistinct(bfee, ENTRIES, s.minPeriod);
    var t := Begin(s, survey).1;
    forall i | i in t.su ensures !t.bfee[i].sounding {
      assert SameProgress(bfee[i], t.bfee[i]);
      assert bfee[i].used;
    }
  }

  // ---------------------------------------------------------------------------
  // What one call does
  // ---------------------------------------------------------------------------

  /** Sounded now, in full: marked, not timed out, and no longer to be deleted. */
  predicate Struck(was: Bfee, e: Bfee) {
    was.deleting && e == was.(sounding := true, timeout := false, deleting := false)
  }

  /** The listed peers before the k-th that had not been sounded were to be deleted, and are. */
  ghost predicate StruckBefore(su: seq<nat>, was: seq<Bfee>, now: seq<Bfee>, k: nat)
    requires k <= |su| && |was| == |now| && forall j :: 0 <= j < |su| ==> su[j] < |was|
  {
    forall j :: 0 <= j < k ==>
      if was[su[j]].sounding then now[su[j]] == was[su[j]] else Struck(was[su[j]], now[su[j]])
  }

  /** Every unsounded listed peer was to be deleted, and is; m multi-user peers are marked. */
  ghost predicate AllStruck(s: Info, r: Info, m: nat)
    requires Shape(s) && Shape(r) && r.su == s.su && m <= |s.mu|
  {
    && StruckBefore(s.su, s.bfee, r.bfee, |s.su|)
    && forall i :: i in s.mu ==>
         r.bfee[i] == if i in s.mu[..m] then s.bfee[i].(sounding := true) else s.bfee[i]
  }

  /** The k-th peer is being sounded, and only those to be deleted were passed over. */
  ghost predicate PicksAt(s: Info, r: Info, k: nat)
    requires Shape(s) && Shape(r) && r.su == s.su && k < |s.su|
  {
    var i := s.su[k];
    && r.cur == i && r.done != [] && r.done[|r.done| - 1] == Su(i)
    && StruckBefore(s.su, s.bfee, r.bfee, k)
    && !s.bfee[i].sounding && !s.bfee[i].deleting && r.bfee[i] == s.bfee[i].(sounding := true, timeout := false)
    && (forall j :: k < j < |s.su| ==> r.bfee[s.su[j]] == s.bfee[s.su[j]])
    && (forall m :: m in s.mu ==> r.bfee[m] == s.bfee[m])
  }

  /**
    The choice of the next peer: those to be deleted are struck on the way to the first
    one to be sounded; without such a one the multi-user candidates are sounded
    together; without these either the period ends and the scheduler can start again.
   */
  ghost predicate Picks(s: Info, r: Info)
    requires Shape(s) && Shape(r)
  {
    && r.su == s.su && r.mu == s.mu
    && (forall i :: 0 <= i < ENTRIES && i !in s.su && i !in s.mu ==> r.bfee[i] == s.bfee[i])
    && match r.state
       case SuStart =>
         && (exists k :: 0 <= k < |s.su| && PicksAt(s, r, k))
         && r.muCnt == s.muCnt && r.running == s.running
       case MuStart =>
         && AllStruck(s, r, s.muCnt) && s.muCnt > 0 == r.muCnt && r.running == s.running
         && r.done != [] && r.done[|r.done| - 1] == Mu(s.mu[..s.muCnt])
       case Init => AllStruck(s, r, 0) && s.muCnt == 0 == r.muCnt && r.running == s.running - 1
       case _ => false
  }

  /** The first unsounded peer has been struck. */
  ghost predicate StrikesFirst(s: Info, k: nat, u: Info)
    requires Shape(s) && Shape(u)
  {
    && k < |s.su| && u.su == s.su && u.mu == s.mu && u.muCnt == s.muCnt && u.running == s.running
    && (forall j :: 0 <= j < k ==> s.bfee[s.su[j]].sounding)
    && !s.bfee[s.su[k]].sounding && Struck(s.bfee[s.su[k]], u.bfee[s.su[k]])
    && (forall i :: 0 <= i < ENTRIES && i != s.su[k] ==> u.bfee[i] == s.bfee[i])
  }

  lemma StrikeOne(s: Info, k: nat)
    requires Shape(s) && k == FirstUnsounded(s.bfee, s.su) < |s.su| && s.bfee[s.su[k]].deleting
    ensures var u := Ended(Towards(s, k), false);
            StrikesFirst(s, k, u) && Next(s) == Next(u) && Left(u.bfee, u.su) == Left(s.bfee, s.su) - 1
  {
    var t := Towards(s, k);
    LeftDrops(s.bfee, s.su, k, t.bfee[s.su[k]]);
    LeftSame(t.bfee, s.su, t.cur, AfterDown(t.bfee[t.cur], false));
  }

  lemma StruckOnwards(s: Info, k: nat, u: Info, now: seq<Bfee>, l: nat)
    requires Shape(s) && Shape(u) && StrikesFirst(s, k, u) && k < l <= |s.su| && |now| == ENTRIES
    requires StruckBefore(u.su, u.bfee, now, l)
    ensures StruckBefore(s.su, s.bfee, now, l)
  {
    assert forall j :: 0 <= j < |s.su| && j != k ==> u.bfee[s.su[j]] == s.bfee[s.su[j]];
  }

  lemma PicksAtOnwards(s: Info, k: nat, u: Info, r: Info, l: nat)
    requires Shape(s) && Shape(u) && Shape(r) && StrikesFirst(s, k, u) && r.su == s.su && l < |s.su|
    requires PicksAt(u, r, l)
    ensures PicksAt(s, r, l)
  {
    assert l > k;
    StruckOnwards(s, k, u, r.bfee, l);
    assert forall j :: 0 <= j < |s.su| && j != k ==> s.su[j] != s.su[k];
    assert forall m :: m in s.mu ==> m != s.su[k];
  }

  /** Striking the first unsounded peer, then picking, is picking. */
  lemma PicksOnwards(s: Info, k: nat, u: Info, r: Info)
    requires Shape(s) && Shape(u) && Shape(r) && StrikesFirst(s, k, u) && Picks(u, r)
    ensures Picks(s, r)
  {
    if r.state == SuStart {
      var l :| 0 <= l < |u.su| && PicksAt(u, r, l);
      PicksAtOnwards(s, k, u, r, l);
    } else {
      StruckOnwards(s, k, u, r.bfee, |s.su|);
      assert forall m :: m in s.mu ==> m != s.su[k];
    }
  }

  /** Every choice, however many peers are deleted on the way. */
  lemma {:induction false} NextPicks(s: Info)
    requires Shape(s)
    ensures Picks(s, Next(s))
    decreases Left(s.bfee, s.su)
  {
    var k := FirstUnsounded(s.bfee, s.su);
    if k == |s.su| {
      PicksLast(s);
    } else if s.bfee[s.su[k]].deleting {
      var u := Ended(Towards(s, k), false);
      StrikeOne(s, k);
      NextPicks(u);
      PicksOnwards(s, k, u, Next(u));
    } else {
      assert PicksAt(s, Next(s), k);
    }
  }

  lemma PicksLast(s: Info)
    requires Shape(s) && FirstUnsounded(s.bfee, s.su) == |s.su|
    ensures Picks(s, Next(s))
  {
    assert forall i, j :: 0 <= i < |s.su| && 0 <= j < |s.mu| ==> s.su[i] != s.mu[j];
  }

  /** The record of a peer whose sounding ends: a failure is counted, unless it was to be deleted. */
  predicate Reported(was: Bfee, e: Bfee, success: bool) {
    && e == was.(failCnt := e.failCnt, deleting := e.deleting)
    && (success ==> e.failCnt == 0 && e.deleting == was.deleting)
    && (!success && was.deleting ==> e.failCnt == was.failCnt && !e.deleting)
    && (!success && !was.deleting ==>
          e.deleting == was.deleting && e.failCnt == if was.failCnt % 32 == 31 then 0 else was.failCnt % 32 + 1)
  }

  lemma EndedIsReported(s: Info, status: bool)
    requires Inv(s) && s.state == SuStart
    ensures var t := Ended(s, status);
            && t == s.(state := SuDown, bfee := s.bfee[s.cur := t.bfee[s.cur]])
            && Reported(s.bfee[s.cur], t.bfee[s.cur], status)
            && s.cur in t.su && t.bfee[s.cur].sounding
  {
  }

  /** The end of a sounding in any reachable state: the peer's record is kept, then the next one is picked. */
  lemma DownRecords(s: Info, status: bool)
    requires Inv(s) && s.state == SuStart
    ensures var r := Down(s, status);
            && Reported(s.bfee[s.cur], r.bfee[s.cur], status)
            && exists t: Info :: Shape(t) && Picks(t, r)
                 && t == s.(state := SuDown, bfee := s.bfee[s.cur := r.bfee[s.cur]])
  {
    EndedKeeps(s, status);
    EndedIsReported(s, status);
    var t := Ended(s, status);
    NextPicks(t);
    SoundedStays(t, Next(t), s.cur);
  }

  lemma DownPicks(s: Info, status: bool)
    requires Inv(s) && s.state == MuStart
    ensures Picks(s, Down(s, status))
  {
    EndedKeeps(s, status);
    var t := Ended(s, status);
    NextPicks(t);
    PicksIgnoresState(t, s, Next(t));
  }

  lemma PicksIgnoresState(s: Info, t: Info, r: Info)
    requires Shape(s) && Shape(t) && Shape(r) && t == s.(state := t.state) && Picks(s, r)
    ensures Picks(t, r)
  {
    if r.state == SuStart {
      var k :| 0 <= k < |s.su| && PicksAt(s, r, k);
      assert PicksAt(t, r, k);
    }
  }

  /** A peer that has been sounded is left alone by further choices. */
  lemma SoundedStays(s: Info, r: Info, i: nat)
    requires Shape(s) && Shape(r) && Picks(s, r) && i in s.su && s.bfee[i].sounding
    ensures r.bfee[i] == s.bfee[i]
  {
    var j :| 0 <= j < |s.su| && s.su[j] == i;
    if r.state == SuStart {
      var k :| 0 <= k < |s.su| && PicksAt(s, r, k);
      assert j != k;
    }
  }

  /**
    A sounding that times out is neither a success nor a failure; the start command that
    follows goes on with the others, and a report that comes late changes nothing.
   */
  lemma TimedOutIsSkipped(s: Info, status: bool, survey: bool)
    requires Inv(s) && s.state in {SuStart, MuStart}
    ensures var t := Timeout(s);
            && t.state == TimedOut && Down(t, status) == t && Picks(t, Handler(t, survey))
            && (s.state == SuStart ==>
                  Handler(t, survey).bfee[s.cur] == t.bfee[s.cur] == s.bfee[s.cur].(timeout := true))
            && forall i :: 0 <= i < ENTRIES && !(s.state == SuStart && i == s.cur) ==> t.bfee[i] == s.bfee[i]
  {
    var t := Timeout(s);
    NextPicks(t);
    if s.state == SuStart {
      SoundedStays(t, Next(t), s.cur);
    }
  }

  /** Timeouts and start commands at other times, and ticks within a period, do nothing. */
  lemma UntimelyIsIgnored(s: Info, survey: bool, status: bool)
    requires Shape(s)
    ensures s.state !in {SuStart, MuStart} ==> Timeout(s) == s && Down(s, status) == s
    ensures s.state in {Idle, SuStart, MuStart} ==> Handler(s, survey) == s
    ensures Tick(s) == if s.state == Idle || s.running != 0 then s else s.(state := Init, running := 1)
  {
  }

  /** How many peers the hardware has not got yet. */
  ghost predicate SomeNotReady(bfee: seq<Bfee>) {
    exists i :: 0 <= i < |bfee| && bfee[i].used && !bfee[i].added
  }

  lemma NotReadyGrows(l: Lists, i: nat, minPeriod: nat)
    requires i < |l.bfee| && minPeriod > 0
    ensures ListOne(l, i, minPeriod).notReady
         == l.notReady + if l.bfee[i].used && !l.bfee[i].added then 1 else 0
  {
  }

  lemma {:induction false} NotReadyIs(bfee: seq<Bfee>, n: nat, minPeriod: nat)
    requires n <= |bfee| == ENTRIES && minPeriod > 0
    ensures ListAll(bfee, n, minPeriod).notReady > 0 <==> SomeNotReady(bfee[..n])
  {
    if n > 0 {
      NotReadyIs(bfee, n - 1, minPeriod);
      ListsAreDistinct(bfee, n - 1, minPeriod);
      NotReadyGrows(ListAll(bfee, n - 1, minPeriod), n - 1, minPeriod);
      OneMoreNotReady(bfee, n - 1);
    }
  }

  lemma OneMoreNotReady(bfee: seq<Bfee>, n: nat)
    requires n < |bfee|
    ensures SomeNotReady(bfee[..n + 1]) <==> SomeNotReady(bfee[..n]) || (bfee[n].used && !bfee[n].added)
  {
    var more := bfee[..n + 1];
    assert forall i :: 0 <= i < n ==> bfee[..n][i] == more[i];
    assert more[n] == bfee[n];
  }

  /**
    A period goes ahead exactly if some peer is listed and no survey is running.  With nobody
    listed the scheduler goes idle, but for a peer that is not ready it tries five times more.
   */
  lemma PeriodBegins(s: Info, survey: bool)
    requires Shape(s) && s.state == Init
    ensures var (ok, t) := Begin(s, survey);
            && (ok <==> (t.su != [] || t.mu != []) && !survey)
            && (t.state == Idle <==> t.su == [] && t.mu == [] && (s.waitCnt >= 5 || !SomeNotReady(s.bfee)))
            && t.waitCnt == (if t.su == [] && t.mu == [] && t.state == Init then s.waitCnt + 1 else 0)
            && t.running == (if ok then s.running else s.running - 1)
            && t.done == [] && t.muCnt == |t.mu| && t.cur == 255 && t.minPeriod == s.minPeriod
            && var l := ListAll(Reset(s.bfee), ENTRIES, s.minPeriod);
               t.su == l.su && t.mu == l.mu && t.bfee == l.bfee
  {
    var bfee := Reset(s.bfee);
    NotReadyIs(bfee, ENTRIES, s.minPeriod);
    assert bfee[..ENTRIES] == bfee;
    assert forall i :: 0 <= i < ENTRIES ==> bfee[i].used == s.bfee[i].used && bfee[i].added == s.bfee[i].added;
    if SomeNotReady(s.bfee) {
      var i :| 0 <= i < |s.bfee| && s.bfee[i].used && !s.bfee[i].added;
      assert bfee[i].used && !bfee[i].added;
    }
  }

  // ---------------------------------------------------------------------------
  // Every run
  // ---------------------------------------------------------------------------

  datatype Event =
    | StartCommand(survey: bool)
    | EndCommand(status: bool)
    | SoundingTimeout
    | PeriodTimer
    | TrafficUpdate(worth: set<nat>)

  function Step(s: Info, ev: Event): (r: Info)
    requires Shape(s)
    ensures Shape(r)
  {
    match ev
    case StartCommand(survey) => Handler(s, survey)
    case EndCommand(status) => Down(s, status)
    case SoundingTimeout => Timeout(s)
    case PeriodTimer => Tick(s)
    case TrafficUpdate(worth) => Traffic(s, worth)
  }

  /** The two states in which a sounding has just ended are never seen between events. */
  predicate Resting(s: Info) {
    s.state !in {SuDown, MuDown}
  }

  lemma StepKeeps(s: Info, ev: Event)
    requires Inv(s) && Resting(s)
    ensures Inv(Step(s, ev)) && Resting(Step(s, ev))
  {
    match ev {
      case StartCommand(survey) =>
        if s.state == Init {
          BeginKeeps(s, survey);
          if Begin(s, survey).0 {
            NextKeeps(Begin(s, survey).1);
          }
        } else if s.state == TimedOut {
          NextKeeps(s);
        }
      case EndCommand(status) =>
        if s.state in {SuStart, MuStart} {
          DownKeeps(s, status);
        }
      case SoundingTimeout =>
      case PeriodTimer =>
      case TrafficUpdate(worth) => TrafficKeeps(s, worth);
    }
  }

  lemma TrafficKeeps(s: Info, worth: set<nat>)
    requires Inv(s)
    ensures Inv(Traffic(s, worth))
    ensures Resting(s) ==> Resting(Traffic(s, worth))
  {
    var r := Traffic(s, worth);
    assert forall i :: 0 <= i < ENTRIES ==>
      r.bfee[i].sounding == s.bfee[i].sounding && r.bfee[i].timeout == s.bfee[i].timeout;
  }

  function Run(s: Info, events: seq<Event>): (r: Info)
    requires Shape(s)
    ensures Shape(r)
  {
    if events == [] then s else Step(Run(s, events[..|events| - 1]), events[|events| - 1])
  }

  ghost predicate Fresh(s: Info) {
    Shape(s) && s.state == Idle && s.su == [] && s.mu == [] && s.muCnt == 0 && s.done == []
  }

  lemma {:induction false} RunKeeps(s: Info, events: seq<Event>)
    requires Fresh(s)
    ensures Inv(Run(s, events)) && Resting(Run(s, events))
  {
    if events != [] {
      RunKeeps(s, events[..|events| - 1]);
      StepKeeps(Run(s, events[..|events| - 1]), events[|events| - 1]);
    }
  }

  /**
    In every run, in any order of commands, timeouts and timer ticks: within a
    period each listed single-user peer is sounded (or deleted) at most once and
    no other is; the multi-user sounding happens at most once, for exactly the
    listed peers, after every single-user one; and no event leaves the scheduler
    in a state from which only an unsolicited command would take it.
   */
  lemma SoundingsAreOrdered(s: Info, events: seq<Event>)
    requires Fresh(s)
    ensures var r := Run(s, events);
            Ordered(r.done, r.su, r.mu) && Resting(r)
  {
    RunKeeps(s, events);
  }

  /** A period that ends by itself is complete: every listed peer has had its turn. */
  lemma FinishedPeriodIsComplete(s: Info, events: seq<Event>, ev: Event)
    requires Fresh(s) && Active(Run(s, events))
    requires ev.StartCommand? || ev.EndCommand?
    ensures var r := Step(Run(s, events), ev);
            && r.su == Run(s, events).su && r.mu == Run(s, events).mu
            && (r.state == Init ==> Complete(r))
  {
    RunKeeps(s, events);
    var t := Run(s, events);
    match ev {
      case StartCommand(survey) =>
        if t.state == TimedOut {
          NextKeeps(t);
        }
      case EndCommand(status) =>
        if t.state in {SuStart, MuStart} {
          DownKeeps(t, status);
        }
    }
  }

  /**
    The recursion of the two handlers: one call acts at most once for each listed
    single-user peer that was left, and once for the multi-user ones.
   */
  lemma OneCallIsBounded(s: Info, events: seq<Event>, status: bool)
    requires Fresh(s) && Run(s, events).state in {SuStart, MuStart}
    ensures var t := Run(s, events);
            |Down(t, status).done| <= |t.done| + Left(t.bfee, t.su) + 1
  {
    RunKeeps(s, events);
    DownKeeps(Run(s, events), status);
  }
}
