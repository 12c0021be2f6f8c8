/** What it means that a channel was listened to: the handler was ready all the time. */
module RadarListening {

  import opened Basics
  import opened DfsChannels
  import opened RadarDetection
  import opened RadarSafety

  /** A check was restarted at this very tick, or will be at the next: it hears from then on. */
  predicate JustRestarted(m: State) {
    Waiting(m) && m.now <= m.cacStart <= m.now + 1
  }

  /** A report on the channel would be acted on now. */
  predicate Hears(m: State, c: Channel) {
    (Ready(m) || JustRestarted(m)) && m.enabled && m.cur.Some? && DfsIn(c, m.cur.value)
  }

  // ---------------------------------------------------------------------------
  // What a mark says of the present state
  // ---------------------------------------------------------------------------

  ghost predicate MarkHears(w: Watch, m: State) {
    w.Since? ==> m.enabled && (CacStopped(m) || m.cacStart <= w.q || m.cacStart <= m.now + 1)
  }

  ghost predicate MarksHear(s: System) {
    WellFormed(s) && forall i :: 0 <= i < |s.watch| ==> MarkHears(s.watch[i], s.m)
  }

  lemma EnableHears(s: System, t: Tuning, bypass: bool, radar: Option<Tuning>)
    requires MarksHear(s)
    ensures MarksHear(ObserveEnable(s, t, bypass, radar))
  {
    var u := ObserveEnable(s, t, bypass, radar);
    forall i | 0 <= i < |u.watch| ensures MarkHears(u.watch[i], u.m) {
      assert MarkHears(s.watch[i], s.m);
      assert u.watch[i] == WatchEnabled(s.watch[i], s.m.chs[i], u.m, bypass,
                                        radar.Some? && Touches(s.m.chs[i], radar.value));
    }
  }

  lemma DisableHears(s: System, byOthers: Option<Tuning>)
    requires MarksHear(s)
    ensures MarksHear(ObserveDisable(s, byOthers))
  {
  }

  lemma StepHears(s: System, e: Event)
    requires MarksHear(s)
    ensures MarksHear(Step(s, e))
  {
    match e
    case EnableEvent(t, bypass) => EnableHears(s, t, bypass, None);
    case DisableEvent(byOthers) => DisableHears(s, byOthers);
    case PollEvent(radar, d) =>
      if ActsOn(s.m, radar) {
        var s1 := ObserveHit(s, radar.value);
        assert MarksHear(s1) by {
          forall i | 0 <= i < |s1.watch| ensures MarkHears(s1.watch[i], s1.m) {
            assert MarkHears(s.watch[i], s.m);
          }
        }
        match d
        case ToEnable(t, bypass) => EnableHears(s1, t, bypass, radar);
        case ToDisable(byOthers) => DisableHears(s1, byOthers);
      } else {
        QuietHears(s, e);
      }
    case _ => QuietHears(s, e);
  }

  /** Steps that leave the marks alone. */
  lemma QuietHears(s: System, e: Event)
    requires MarksHear(s)
    requires e.Advance? || e.Watchdog? || e.Regulatory? || (e.PollEvent? && !ActsOn(s.m, e.radar))
    ensures MarksHear(Step(s, e))
  {
    var u := Step(s, e);
    forall i | 0 <= i < |u.watch| ensures MarkHears(u.watch[i], u.m) {
      assert MarkHears(s.watch[i], s.m);
    }
  }

  lemma {:induction false} RunHears(s: System, es: seq<Event>)
    requires MarksHear(s)
    ensures MarksHear(Run(s, es))
  {
    if es != [] {
      RunHears(s, es[..|es| - 1]);
      StepHears(Run(s, es[..|es| - 1]), es[|es| - 1]);
    }
  }

  // ---------------------------------------------------------------------------
  // A mark older than the present is the mark of the state before
  // ---------------------------------------------------------------------------

  lemma MarkIsOlder(s: System, e: Event, i: nat)
    requires WellFormed(s) && i < |s.watch|
    requires Step(s, e).watch[i].Since? && Step(s, e).watch[i].q < s.m.now
    ensures s.watch[i] == Step(s, e).watch[i]
  {
  }

  lemma TimeGoesOn(s: System, e: Event)
    requires WellFormed(s)
    ensures s.m.now <= Step(s, e).m.now
    ensures !e.Advance? ==> s.m.now == Step(s, e).m.now
    ensures e.Advance? ==> Step(s, e) == s.(m := s.m.(now := Step(s, e).m.now))
  {
  }

  lemma {:induction false} RunIsWide(s: System, es: seq<Event>)
    requires WellFormed(s)
    ensures |Run(s, es).watch| == |s.watch|
  {
    if es != [] {
      RunIsWide(s, es[..|es| - 1]);
    }
  }

  /** The mark of the last state was there in every earlier state of a time after it. */
  lemma {:induction false} MarkWasThere(s: System, es: seq<Event>, i: nat, k: nat)
    requires WellFormed(s) && i < |Run(s, es).watch| == |s.watch| && k <= |es|
    requires Run(s, es).watch[i].Since? && Run(s, es).watch[i].q < Run(s, es[..k]).m.now
    ensures |Run(s, es[..k]).watch| == |s.watch| && Run(s, es[..k]).watch[i] == Run(s, es).watch[i]
    decreases |es|
  {
    if k == |es| {
      assert es[..k] == es;
    } else {
      var front := es[..|es| - 1];
      assert front[..k] == es[..k];
      RunIsWide(s, front);
      TimesGoOn(s, front, k);
      MarkIsOlder(Run(s, front), es[|es| - 1], i);
      MarkWasThere(s, front, i, k);
    }
  }

  lemma {:induction false} TimesGoOn(s: System, es: seq<Event>, k: nat)
    requires WellFormed(s) && k <= |es|
    ensures Run(s, es[..k]).m.now <= Run(s, es).m.now
    decreases |es|
  {
    if k == |es| {
      assert es[..k] == es;
    } else {
      var front := es[..|es| - 1];
      assert front[..k] == es[..k];
      TimesGoOn(s, front, k);
      TimeGoesOn(Run(s, front), es[|es| - 1]);
    }
  }

  // ---------------------------------------------------------------------------
  // Listening is real
  // ---------------------------------------------------------------------------

  /** The machine of a state at a later time before the next event. */
  function At(m: State, t: int): State {
    m.(now := t)
  }

  /** A report that reaches the channel closes it for 30 minutes, and the decision comes into force. */
  ghost predicate Detects(m: State, i: nat) {
    && i < |m.chs|
    && forall radar, d :: InReach(m.chs[i], radar) ==>
         var r := Poll(m, Some(radar), d);
         |r.chs| == |m.chs| && r.chs[i].nonOcpEnd >= m.now + 1800000 && InForce(r, d)
  }

  /** Hearing is detecting, at once or, after a restart of the check, from two ticks later on. */
  lemma HearingIsDetecting(m: State, i: nat, t: int)
    requires i < |m.chs| && Hears(m, m.chs[i])
    requires if JustRestarted(m) then m.now + 2 <= t else m.now <= t
    ensures Detects(At(m, t), i)
  {
    forall radar, d | InReach(m.chs[i], radar)
      ensures var r := Poll(At(m, t), Some(radar), d);
              |r.chs| == |m.chs| && r.chs[i].nonOcpEnd >= t + 1800000 && InForce(r, d)
    {
      ReportIsActedOn(At(m, t), radar, d);
    }
  }

  /** A marked channel is heard at every time after the mark for as long as the state lasts. */
  lemma MarkedIsHeard(s: System, i: nat, t: int)
    requires Inv(s) && MarksHear(s) && i < |s.watch|
    requires s.watch[i].Since? && s.watch[i].q < t && s.m.now <= t
    ensures Hears(At(s.m, t), s.m.chs[i])
  {
    assert MarkHears(s.watch[i], s.m);
    assert ChannelOk(s.m.chs[i], s.watch[i], s.hits[i], s.m);
  }

  /** `t` is a time at which the state after k events holds. */
  ghost predicate HoldsAt(s: System, es: seq<Event>, k: nat, t: int)
    requires WellFormed(s)
  {
    && k <= |es| && Run(s, es[..k]).m.now <= t
    && t <= (if k < |es| then Run(s, es[..k + 1]).m.now else Run(s, es).m.now)
  }

  /**
    A channel marked since q was listened to at every time after q, whatever
    happened in between: the state that held at that time was ready to act on a
    report there, or had restarted its check at that tick.
   */
  lemma ListeningIsReal(chs: seq<Channel>, now: int, etsi: bool, es: seq<Event>, i: nat, k: nat, t: int)
    requires KnownChannels(chs) && EventsFit(chs, es) && i < |chs|
    requires HoldsAt(Start(chs, now, etsi), es, k, t)
    requires |Run(Start(chs, now, etsi), es).watch| == |chs|
    requires var w := Run(Start(chs, now, etsi), es).watch[i]; w.Since? && w.q < t
    ensures var s := Run(Start(chs, now, etsi), es[..k]);
            && |s.m.chs| == |chs| && Hears(At(s.m, t), s.m.chs[i])
            && (JustRestarted(At(s.m, t)) || Detects(At(s.m, t), i))
            && |s.watch| == |chs| && s.watch[i] == Run(Start(chs, now, etsi), es).watch[i]
  {
    var s0 := Start(chs, now, etsi);
    var s := Run(s0, es[..k]);
    MarkHolds(s0, es, i, k, t);
    RunKeeps(chs, now, etsi, es[..k]);
    RunHears(s0, es[..k]);
    MarkedIsHeard(s, i, t);
    if !JustRestarted(At(s.m, t)) {
      HearingIsDetecting(At(s.m, t), i, t);
    }
  }

  /** The mark is there in the state that holds at any later time. */
  lemma MarkHolds(s: System, es: seq<Event>, i: nat, k: nat, t: int)
    requires WellFormed(s) && HoldsAt(s, es, k, t) && i < |Run(s, es).watch| == |s.watch|
    requires Run(s, es).watch[i].Since? && Run(s, es).watch[i].q < t
    ensures |Run(s, es[..k]).watch| == |s.watch| && Run(s, es[..k]).watch[i] == Run(s, es).watch[i]
  {
    RunIsWide(s, es[..k]);
    if k == |es| {
      assert es[..k] == es;
    } else {
      var u := Run(s, es[..k]);
      assert es[..k + 1][..k] == es[..k];
      assert Run(s, es[..k + 1]) == Step(u, es[k]);
      TimeGoesOn(u, es[k]);
      MarkWasThere(s, es, i, k + 1);
      if !es[k].Advance? {
        MarkIsOlder(u, es[k], i);
      }
    }
  }

  /**
    The availability check, in full: whenever detection is enabled and the channel
    is not waiting, every DFS channel of the detection range was inherited from a
    linked station, or there is a time q at least 60 s ago (10 min ago for an ETSI
    channel at 5600 to 5650 MHz), at least 30 min after the last detection on the
    channel since a regulatory setting was last applied, such that at every time since
    a report on the channel would have closed it and carried out the decision, ticks
    aside at which the check was restarted.
   */
  lemma AvailabilityCheckIsReal(chs: seq<Channel>, now: int, etsi: bool, es: seq<Event>, i: nat)
    requires KnownChannels(chs) && EventsFit(chs, es) && i < |chs|
    requires var s := Run(Start(chs, now, etsi), es);
             |s.m.chs| == |chs| && s.m.enabled && !Waiting(s.m) && s.m.cur.Some? && DfsIn(s.m.chs[i], s.m.cur.value)
    ensures var s0 := Start(chs, now, etsi);
            var s := Run(s0, es);
            match s.watch[i]
            case Inherited => true
            case Since(q) =>
              && q + CacNeed(etsi, chs[i]) <= s.m.now && (s.hits[i].Some? ==> s.hits[i].value + NON_OCP_TIME_MS <= q)
              && forall k: nat, t: int :: HoldsAt(s0, es, k, t) && q < t ==>
                   var u := Run(s0, es[..k]);
                   && |u.m.chs| == |chs| && Hears(At(u.m, t), u.m.chs[i])
                   && (JustRestarted(At(u.m, t)) || Detects(At(u.m, t), i))
            case Unwatched => false
  {
    AvailabilityCheckIsComplete(chs, now, etsi, es, i);
    var s0 := Start(chs, now, etsi);
    RunIsWide(s0, es);
    var w := Run(s0, es).watch[i];
    if w.Since? {
      forall k: nat, t: int | HoldsAt(s0, es, k, t) && w.q < t
        ensures var u := Run(s0, es[..k]);
                && |u.m.chs| == |chs| && Hears(At(u.m, t), u.m.chs[i])
                && (JustRestarted(At(u.m, t)) || Detects(At(u.m, t), i))
      {
        ListeningIsReal(chs, now, etsi, es, i, k, t);
      }
    }
  }

  /** With a shipped plan, every event whose tunings are the driver's is covered. */
  ghost predicate DriverEvent(e: Event) {
    match e
    case EnableEvent(t, _) => InCentreTables(t)
    case DisableEvent(byOthers) => byOthers.Some? ==> InCentreTables(byOthers.value)
    case PollEvent(_, ToEnable(t, _)) => InCentreTables(t)
    case PollEvent(_, ToDisable(byOthers)) => byOthers.Some? ==> InCentreTables(byOthers.value)
    case _ => true
  }

  lemma ShippedPlansFit(chs: seq<Channel>, es: seq<Event>)
    requires ShippedPlan(chs) && forall k :: 0 <= k < |es| ==> DriverEvent(es[k])
    ensures EventsFit(chs, es)
  {
    forall t: Tuning | InCentreTables(t) ensures Fits(chs, t) {
      ShippedPlansAreOffEnds(chs, t);
    }
  }
}
