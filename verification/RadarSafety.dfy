/**
  Availability check and non-occupancy over every run: 47 CFR section
  15.407(h)(2)(ii) and (iv).
 */
module RadarSafety {

  import opened Basics
  import opened DfsChannels
  import opened RadarDetection

  /** A tuning that the channel set can be searched with: no DFS channel sits on its ends. */
  ghost predicate Fits(chs: seq<Channel>, t: Tuning) {
    ValidTuning(t) && EndsOffCentre(chs, t)
  }

  ghost predicate FitsOption(chs: seq<Channel>, t: Option<Tuning>) {
    t.Some? ==> Fits(chs, t.value)
  }

  ghost predicate EventFits(chs: seq<Channel>, e: Event) {
    match e
    case EnableEvent(t, _) => Fits(chs, t)
    case DisableEvent(byOthers) => FitsOption(chs, byOthers)
    case PollEvent(_, ToEnable(t, _)) => Fits(chs, t)
    case PollEvent(_, ToDisable(byOthers)) => FitsOption(chs, byOthers)
    case _ => true
  }

  /** Every 5 GHz channel has a frequency. */
  ghost predicate KnownChannels(chs: seq<Channel>) {
    forall i :: 0 <= i < |chs| && chs[i].band == Band5 ==> 16 <= chs[i].num <= 253
  }

  // ---------------------------------------------------------------------------
  // Invariant
  // ---------------------------------------------------------------------------

  ghost predicate Watched(c: Channel, m: State) {
    m.cur.Some? && DfsIn(c, m.cur.value)
  }

  ghost predicate MarkOk(c: Channel, h: Option<int>, now: int) {
    h.Some? ==>
      if c.nonOcpEnd == STOPPED then h.value + NON_OCP_TIME_MS <= now else h.value + NON_OCP_TIME_MS <= c.nonOcpEnd
  }

  ghost predicate WatchOk(c: Channel, w: Watch, h: Option<int>, m: State) {
    match w
    case Unwatched => false
    case Inherited => true
    case Since(q) =>
      && (h.Some? ==> h.value + NON_OCP_TIME_MS <= q)
      && if CacStopped(m) then q + CacNeed(m.etsi, c) <= m.now
         else q + CacNeed(m.etsi, c) <= m.cacEnd && (q <= m.now || q <= m.cacStart)
  }

  ghost predicate ChannelOk(c: Channel, w: Watch, h: Option<int>, m: State) {
    && MarkOk(c, h, m.now)
    && if Watched(c, m) then WatchOk(c, w, h, m) && (Pauses(m) ==> m.cacStart + CacNeed(m.etsi, c) <= m.cacEnd)
       else w == Unwatched
  }

  ghost predicate ControlOk(m: State) {
    && (!m.enabled ==> CacStopped(m))
    && (m.enabled ==> m.cur.Some?)
    && (!CacStopped(m) ==> m.cacStart <= m.cacEnd)
    && FitsOption(m.chs, m.cur)
    && KnownChannels(m.chs)
  }

  ghost predicate ChannelsOk(s: System)
    requires WellFormed(s)
  {
    forall i :: 0 <= i < |s.m.chs| ==> ChannelOk(s.m.chs[i], s.watch[i], s.hits[i], s.m)
  }

  ghost predicate Inv(s: System) {
    WellFormed(s) && ControlOk(s.m) && !s.m.detected && ChannelsOk(s)
  }

  // ---------------------------------------------------------------------------
  // Enabling
  // ---------------------------------------------------------------------------

  /** A DFS channel of a range is touched by the range. */
  lemma DfsInTouches(c: Channel, t: Tuning)
    requires DfsIn(c, t) && 16 <= c.num <= 253
    ensures Touches(c, t)
  {
    EndsInChannels(t);
  }

  /** The window that a reset programs. */
  lemma ResetWindow(s: State, t: Tuning)
    requires ControlOk(s)
    ensures var n, r := NonOcpMs(s.chs, t, s.now), ResetCac(s, t);
            && !CacStopped(r)
            && s.now + n <= r.cacStart <= s.now + n + 1
            && (r.cacStart == s.now + n + 1 ==> r.cacStart == 1)
            && r.cacStart + CacMs(s, t) + (if n < 2000 then 2000 - n else 0) <= r.cacEnd
  {
  }

  lemma CacIsFull(s: State, t: Tuning, i: int)
    requires 0 <= i < |s.chs| && DfsIn(s.chs[i], t)
    requires !InDetectRange(s, t) || NonOcpMs(s.chs, t, s.now) > 0
    ensures CacMs(s, t) >= CacNeed(s.etsi, s.chs[i])
  {
    EndsInChannels(t);
    assert IsDfsRange(s.chs, Hi(t), Lo(t));
  }

  /**
    One channel across a reset.  `hit` says that radar was just recorded on it:
    then its mark is in force and the window starts behind it.
   */
  lemma ChannelAfterReset(s: State, t: Tuning, i: int, w: Watch, h: Option<int>, hit: bool)
    requires ControlOk(s) && 0 <= i < |s.chs| && DfsIn(s.chs[i], t)
    requires MarkOk(s.chs[i], h, s.now)
    requires if hit then NonOcp(s.chs[i], s.now)
             else if Watched(s.chs[i], s) then WatchOk(s.chs[i], w, h, s) else w == Unwatched
    ensures var m' := ResetCac(s, t).(cur := Some(t), detected := false, enabled := true);
            WatchOk(s.chs[i], WatchEnabled(w, s.chs[i], m', false, hit), h, m')
            && (Pauses(m') ==> m'.cacStart + CacNeed(s.etsi, s.chs[i]) <= m'.cacEnd)
  {
    var c, n := s.chs[i], NonOcpMs(s.chs, t, s.now);
    ResetWindow(s, t);
    NonOcpMsBounds(s.chs, t, s.now);
    DfsInTouches(c, t);
    assert Remaining(c, t, s.now) <= n;
    if InDetectRange(s, t) && n == 0 {
      assert !hit;
      EndsInChannels(t);
      EndsInChannels(s.cur.value);
      assert Watched(c, s);
    } else {
      CacIsFull(s, t, i);
    }
  }

  lemma EnableControl(s: State, t: Tuning, bypass: bool)
    requires ControlOk(s) && Fits(s.chs, t)
    ensures ControlOk(Enable(s, t, bypass)) && !Enable(s, t, bypass).detected
  {
    if !bypass && ResetNeeded(s.chs, s.detected, s.cur, t) {
      ResetWindow(s, t);
      assert CacMs(s, t) >= 0;
    }
  }

  lemma ChannelAfterEnable(s: State, t: Tuning, bypass: bool, i: int, w: Watch, h: Option<int>, hit: bool)
    requires ControlOk(s) && Fits(s.chs, t) && 0 <= i < |s.chs|
    requires MarkOk(s.chs[i], h, s.now)
    requires hit ==> s.detected && NonOcp(s.chs[i], s.now)
    requires !hit ==>
               if Watched(s.chs[i], s)
               then WatchOk(s.chs[i], w, h, s) && (Pauses(s) ==> s.cacStart + CacNeed(s.etsi, s.chs[i]) <= s.cacEnd)
               else w == Unwatched
    ensures var m' := Enable(s, t, bypass);
            ChannelOk(s.chs[i], WatchEnabled(w, s.chs[i], m', bypass, hit), h, m')
  {
    var c := s.chs[i];
    if DfsIn(c, t) && !bypass {
      if ResetNeeded(s.chs, s.detected, s.cur, t) {
        ChannelAfterReset(s, t, i, w, h, hit);
      } else {
        NoResetNothingNew(s.chs, s.cur.value, t, i);
      }
    }
  }

  // ---------------------------------------------------------------------------
  // Every event keeps the invariant
  // ---------------------------------------------------------------------------

  lemma AdvanceKeeps(s: System, d: nat)
    requires Inv(s)
    ensures Inv(Step(s, Advance(d)))
  {
    var u := Step(s, Advance(d));
    forall i | 0 <= i < |u.m.chs| ensures ChannelOk(u.m.chs[i], u.watch[i], u.hits[i], u.m) {
      assert ChannelOk(s.m.chs[i], s.watch[i], s.hits[i], s.m);
    }
  }

  lemma EnableKeeps(s: System, t: Tuning, bypass: bool)
    requires Inv(s) && Fits(s.m.chs, t)
    ensures Inv(Step(s, EnableEvent(t, bypass)))
  {
    var u := Step(s, EnableEvent(t, bypass));
    EnableControl(s.m, t, bypass);
    forall i | 0 <= i < |u.m.chs| ensures ChannelOk(u.m.chs[i], u.watch[i], u.hits[i], u.m) {
      assert ChannelOk(s.m.chs[i], s.watch[i], s.hits[i], s.m);
      ChannelAfterEnable(s.m, t, bypass, i, s.watch[i], s.hits[i], false);
    }
  }

  ghost predicate MarksOk(s: System)
    requires WellFormed(s)
  {
    forall i :: 0 <= i < |s.m.chs| ==> MarkOk(s.m.chs[i], s.hits[i], s.m.now)
  }

  lemma DisableKeeps(s: System, byOthers: Option<Tuning>)
    requires WellFormed(s) && ControlOk(s.m) && MarksOk(s) && (!s.m.enabled ==> !s.m.detected)
    requires FitsOption(s.m.chs, byOthers)
    ensures Inv(ObserveDisable(s, byOthers))
  {
    var u := ObserveDisable(s, byOthers);
    forall i | 0 <= i < |u.m.chs| ensures ChannelOk(u.m.chs[i], u.watch[i], u.hits[i], u.m) {
      assert MarkOk(s.m.chs[i], s.hits[i], s.m.now);
    }
  }

  /** Recording a detection moves marks only. */
  lemma MarkMovesMarks(chs: seq<Channel>, r: Tuning, now: int, t: Tuning)
    ensures Fits(chs, t) ==> Fits(Mark(chs, r, now), t)
    ensures KnownChannels(chs) ==> KnownChannels(Mark(chs, r, now))
    ensures forall i :: 0 <= i < |chs| ==> (DfsIn(Mark(chs, r, now)[i], t) <==> DfsIn(chs[i], t))
  {
    var ms := Mark(chs, r, now);
    if Fits(chs, t) {
      forall i | 0 <= i < |ms| ensures !OnEnd(ms[i], t) {
        assert !OnEnd(chs[i], t);
      }
    }
  }

  lemma HitMarks(s: System, radar: Tuning)
    requires Inv(s) && s.m.enabled
    ensures var s1 := ObserveHit(s, radar);
            WellFormed(s1) && ControlOk(s1.m) && MarksOk(s1)
  {
    var s1 := ObserveHit(s, radar);
    MarkMovesMarks(s.m.chs, radar, s.m.now, s.m.cur.value);
    forall i | 0 <= i < |s1.m.chs| ensures MarkOk(s1.m.chs[i], s1.hits[i], s1.m.now) {
      assert ChannelOk(s.m.chs[i], s.watch[i], s.hits[i], s.m);
    }
  }

  lemma HitEnableKeeps(s: System, radar: Tuning, t: Tuning, bypass: bool)
    requires Inv(s) && s.m.enabled && Fits(s.m.chs, t)
    ensures Inv(ObserveEnable(ObserveHit(s, radar), t, bypass, Some(radar)))
  {
    var s1 := ObserveHit(s, radar);
    var u := ObserveEnable(s1, t, bypass, Some(radar));
    HitMarks(s, radar);
    MarkMovesMarks(s.m.chs, radar, s.m.now, t);
    EnableControl(s1.m, t, bypass);
    forall i | 0 <= i < |u.m.chs| ensures ChannelOk(u.m.chs[i], u.watch[i], u.hits[i], u.m) {
      assert ChannelOk(s.m.chs[i], s.watch[i], s.hits[i], s.m);
      var hit := Touches(s1.m.chs[i], radar);
      assert hit == Touches(s.m.chs[i], radar);
      assert DfsIn(s1.m.chs[i], s.m.cur.value) == DfsIn(s.m.chs[i], s.m.cur.value);
      ChannelAfterEnable(s1.m, t, bypass, i, s.watch[i], s1.hits[i], hit);
    }
  }

  lemma HitDisableKeeps(s: System, radar: Tuning, byOthers: Option<Tuning>)
    requires Inv(s) && s.m.enabled && FitsOption(s.m.chs, byOthers)
    ensures Inv(ObserveDisable(ObserveHit(s, radar), byOthers))
  {
    HitMarks(s, radar);
    if byOthers.Some? {
      MarkMovesMarks(s.m.chs, radar, s.m.now, byOthers.value);
    }
    DisableKeeps(ObserveHit(s, radar), byOthers);
  }

  lemma QuietPollKeeps(s: System, radar: Option<Tuning>, d: Decision)
    requires Inv(s) && !ActsOn(s.m, radar)
    ensures Inv(Step(s, PollEvent(radar, d)))
  {
    var u := Step(s, PollEvent(radar, d));
    forall i | 0 <= i < |u.m.chs| ensures ChannelOk(u.m.chs[i], u.watch[i], u.hits[i], u.m) {
      assert ChannelOk(s.m.chs[i], s.watch[i], s.hits[i], s.m);
    }
  }

  /** Steps that move marks only. */
  lemma MarkStepKeeps(s: System, e: Event)
    requires Inv(s) && (e.Watchdog? || e.Regulatory?)
    ensures Inv(Step(s, e))
  {
    var u := Step(s, e);
    if s.m.cur.Some? {
      forall i | 0 <= i < |u.m.chs| ensures !OnEnd(u.m.chs[i], s.m.cur.value) {
        assert !OnEnd(s.m.chs[i], s.m.cur.value);
      }
    }
    forall i | 0 <= i < |u.m.chs| ensures ChannelOk(u.m.chs[i], u.watch[i], u.hits[i], u.m) {
      assert ChannelOk(s.m.chs[i], s.watch[i], s.hits[i], s.m);
    }
  }

  /** Channel numbers, bands and DFS flags never change, so fitting does not either. */
  ghost predicate SamePlan(a: seq<Channel>, b: seq<Channel>) {
    |a| == |b| && forall i :: 0 <= i < |a| ==> a[i].(nonOcpEnd := 0) == b[i].(nonOcpEnd := 0)
  }

  lemma SamePlanFits(a: seq<Channel>, b: seq<Channel>, t: Tuning)
    requires SamePlan(a, b) && Fits(a, t)
    ensures Fits(b, t)
  {
    forall i | 0 <= i < |b| ensures !OnEnd(b[i], t) {
      assert !OnEnd(a[i], t);
      assert a[i].(nonOcpEnd := 0).num == b[i].(nonOcpEnd := 0).num;
      assert a[i].(nonOcpEnd := 0).band == b[i].(nonOcpEnd := 0).band;
    }
  }

  lemma SamePlanEvent(a: seq<Channel>, b: seq<Channel>, e: Event)
    requires SamePlan(a, b) && EventFits(a, e)
    ensures EventFits(b, e)
  {
    match e
    case EnableEvent(t, _) => SamePlanFits(a, b, t);
    case DisableEvent(Some(t)) => SamePlanFits(a, b, t);
    case PollEvent(_, ToEnable(t, _)) => SamePlanFits(a, b, t);
    case PollEvent(_, ToDisable(Some(t))) => SamePlanFits(a, b, t);
    case _ =>
  }

  lemma MarksKeepPlan(chs: seq<Channel>, t: Tuning, which: set<int>, now: int)
    ensures SamePlan(chs, Mark(chs, t, now)) && SamePlan(chs, StopExpired(chs, which, now))
    ensures SamePlan(chs, EndAll(chs, now))
  {
  }

  lemma StepPlan(s: System, e: Event)
    requires WellFormed(s)
    ensures SamePlan(s.m.chs, Step(s, e).m.chs) && Step(s, e).m.etsi == s.m.etsi
  {
    ObserverIsPassive(s, e);
    match e
    case PollEvent(radar, d) =>
      if radar.Some? {
        MarksKeepPlan(s.m.chs, radar.value, {}, s.m.now);
      }
    case Watchdog(which) => MarksKeepPlan(s.m.chs, Tuning(36, W20), which, s.m.now);
    case Regulatory => MarksKeepPlan(s.m.chs, Tuning(36, W20), {}, s.m.now);
    case _ =>
  }

  lemma StepKeeps(s: System, e: Event)
    requires Inv(s) && EventFits(s.m.chs, e)
    ensures Inv(Step(s, e))
  {
    match e
    case Advance(d) => AdvanceKeeps(s, d);
    case EnableEvent(t, bypass) => EnableKeeps(s, t, bypass);
    case DisableEvent(byOthers) =>
      assert MarksOk(s) by {
        forall i | 0 <= i < |s.m.chs| ensures MarkOk(s.m.chs[i], s.hits[i], s.m.now) {
          assert ChannelOk(s.m.chs[i], s.watch[i], s.hits[i], s.m);
        }
      }
      DisableKeeps(s, byOthers);
    case PollEvent(radar, d) =>
      if ActsOn(s.m, radar) {
        match d
        case ToEnable(t, bypass) => HitEnableKeeps(s, radar.value, t, bypass);
        case ToDisable(byOthers) => HitDisableKeeps(s, radar.value, byOthers);
      } else {
        QuietPollKeeps(s, radar, d);
      }
    case _ => MarkStepKeeps(s, e);
  }

  ghost predicate EventsFit(chs: seq<Channel>, es: seq<Event>) {
    forall k :: 0 <= k < |es| ==> EventFits(chs, es[k])
  }

  lemma {:induction false} RunKeeps(chs: seq<Channel>, now: int, etsi: bool, es: seq<Event>)
    requires KnownChannels(chs) && EventsFit(chs, es)
    ensures Inv(Run(Start(chs, now, etsi), es))
    ensures SamePlan(chs, Run(Start(chs, now, etsi), es).m.chs) && Run(Start(chs, now, etsi), es).m.etsi == etsi
  {
    var s0 := Start(chs, now, etsi);
    if es == [] {
    } else {
      var front, e := es[..|es| - 1], es[|es| - 1];
      RunKeeps(chs, now, etsi, front);
      var s := Run(s0, front);
      assert EventFits(chs, e);
      SamePlanEvent(chs, s.m.chs, e);
      StepKeeps(s, e);
      StepPlan(s, e);
    }
  }

  /**
    Whenever detection is enabled and the channel is not waiting, every DFS channel
    of the detection range was inherited from a linked station, or has been listened
    to for at least 60 s, or 10 min if it is an ETSI channel at 5600 to 5650 MHz,
    without a detection, that period having begun at least 30 min after the last
    detection on the channel since a regulatory setting was last applied.
   */
  lemma AvailabilityCheckIsComplete(chs: seq<Channel>, now: int, etsi: bool, es: seq<Event>, i: int)
    requires KnownChannels(chs) && EventsFit(chs, es) && 0 <= i < |chs|
    requires var s := Run(Start(chs, now, etsi), es);
             |s.m.chs| == |chs| && s.m.enabled && !Waiting(s.m) && s.m.cur.Some? && DfsIn(s.m.chs[i], s.m.cur.value)
    ensures var s := Run(Start(chs, now, etsi), es);
            match s.watch[i]
            case Inherited => true
            case Since(q) =>
              q + CacNeed(etsi, chs[i]) <= s.m.now && (s.hits[i].Some? ==> s.hits[i].value + NON_OCP_TIME_MS <= q)
            case Unwatched => false
  {
    RunKeeps(chs, now, etsi, es);
    var s := Run(Start(chs, now, etsi), es);
    assert ChannelOk(s.m.chs[i], s.watch[i], s.hits[i], s.m);
    assert s.m.chs[i].(nonOcpEnd := 0).num == chs[i].(nonOcpEnd := 0).num;
  }

  /** Why the account of detections starts anew: one tick after the apply no period is running. */
  lemma RegulatoryEndsPeriods(s: System, d: nat)
    requires WellFormed(s) && d > 0
    ensures var u := Step(Step(s, Regulatory), Advance(d));
            forall i :: 0 <= i < |u.m.chs| ==> !NonOcp(u.m.chs[i], u.m.now)
  {
  }
}
