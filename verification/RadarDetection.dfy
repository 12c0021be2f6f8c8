/**
  Radar detection: non-occupancy marks, the channel availability check (CAC)
  window, and the handlers that enable, disable and poll detection.

  Time is an unbounded integer in milliseconds that may start below zero, as
  jiffies do, so that time stamps really can run into the value 0 that stands for
  "stopped".  The clock does not move inside one handler.
 */
module RadarDetection {

  import opened Basics
  import opened DfsChannels

  const CAC_TIME_MS := 60000
  const CAC_TIME_CE_MS := 600000
  const NON_OCP_TIME_MS := 1800000
  const RD_CONFIG_INT_MS := 2000
  const STOPPED := 0

  datatype State = State(
    chs: seq<Channel>,
    now: int,
    etsi: bool,               // DFS domain is ETSI
    enabled: bool,            // radar_detect_enabled
    detected: bool,           // radar_detected
    cur: Option<Tuning>,      // radar_detect_ch/bw/offset, None for channel 0
    cacStart: int,
    cacEnd: int)

  predicate CacStopped(s: State) {
    s.cacEnd == STOPPED
  }

  /** IS_CH_WAITING. */
  predicate Waiting(s: State) {
    !CacStopped(s) && s.cacEnd > s.now
  }

  /** IS_UNDER_CAC. */
  predicate UnderCac(s: State) {
    Waiting(s) && s.now > s.cacStart
  }

  // ---------------------------------------------------------------------------
  // Non-occupancy
  // ---------------------------------------------------------------------------

  /** CH_IS_NON_OCP. */
  predicate NonOcp(c: Channel, now: int) {
    c.nonOcpEnd != STOPPED && c.nonOcpEnd > now
  }

  /** The channel's centre lies in the range, ends included. */
  predicate Touches(c: Channel, t: Tuning) {
    c.band == Band5 && 16 <= c.num <= 253 && Lo(t) <= Freq(c.num) <= Hi(t)
  }

  function Remaining(c: Channel, t: Tuning, now: int): nat {
    if Touches(c, t) && NonOcp(c, now) then c.nonOcpEnd - now else 0
  }

  function Max(a: nat, b: nat): nat {
    if a > b then a else b
  }

  /** The longest remaining non-occupancy time in the range. */
  function NonOcpMs(chs: seq<Channel>, t: Tuning, now: int): nat {
    if chs == [] then 0
    else Max(NonOcpMs(chs[..|chs| - 1], t, now), Remaining(chs[|chs| - 1], t, now))
  }

  lemma {:induction false} NonOcpMsBounds(chs: seq<Channel>, t: Tuning, now: int)
    ensures forall i :: 0 <= i < |chs| ==> Remaining(chs[i], t, now) <= NonOcpMs(chs, t, now)
    ensures NonOcpMs(chs, t, now) == 0 || exists i :: 0 <= i < |chs| && Remaining(chs[i], t, now) == NonOcpMs(chs, t, now)
  {
    if chs != [] {
      var front := chs[..|chs| - 1];
      NonOcpMsBounds(front, t, now);
      if NonOcpMs(front, t, now) != 0 {
        var i :| 0 <= i < |front| && Remaining(front[i], t, now) == NonOcpMs(front, t, now);
        assert chs[i] == front[i];
      }
      forall i | 0 <= i < |chs| ensures Remaining(chs[i], t, now) <= NonOcpMs(chs, t, now) {
        if i < |front| {
          assert chs[i] == front[i];
        }
      }
    }
  }

  function NonOcpEndAt(now: int): int {
    if now + NON_OCP_TIME_MS == STOPPED then STOPPED + 1 else now + NON_OCP_TIME_MS
  }

  function MarkOne(c: Channel, t: Tuning, now: int): Channel {
    if Touches(c, t) then c.(nonOcpEnd := NonOcpEndAt(now)) else c
  }

  function Mark(chs: seq<Channel>, t: Tuning, now: int): (r: seq<Channel>)
    ensures |r| == |chs|
  {
    seq(|chs|, i requires 0 <= i < |chs| => MarkOne(chs[i], t, now))
  }

  /** What the watchdog leaves of a channel's mark. */
  function StopIfExpired(c: Channel, now: int): Channel {
    if c.nonOcpEnd != STOPPED && !NonOcp(c, now) then c.(nonOcpEnd := STOPPED) else c
  }

  /** The watchdog stops some of the expired channels: those that a finish group can name. */
  function StopExpired(chs: seq<Channel>, which: set<int>, now: int): (r: seq<Channel>)
    ensures |r| == |chs|
  {
    seq(|chs|, i requires 0 <= i < |chs| => if i in which then StopIfExpired(chs[i], now) else chs[i])
  }

  /** What applying a regulatory setting leaves of a running period: it ends now. */
  function EndNow(c: Channel, now: int): Channel {
    if c.nonOcpEnd == STOPPED then c else c.(nonOcpEnd := if now == STOPPED then now + 1 else now)
  }

  function EndAll(chs: seq<Channel>, now: int): (r: seq<Channel>)
    ensures |r| == |chs|
  {
    seq(|chs|, i requires 0 <= i < |chs| => EndNow(chs[i], now))
  }

  // ---------------------------------------------------------------------------
  // The handlers
  // ---------------------------------------------------------------------------

  /** `rtw_is_long_cac_range`: an ETSI range that touches 5600-5650 MHz. */
  predicate LongCac(s: State, t: Tuning) {
    s.etsi && Hi(t) > 5600 && Lo(t) < 5650
  }

  /**
    How long the channel has to be checked: ten minutes for ETSI channels at 5600 to
    5650 MHz, else one minute.
   */
  function CacNeed(etsi: bool, c: Channel): int {
    if etsi && 5600 <= Freq(c.num) <= 5650 then CAC_TIME_CE_MS else CAC_TIME_MS
  }

  predicate InDetectRange(s: State, t: Tuning) {
    s.enabled && s.cur.Some? && Within(t, s.cur.value)
  }

  /** The availability check that `rtw_get_ch_waiting_ms` asks for. */
  ghost function CacMs(s: State, t: Tuning): int {
    if !IsDfsRange(s.chs, Hi(t), Lo(t)) then 0
    else if InDetectRange(s, t) && NonOcpMs(s.chs, t, s.now) == 0 then
      if Waiting(s) then s.cacEnd - s.now else 0
    else if LongCac(s, t) then CAC_TIME_CE_MS
    else CAC_TIME_MS
  }

  /** `rtw_reset_cac`. */
  ghost function ResetCac(s: State, t: Tuning): State {
    var nonOcp := NonOcpMs(s.chs, t, s.now);
    var ready := if nonOcp < RD_CONFIG_INT_MS then RD_CONFIG_INT_MS - nonOcp else 0;
    var start := s.now + nonOcp;
    var end := start + ready + CacMs(s, t);
    var (start', end') := if start == STOPPED then (start + 1, end + 1) else (start, end);
    s.(cacStart := start', cacEnd := if end' == STOPPED then end' + 1 else end')
  }

  /** `rtw_dfs_rd_enable`. */
  ghost function Enable(s: State, t: Tuning, bypass: bool): State {
    var s1 :=
      if bypass then s.(cacStart := STOPPED, cacEnd := STOPPED)
      else if ResetNeeded(s.chs, s.detected, s.cur, t) then ResetCac(s, t)
      else s;
    s1.(cur := Some(t), detected := false, enabled := true)
  }

  /** `rtw_dfs_rd_disable`; a tuning when another station takes over detection. */
  function Disable(s: State, byOthers: Option<Tuning>): State {
    var s1 :=
      if s.enabled then s.(enabled := false, detected := false, cacStart := STOPPED, cacEnd := STOPPED) else s;
    s1.(cur := byOthers)
  }

  /** What the channel switch after a detection ends in. */
  datatype Decision = ToEnable(t: Tuning, bypass: bool) | ToDisable(byOthers: Option<Tuning>)

  ghost function Decide(s: State, d: Decision): State {
    match d
    case ToEnable(t, bypass) => Enable(s, t, bypass)
    case ToDisable(byOthers) => Disable(s, byOthers)
  }

  /** The handler is ready to act on a report: detection is on and the check, if any, has begun. */
  predicate Ready(s: State) {
    s.enabled && !(Waiting(s) && !UnderCac(s))
  }

  predicate ActsOn(s: State, radar: Option<Tuning>) {
    Ready(s) && radar.Some?
  }

  /** `rtw_dfs_rd_hdl`. */
  ghost function Poll(s: State, radar: Option<Tuning>, d: Decision): State {
    if !s.enabled then s
    else if ActsOn(s, radar) then
      Decide(s.(detected := true, chs := Mark(s.chs, radar.value, s.now)), d)
    else if !CacStopped(s) && !Waiting(s) then
      s.(cacStart := STOPPED, cacEnd := STOPPED)
    else s
  }

  // ---------------------------------------------------------------------------
  // What the handlers do, in terms of times and frequencies
  // ---------------------------------------------------------------------------

  /** The channel's centre is at most half the bandwidth away from the centre of the tuning. */
  predicate InReach(c: Channel, t: Tuning) {
    c.band == Band5 && 16 <= c.num <= 253 && -HalfWidth(t.bw) <= 5 * c.num - 5 * t.cch <= HalfWidth(t.bw)
  }

  /** The decision is in force: detection is on for its tuning, or off. */
  predicate InForce(s: State, d: Decision) {
    match d
    case ToEnable(t, bypass) =>
      && s.enabled && !s.detected && s.cur == Some(t)
      && (if bypass then s.cacStart == s.cacEnd == 0 else s.cacEnd != 0 && s.now <= s.cacStart)
    case ToDisable(byOthers) => !s.enabled && !s.detected && s.cur == byOthers && s.cacStart == s.cacEnd == 0
  }

  /**
    A report in service or during a check that has begun: every channel in its reach,
    and no other, is closed for 30 minutes, and the decision comes into force.
   */
  lemma ReportIsActedOn(s: State, radar: Tuning, d: Decision)
    requires s.enabled && (s.cacEnd == 0 || s.cacEnd <= s.now || s.cacStart < s.now)
    ensures var r := Poll(s, Some(radar), d);
            && InForce(r, d) && r.now == s.now && |r.chs| == |s.chs|
            && forall i :: 0 <= i < |s.chs| ==>
                 if InReach(s.chs[i], radar)
                 then r.chs[i] == s.chs[i].(nonOcpEnd := if s.now == -1800000 then 1 else s.now + 1800000)
                 else r.chs[i] == s.chs[i]
  {
    var s1 := s.(detected := true, chs := Mark(s.chs, radar, s.now));
    match d
    case ToEnable(t, bypass) =>
      if !bypass {
        WindowStartsLater(s1, t);
      }
    case ToDisable(_) =>
  }

  /** Enabling and disabling, from any state: detection is on for exactly that tuning, or off. */
  lemma DecisionTakesEffect(s: State, d: Decision)
    ensures var r := Decide(s, d);
            && r.chs == s.chs && r.now == s.now && r.etsi == s.etsi
            && match d
               case ToEnable(t, bypass) =>
                 && r.enabled && !r.detected && r.cur == Some(t)
                 && (bypass ==> r.cacStart == r.cacEnd == 0)
               case ToDisable(byOthers) =>
                 && !r.enabled && r.cur == byOthers
                 && (if s.enabled then !r.detected && r.cacStart == r.cacEnd == 0
                     else r == s.(cur := byOthers))
  {
  }

  /** Before the start of a running window, and while detection is off, a poll does nothing at all. */
  lemma ReportIsIgnored(s: State, radar: Option<Tuning>, d: Decision)
    requires !s.enabled || (s.cacEnd != 0 && s.now < s.cacEnd && s.now <= s.cacStart)
    ensures Poll(s, radar, d) == s
  {
  }

  /** Without a report a poll only ends a check whose window has passed. */
  lemma QuietPoll(s: State, d: Decision)
    requires s.enabled
    ensures var r := Poll(s, None, d);
            r == if s.cacEnd <= s.now then s.(cacStart := r.cacStart, cacEnd := 0) else s
    ensures s.cacEnd != 0 && s.cacEnd <= s.now ==> Poll(s, None, d).cacStart == 0
  {
  }

  lemma WindowStartsLater(s: State, t: Tuning)
    ensures var r := ResetCac(s, t); r.cacEnd != 0 && s.now <= r.cacStart
    ensures ResetCac(s, t) == s.(cacStart := ResetCac(s, t).cacStart, cacEnd := ResetCac(s, t).cacEnd)
  {
  }

  /** The check that the longest DFS channel of a tuning needs, by its frequencies; 0 without one. */
  ghost predicate Needs(chs: seq<Channel>, etsi: bool, t: Tuning, ms: int) {
    && (ms == 0 <==> forall i :: 0 <= i < |chs| && chs[i].dfs && chs[i].band == Band5 ==>
                       Freq(chs[i].num) <= FloorFreq(Lo(t)) || FloorFreq(Hi(t)) <= Freq(chs[i].num))
    && (ms != 0 ==> ms == 600000 || ms == 60000)
    && (ms == 600000 ==> etsi && 5600 < Hi(t) && Lo(t) < 5650)
    && (ms == 60000 ==> !etsi || Hi(t) <= 5600 || 5650 <= Lo(t))
  }

  /** The frequency of the last channel number up to f. */
  function FloorFreq(f: int): int {
    Freq(FreqToCh(f))
  }

  /**
    A reset asks for no more than is needed: outside the range in use, the window is
    two seconds of setting up, less the waiting, and exactly the check.
   */
  lemma ResetAsksForTheCheck(s: State, t: Tuning)
    requires !InDetectRange(s, t)
    ensures Needs(s.chs, s.etsi, t, CacMs(s, t))
    ensures var n, r := NonOcpMs(s.chs, t, s.now), ResetCac(s, t);
            var length := (if n < 2000 then 2000 - n else 0) + CacMs(s, t);
            && r.cacStart == (if s.now + n == 0 then 1 else s.now + n)
            && r.cacEnd != 0 && (r.cacEnd - r.cacStart == length || (r.cacEnd == 1 && r.cacStart == -length))
  {
    if CacMs(s, t) == 0 {
      forall i | 0 <= i < |s.chs| && s.chs[i].dfs && s.chs[i].band == Band5
        ensures Freq(s.chs[i].num) <= FloorFreq(Lo(t)) || FloorFreq(Hi(t)) <= Freq(s.chs[i].num)
      {
        assert !DfsBetween(s.chs[i], Hi(t), Lo(t));
      }
    }
  }

  /** The tuning lies inside the other one, by the distance of their centres. */
  predicate Inside(t: Tuning, cur: Tuning) {
    && 5 * (t.cch - cur.cch) + HalfWidth(t.bw) <= HalfWidth(cur.bw)
    && 5 * (cur.cch - t.cch) + HalfWidth(t.bw) <= HalfWidth(cur.bw)
  }

  /** Moving inside the range in use keeps the check as it is and asks for what is left of it. */
  lemma MovingInsideKeepsTheCheck(s: State, t: Tuning, cur: Tuning)
    requires s.enabled && s.cur == Some(cur) && Inside(t, cur)
    ensures !s.detected ==> Enable(s, t, false) == s.(cur := Some(t))
    ensures s.detected ==> Enable(s, t, false).cacStart >= s.now && Enable(s, t, false).cacEnd != 0
    ensures NonOcpMs(s.chs, t, s.now) == 0 && IsDfsRange(s.chs, Hi(t), Lo(t)) ==>
              CacMs(s, t) == if s.cacEnd == 0 || s.cacEnd <= s.now then 0 else s.cacEnd - s.now
  {
    WindowStartsLater(s, t);
  }

  /** Moving to a range that only meets the one in use at an end always starts a check. */
  lemma LeavingRestarts(s: State, t: Tuning, cur: Tuning)
    requires s.cur == Some(cur)
    requires HalfWidth(t.bw) + HalfWidth(cur.bw) <= (if t.cch < cur.cch then 5 * (cur.cch - t.cch) else 5 * (t.cch - cur.cch))
    ensures Enable(s, t, false).cacStart >= s.now && Enable(s, t, false).cacEnd != 0
  {
    WindowStartsLater(s, t);
  }

  /** The waiting is over exactly when no channel in reach is closed, and lasts as long as the last of them. */
  lemma WaitsForTheLast(chs: seq<Channel>, t: Tuning, now: int)
    ensures NonOcpMs(chs, t, now) == 0 <==>
              forall i :: 0 <= i < |chs| && InReach(chs[i], t) ==> chs[i].nonOcpEnd == 0 || chs[i].nonOcpEnd <= now
    ensures forall later, i :: now + NonOcpMs(chs, t, now) <= later && 0 <= i < |chs| && InReach(chs[i], t) ==>
              !NonOcp(chs[i], later)
  {
    NonOcpMsBounds(chs, t, now);
    forall i | 0 <= i < |chs| && InReach(chs[i], t) && chs[i].nonOcpEnd != 0 && chs[i].nonOcpEnd > now
      ensures 0 < chs[i].nonOcpEnd - now <= NonOcpMs(chs, t, now)
    {
      assert Remaining(chs[i], t, now) == chs[i].nonOcpEnd - now;
    }
  }

  /**
    The watchdog stops the marks of just the channels that are named and whose period
    is over, so nobody can tell a channel's occupancy from before.
   */
  lemma WatchdogOpensNothing(chs: seq<Channel>, which: set<int>, now: int, i: int, later: int)
    requires 0 <= i < |chs| && now <= later
    ensures var c, c' := chs[i], StopExpired(chs, which, now)[i];
            && c' == c.(nonOcpEnd := c'.nonOcpEnd)
            && (NonOcp(c', later) <==> NonOcp(c, later))
            && (c'.nonOcpEnd == 0 <==> c.nonOcpEnd == 0 || (i in which && c.nonOcpEnd <= now))
            && (c'.nonOcpEnd != 0 ==> c' == c)
  {
  }

  /** A regulatory setting leaves stopped marks stopped and ends every running period at once. */
  lemma PeriodsEndNow(chs: seq<Channel>, now: int, i: int)
    requires 0 <= i < |chs|
    ensures var c, c' := chs[i], EndAll(chs, now)[i];
            && c' == c.(nonOcpEnd := c'.nonOcpEnd)
            && (c'.nonOcpEnd == 0 <==> c.nonOcpEnd == 0)
            && (c.nonOcpEnd != 0 ==> now <= c'.nonOcpEnd <= now + 1 && (c'.nonOcpEnd == now <==> now != 0))
  {
  }

  /** Ten minutes are needed exactly on ETSI channels 120 to 130. */
  lemma LongChannels(etsi: bool, c: Channel)
    ensures CacNeed(etsi, c) == if etsi && 120 <= c.num <= 130 then 600000 else 60000
  {
  }

  /** The driver's tunings that ask for ten minutes: those that share spectrum with 5600 to 5650 MHz. */
  lemma LongTunings(s: State, t: Tuning)
    requires InCentreTables(t)
    ensures LongCac(s, t) <==> s.etsi && t in {Tuning(120, W20), Tuning(124, W20), Tuning(128, W20),
                                               Tuning(118, W40), Tuning(126, W40), Tuning(122, W80), Tuning(114, W160)}
  {
  }

  // ---------------------------------------------------------------------------
  // An observer
  // ---------------------------------------------------------------------------

  /**
    What an onlooker knows of one channel: nothing, that detection was taken over
    from a linked station, or since when the handler has been ready to act on radar
    there without a break and without acting on any.  That the mark means this is
    proved in `RadarListening`.
   */
  datatype Watch = Unwatched | Inherited | Since(q: int)

  /** When listening starts, or goes on, after an enable. */
  function ListenFrom(s: State): int {
    if CacStopped(s) || s.cacStart < s.now then s.now else s.cacStart
  }

  /** Listening pauses for longer than the tick at which a check is restarted. */
  predicate Pauses(s: State) {
    !CacStopped(s) && s.cacStart > s.now + 1
  }

  function WatchEnabled(w: Watch, c: Channel, s': State, bypass: bool, hit: bool): Watch
    requires s'.cur.Some?
  {
    if !DfsIn(c, s'.cur.value) then Unwatched
    else if bypass then Inherited
    else if hit || w.Unwatched? then Since(ListenFrom(s'))
    else if w.Inherited? then Inherited
    else if w.q <= s'.now && !Pauses(s') then w
    else Since(ListenFrom(s'))
  }

  function WatchDisabled(c: Channel, byOthers: Option<Tuning>): Watch {
    if byOthers.Some? && DfsIn(c, byOthers.value) then Inherited else Unwatched
  }

  /**
    The machine with, for each channel, its watch and the time of the last detection
    there since a regulatory setting was last applied.
   */
  datatype System = System(m: State, watch: seq<Watch>, hits: seq<Option<int>>)

  datatype Event =
    | Advance(d: nat)
    | EnableEvent(t: Tuning, bypass: bool)
    | DisableEvent(byOthers: Option<Tuning>)
    | PollEvent(radar: Option<Tuning>, decision: Decision)
    | Watchdog(which: set<int>)
    // a regulatory setting with the same DFS channels is applied
    | Regulatory

  ghost predicate WellFormed(s: System) {
    |s.watch| == |s.m.chs| && |s.hits| == |s.m.chs|
  }

  ghost function ObserveEnable(s: System, t: Tuning, bypass: bool, radar: Option<Tuning>): System
    requires WellFormed(s)
  {
    var m' := Enable(s.m, t, bypass);
    System(m',
           seq(|s.m.chs|, i requires 0 <= i < |s.m.chs| && |s.watch| == |s.m.chs| =>
             WatchEnabled(s.watch[i], s.m.chs[i], m', bypass, radar.Some? && Touches(s.m.chs[i], radar.value))),
           s.hits)
  }

  ghost function ObserveDisable(s: System, byOthers: Option<Tuning>): System
    requires WellFormed(s)
  {
    System(Disable(s.m, byOthers),
           seq(|s.m.chs|, i requires 0 <= i < |s.m.chs| => WatchDisabled(s.m.chs[i], byOthers)),
           s.hits)
  }

  ghost function ObserveHit(s: System, radar: Tuning): System
    requires WellFormed(s)
  {
    System(s.m.(detected := true, chs := Mark(s.m.chs, radar, s.m.now)),
           s.watch,
           seq(|s.m.chs|, i requires 0 <= i < |s.m.chs| && |s.hits| == |s.m.chs| =>
             if Touches(s.m.chs[i], radar) then Some(s.m.now) else s.hits[i]))
  }

  ghost function Step(s: System, e: Event): (r: System)
    requires WellFormed(s)
    ensures WellFormed(r)
  {
    match e
    case Advance(d) => s.(m := s.m.(now := s.m.now + d))
    case EnableEvent(t, bypass) => ObserveEnable(s, t, bypass, None)
    case DisableEvent(byOthers) => ObserveDisable(s, byOthers)
    case PollEvent(radar, d) =>
      if ActsOn(s.m, radar) then
        var s1 := ObserveHit(s, radar.value);
        match d
        case ToEnable(t, bypass) => ObserveEnable(s1, t, bypass, radar)
        case ToDisable(byOthers) => ObserveDisable(s1, byOthers)
      else
        s.(m := Poll(s.m, radar, d))
    case Watchdog(which) => s.(m := s.m.(chs := StopExpired(s.m.chs, which, s.m.now)))
    case Regulatory =>
      s.(m := s.m.(chs := EndAll(s.m.chs, s.m.now)), hits := seq(|s.m.chs|, i => None))
  }

  /** The observer does not disturb the machine. */
  ghost function MachineStep(m: State, e: Event): State {
    match e
    case Advance(d) => m.(now := m.now + d)
    case EnableEvent(t, bypass) => Enable(m, t, bypass)
    case DisableEvent(byOthers) => Disable(m, byOthers)
    case PollEvent(radar, d) => Poll(m, radar, d)
    case Watchdog(which) => m.(chs := StopExpired(m.chs, which, m.now))
    case Regulatory => m.(chs := EndAll(m.chs, m.now))
  }

  lemma ObserverIsPassive(s: System, e: Event)
    requires WellFormed(s)
    ensures Step(s, e).m == MachineStep(s.m, e)
  {
  }

  ghost function Start(chs: seq<Channel>, now: int, etsi: bool): (s: System)
    ensures WellFormed(s)
  {
    System(State(chs, now, etsi, false, false, None, STOPPED, STOPPED),
           seq(|chs|, i => Unwatched), seq(|chs|, i => None))
  }

  ghost function Run(s: System, es: seq<Event>): (r: System)
    requires WellFormed(s)
    ensures WellFormed(r)
  {
    if es == [] then s else Step(Run(s, es[..|es| - 1]), es[|es| - 1])
  }
}
