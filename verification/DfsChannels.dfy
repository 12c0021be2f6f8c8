/**
  The channel set as radar detection sees it, and the test that decides whether
  a new detection range needs a new channel availability check.

  Frequencies are in MHz.  A tuning is a centre channel with a bandwidth; its
  range reaches half the bandwidth to either side of 5000 + 5 * cch.
 */
module DfsChannels {

  import opened Basics

  datatype Band = Band24 | Band5
  datatype Width = W20 | W40 | W80 | W160
  datatype Channel = Channel(band: Band, num: int, dfs: bool, nonOcpEnd: int)
  datatype Tuning = Tuning(cch: int, bw: Width)
  function HalfWidth(bw: Width): int {
    match bw case W20 => 10 case W40 => 20 case W80 => 40 case W160 => 80
  }

  function Freq(num: int): int {
    5000 + 5 * num
  }

  function Hi(t: Tuning): int {
    Freq(t.cch) + HalfWidth(t.bw)
  }

  function Lo(t: Tuning): int {
    Freq(t.cch) - HalfWidth(t.bw)
  }

  /** `rtw_freq2ch` between 5000 and 6280 MHz. */
  function FreqToCh(f: int): int {
    (f - 5000) / 5
  }

  /** Frequencies and numbers, from channel 36 at 5180 MHz up in steps of 5 MHz. */
  lemma FrequenciesAre(num: int, f: int)
    ensures FreqToCh(Freq(num)) == num && Freq(num) == 5180 + 5 * (num - 36)
    ensures Freq(FreqToCh(f)) <= f < Freq(FreqToCh(f) + 1)
    ensures Hi(Tuning(num, W20)) == 5190 + 5 * (num - 36) && Lo(Tuning(num, W20)) == 5170 + 5 * (num - 36)
  {
  }

  /** The tunings whose ends `rtw_freq2band` and `rtw_freq2ch` place in the 5 GHz band. */
  predicate ValidTuning(t: Tuning) {
    5000 <= Lo(t) && Hi(t) < 6280
  }

  /** One channel against an open range, in channel numbers as `rtw_chset_is_dfs_range` has it. */
  predicate DfsBetween(c: Channel, hi: int, lo: int) {
    c.dfs && c.band == Band5 && FreqToCh(hi) > c.num && FreqToCh(lo) < c.num
  }

  ghost predicate IsDfsRange(chs: seq<Channel>, hi: int, lo: int) {
    exists i :: 0 <= i < |chs| && DfsBetween(chs[i], hi, lo)
  }

  /** A DFS channel inside the range of a tuning. */
  predicate DfsIn(c: Channel, t: Tuning) {
    DfsBetween(c, Hi(t), Lo(t))
  }

  predicate Within(a: Tuning, b: Tuning) {
    Hi(a) <= Hi(b) && Lo(a) >= Lo(b)
  }

  predicate Overlap(a: Tuning, b: Tuning) {
    Hi(a) > Lo(b) && Lo(a) < Hi(b)
  }

  /** No DFS channel of the set lies exactly on an end of the range. */
  ghost predicate EndsOffCentre(chs: seq<Channel>, t: Tuning) {
    forall i :: 0 <= i < |chs| ==> !OnEnd(chs[i], t)
  }

  predicate OnEnd(c: Channel, t: Tuning) {
    c.dfs && c.band == Band5 && (c.num == FreqToCh(Hi(t)) || c.num == FreqToCh(Lo(t)))
  }

  /** `rtw_chset_is_dfs_range` as it scans. */
  method ScanDfsRange(chs: array<Channel>, hi: int, lo: int) returns (found: bool)
    ensures found <==> IsDfsRange(chs[..], hi, lo)
  {
    for i := 0 to chs.Length
      invariant forall j :: 0 <= j < i ==> !DfsBetween(chs[j], hi, lo)
    {
      if DfsBetween(chs[i], hi, lo) {
        assert DfsBetween(chs[..][i], hi, lo);
        return true;
      }
    }
    return false;
  }

  /** `rtw_is_cac_reset_needed`. */
  ghost predicate ResetNeeded(chs: seq<Channel>, detected: bool, cur: Option<Tuning>, req: Tuning) {
    if detected || cur.None? then
      true
    else
      var c := cur.value;
      if Within(req, c) then
        false
      else if !Overlap(req, c) then
        true
      else if Within(c, req) then
        || (Hi(req) != Hi(c) && IsDfsRange(chs, Hi(req), Hi(c)))
        || (Lo(req) != Lo(c) && IsDfsRange(chs, Lo(c), Lo(req)))
      else
        || (Lo(req) < Lo(c) && IsDfsRange(chs, Lo(c), Lo(req)))
        || (Hi(req) > Hi(c) && IsDfsRange(chs, Hi(req), Hi(c)))
  }

  ghost predicate NewDfs(c: Channel, cur: Tuning, req: Tuning) {
    DfsIn(c, req) && !DfsIn(c, cur)
  }

  ghost predicate HasNewDfs(chs: seq<Channel>, cur: Tuning, req: Tuning) {
    exists i :: 0 <= i < |chs| && NewDfs(chs[i], cur, req)
  }

  /** What a reset is for: something radar was found on, or a DFS channel not yet watched. */
  ghost predicate UnwatchedDfs(chs: seq<Channel>, detected: bool, cur: Option<Tuning>, req: Tuning) {
    detected || cur.None? || HasNewDfs(chs, cur.value, req)
  }

  /** The blind spot: ranges overlap and every unwatched DFS channel sits on an end of the current one. */
  ghost predicate NewOnlyOnEnds(chs: seq<Channel>, cur: Tuning, req: Tuning) {
    && Overlap(req, cur) && HasNewDfs(chs, cur, req)
    && forall i :: 0 <= i < |chs| && NewDfs(chs[i], cur, req) ==> OnEnd(chs[i], cur)
  }

  /** A new channel off the ends of the current range lies strictly beyond one of them. */
  lemma NewIsBeyond(c: Channel, cur: Tuning, req: Tuning)
    ensures Overlap(req, cur) ==>
              ((NewDfs(c, cur, req) && !OnEnd(c, cur)) <==>
                 ((Hi(req) > Hi(cur) && DfsBetween(c, Hi(req), Hi(cur)))
                  || (Lo(req) < Lo(cur) && DfsBetween(c, Lo(cur), Lo(req)))))
    ensures Within(req, cur) ==> !NewDfs(c, cur, req)
    ensures !Overlap(req, cur) ==> (NewDfs(c, cur, req) <==> DfsIn(c, req))
    ensures Hi(req) <= Hi(cur) ==> !DfsBetween(c, Hi(req), Hi(cur))
    ensures Lo(req) >= Lo(cur) ==> !DfsBetween(c, Lo(cur), Lo(req))
  {
    EndsInChannels(cur);
    EndsInChannels(req);
  }

  lemma EndsInChannels(t: Tuning)
    ensures FreqToCh(Hi(t)) == t.cch + HalfWidth(t.bw) / 5 && Hi(t) == Freq(FreqToCh(Hi(t)))
    ensures FreqToCh(Lo(t)) == t.cch - HalfWidth(t.bw) / 5 && Lo(t) == Freq(FreqToCh(Lo(t)))
  {
  }

  /** Where the ranges overlap, the four cases come down to one. */
  lemma OverlapCases(chs: seq<Channel>, cur: Tuning, req: Tuning)
    requires Overlap(req, cur)
    ensures ResetNeeded(chs, false, Some(cur), req) <==>
              exists i :: 0 <= i < |chs| && NewDfs(chs[i], cur, req) && !OnEnd(chs[i], cur)
  {
    forall i | 0 <= i < |chs| ensures
      (NewDfs(chs[i], cur, req) && !OnEnd(chs[i], cur)) <==>
        (|| (Hi(req) > Hi(cur) && DfsBetween(chs[i], Hi(req), Hi(cur)))
         || (Lo(req) < Lo(cur) && DfsBetween(chs[i], Lo(cur), Lo(req))))
    {
      NewIsBeyond(chs[i], cur, req);
    }
  }

  /**
    For every request that contains a DFS channel the test is right, unless the
    only unwatched channels sit exactly on an end of the current range.
   */
  lemma ResetTestIsRightExactly(chs: seq<Channel>, detected: bool, cur: Option<Tuning>, req: Tuning)
    requires IsDfsRange(chs, Hi(req), Lo(req))
    ensures (ResetNeeded(chs, detected, cur, req) <==> UnwatchedDfs(chs, detected, cur, req))
       <==> (detected || cur.None? || !NewOnlyOnEnds(chs, cur.value, req))
  {
    if !detected && cur.Some? {
      var c := cur.value;
      if Overlap(req, c) {
        OverlapCases(chs, c, req);
      } else {
        var i :| 0 <= i < |chs| && DfsIn(chs[i], req);
        NewIsBeyond(chs[i], c, req);
        assert NewDfs(chs[i], c, req);
        assert !Within(req, c) by { EndsInChannels(c); EndsInChannels(req); }
      }
    }
  }

  /** With range ends between channels the test is right on every request. */
  lemma ResetTestIsRight(chs: seq<Channel>, detected: bool, cur: Option<Tuning>, req: Tuning)
    requires IsDfsRange(chs, Hi(req), Lo(req))
    requires cur.Some? ==> EndsOffCentre(chs, cur.value)
    ensures ResetNeeded(chs, detected, cur, req) <==> UnwatchedDfs(chs, detected, cur, req)
  {
    ResetTestIsRightExactly(chs, detected, cur, req);
  }

  /** A reset that is not asked for would have found nothing new (any request). */
  lemma NoResetNothingNew(chs: seq<Channel>, cur: Tuning, req: Tuning, i: int)
    requires !ResetNeeded(chs, false, Some(cur), req) && EndsOffCentre(chs, cur)
    requires 0 <= i < |chs| && DfsIn(chs[i], req)
    ensures DfsIn(chs[i], cur)
  {
    NewIsBeyond(chs[i], cur, req);
    if Overlap(req, cur) {
      OverlapCases(chs, cur, req);
    }
  }

  /**
    A plan that listed 229 and 231 as DFS channels would have such a pair: 231 is an
    end of the 20 MHz range around 229, so moving to it would ask for no new check.
    The channel table has both centres; no shipped plan lists 231.
   */
  lemma Channel231IsMissed()
    ensures var chs := [Channel(Band5, 229, true, 0), Channel(Band5, 231, true, 0)];
            && !ResetNeeded(chs, false, Some(Tuning(229, W20)), Tuning(231, W20))
            && DfsIn(chs[1], Tuning(231, W20)) && !DfsIn(chs[1], Tuning(229, W20))
  {
    var chs := [Channel(Band5, 229, true, 0), Channel(Band5, 231, true, 0)];
    forall i | 0 <= i < |chs| ensures !DfsBetween(chs[i], Hi(Tuning(231, W20)), Hi(Tuning(229, W20))) {
      assert chs[i].num == 229 || chs[i].num == 231;
    }
  }

  // ---------------------------------------------------------------------------
  // The shipped plans
  // ---------------------------------------------------------------------------

  /** A tuning to one of the driver's 5 GHz centre channels. */
  predicate InCentreTables(t: Tuning) {
    var c := t.cch;
    match t.bw
    case W20 => (16 <= c <= 144 && c % 4 == 0) || (149 <= c <= 229 && c % 4 == 1)
                || c == 231 || c == 235 || c == 241 || c == 245 || c == 249 || c == 251
    case W40 => (22 <= c <= 142 && c % 8 == 6) || (151 <= c <= 223 && c % 8 == 7) || c == 239 || c == 247
    case W80 => (26 <= c <= 138 && c % 16 == 10) || (155 <= c <= 219 && c % 16 == 11)
    case W160 => c == 50 || c == 114 || c == 163
  }

  /** The channels that some shipped plan marks as DFS channels. */
  predicate ShippedDfs(num: int) {
    (52 <= num <= 144 && num % 4 == 0) || (149 <= num <= 165 && num % 4 == 1)
  }

  ghost predicate ShippedPlan(chs: seq<Channel>) {
    forall i :: 0 <= i < |chs| && chs[i].band == Band5 && chs[i].dfs ==> ShippedDfs(chs[i].num)
  }

  /** With a shipped plan no DFS channel lies on an end of any of the driver's tunings. */
  lemma ShippedPlansAreOffEnds(chs: seq<Channel>, t: Tuning)
    requires ShippedPlan(chs) && InCentreTables(t)
    ensures ValidTuning(t) && EndsOffCentre(chs, t)
  {
    forall i | 0 <= i < |chs| ensures !OnEnd(chs[i], t) {
      if chs[i].band == Band5 && chs[i].dfs {
        ShippedIsOffEnds(chs[i].num, t);
      }
    }
    ShippedIsOffEnds(52, t);
  }

  lemma Remainder(x: int, q: int, r: int)
    requires x == 4 * q + r && 0 <= r < 4
    ensures x % 4 == r
  {
  }

  lemma Ends20(c: int)
    requires c % 4 <= 1
    ensures (c + 2) % 4 >= 2 && (c - 2) % 4 >= 2
  {
    Remainder(c + 2, c / 4, c % 4 + 2);
    Remainder(c - 2, c / 4 - 1, c % 4 + 2);
  }

  lemma Ends40(c: int)
    requires c % 8 >= 6
    ensures (c + 4) % 4 >= 2 && (c - 4) % 4 >= 2
  {
    Remainder(c + 4, 2 * (c / 8) + 2, c % 8 - 4);
    Remainder(c - 4, 2 * (c / 8), c % 8 - 4);
  }

  lemma Ends80(c: int)
    requires 10 <= c % 16 <= 11
    ensures (c + 8) % 4 >= 2 && (c - 8) % 4 >= 2
  {
    Remainder(c + 8, 4 * (c / 16) + 4, c % 16 - 8);
    Remainder(c - 8, 4 * (c / 16), c % 16 - 8);
  }

  /** Range ends below the last DFS channel leave a remainder that no channel leaves. */
  ghost predicate BetweenChannels(e: int) {
    e > 165 || e % 4 >= 2
  }

  lemma EndsBetweenChannels(t: Tuning)
    requires InCentreTables(t)
    ensures ValidTuning(t)
    ensures BetweenChannels(t.cch + HalfWidth(t.bw) / 5) && BetweenChannels(t.cch - HalfWidth(t.bw) / 5)
  {
    match t.bw
    case W20 =>
      if t.cch <= 229 {
        Ends20(t.cch);
      }
    case W40 => Ends40(t.cch);
    case W80 => Ends80(t.cch);
    case W160 =>
  }

  lemma ShippedIsOffEnds(num: int, t: Tuning)
    requires ShippedDfs(num) && InCentreTables(t)
    ensures ValidTuning(t) && num != FreqToCh(Hi(t)) && num != FreqToCh(Lo(t))
  {
    EndsBetweenChannels(t);
    EndsInChannels(t);
  }
}
