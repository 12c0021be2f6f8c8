/**
  The choice of a channel: a scan over bandwidths and channels that keeps a
  running best, ordered by waiting time, interference, bandwidth and closeness to
  the current channel.
 */
module ChannelSearch {

  import opened Basics
  import opened DfsChannels

  type Offset = nat

  /** A channel of the set, with its RTW_CHF_DIS flag and its interference time. */
  datatype Chan = Chan(band: Band, num: int, disabled: bool, interference: nat)

  /** The driver's tables and checks; a bandwidth is numbered from 0 for 20 MHz. */
  datatype Radio = Radio(
    supports: nat -> bool,                                  // hal_is_bw_support
    max2g: nat, max5g: nat,                                 // REGSTY_BW_2G, REGSTY_BW_5G
    offset: (Band, int, nat, Offset) -> Option<Offset>,     // rtw_get_offset_by_bchbw, given the offset passed in
    valid: (Band, int, nat, Offset) -> bool,                // rtw_chset_is_bchbw_valid
    dfs: (Band, int, nat, Offset) -> bool,                  // rtw_chset_is_dfs_bchbw
    waitingMs: (Band, int, nat, Offset) -> nat)             // rtw_get_ch_waiting_ms

  datatype Request = Request(
    selBand: Option<Band>, selCh: int, maxBw: nat,
    wantDfs: bool, refuseDfs: bool,                         // RTW_CHF_DFS in e_flags, d_flags
    curBand: Band, curCh: int, sameBandOnly: bool,
    byInterference: bool, meshOnly: bool)

  datatype Search = Search(radio: Radio, req: Request, chs: seq<Chan>, offset0: Offset)

  // ---------------------------------------------------------------------------
  // Eligible pairs
  // ---------------------------------------------------------------------------

  /** The filters in front of the offset look-up. */
  predicate Passes(s: Search, bw: nat, i: nat)
    requires i < |s.chs|
  {
    var c, q := s.chs[i], s.req;
    && s.radio.supports(bw)
    && !c.disabled
    && (if q.selBand.Some? then c.band == q.selBand.value else q.sameBandOnly ==> c.band == q.curBand)
    && (q.selCh != 0 ==> c.num == q.selCh)
    && (c.band == Band24 ==> bw <= s.radio.max2g)
    && (c.band == Band5 ==> bw <= s.radio.max5g)
    && !(q.meshOnly && c.band == Band24 && 5 <= c.num <= 9 && bw > 0)
  }

  function Lookup(s: Search, bw: nat, i: nat, carried: Offset): Option<Offset>
    requires i < |s.chs|
  {
    if Passes(s, bw, i) then s.radio.offset(s.chs[i].band, s.chs[i].num, bw, carried) else None
  }

  function Left(o: Option<Offset>, carried: Offset): Offset {
    if o.Some? then o.value else carried
  }

  /**
    The value in the offset variable when the scan reaches a pair.  It is carried
    from pair to pair because 2.4 GHz channels 5 to 9 obey it at 40 MHz.
   */
  function Carried(s: Search, bw: nat, i: nat): Offset
    requires i <= |s.chs|
    decreases bw, i
  {
    if i > 0 then
      var before := Carried(s, bw, i - 1);
      Left(Lookup(s, bw, i - 1, before), before)
    else if bw > 0 then Carried(s, bw - 1, |s.chs|)
    else s.offset0
  }

  function OffsetOf(s: Search, bw: nat, i: nat): Option<Offset>
    requires i < |s.chs|
  {
    Lookup(s, bw, i, Carried(s, bw, i))
  }

  predicate Eligible(s: Search, bw: nat, i: nat)
    requires i < |s.chs|
  {
    var c, o := s.chs[i], OffsetOf(s, bw, i);
    && o.Some?
    && s.radio.valid(c.band, c.num, bw, o.value)
    && (s.req.wantDfs ==> s.radio.dfs(c.band, c.num, bw, o.value))
    && (s.req.refuseDfs ==> !s.radio.dfs(c.band, c.num, bw, o.value))
  }

  // ---------------------------------------------------------------------------
  // The order
  // ---------------------------------------------------------------------------

  function WaitingOf(s: Search, bw: nat, i: nat): nat
    requires i < |s.chs|
  {
    s.radio.waitingMs(s.chs[i].band, s.chs[i].num, bw, Left(OffsetOf(s, bw, i), 0))
  }

  function InterferenceOf(s: Search, i: nat): nat
    requires i < |s.chs|
  {
    if s.req.byInterference then s.chs[i].interference else 0
  }

  /** Distance from the current channel: the same, in the same band, elsewhere. */
  function Distance(q: Request, band: Band, num: int): nat {
    if band == q.curBand && num == q.curCh then 0 else if band == q.curBand then 1 else 2
  }

  datatype Score = Score(waiting: nat, interference: nat, bw: nat, distance: nat)

  function ScoreOf(s: Search, bw: nat, i: nat): Score
    requires i < |s.chs|
  {
    Score(WaitingOf(s, bw, i), InterferenceOf(s, i), bw, Distance(s.req, s.chs[i].band, s.chs[i].num))
  }

  /** Smaller waiting time, then less interference, then wider, then closer. */
  predicate Better(a: Score, b: Score) {
    || a.waiting < b.waiting
    || (a.waiting == b.waiting && a.interference < b.interference)
    || (a.waiting == b.waiting && a.interference == b.interference && a.bw > b.bw)
    || (a.waiting == b.waiting && a.interference == b.interference && a.bw == b.bw && a.distance < b.distance)
  }

  /** The order is strict and total on scores, so that "optimal" means one score. */
  lemma BetterIsStrictTotal(a: Score, b: Score, c: Score)
    ensures !Better(a, a)
    ensures Better(a, b) && Better(b, c) ==> Better(a, c)
    ensures Better(a, b) || Better(b, a) || a == b
  {
  }

  /** Pair (b, j) comes before pair (bw, i) in the scan. */
  predicate Before(b: nat, j: nat, bw: nat, i: nat) {
    b < bw || (b == bw && j < i)
  }

  ghost predicate NoneBefore(s: Search, bw: nat, i: nat) {
    forall b: nat, j: nat :: j < |s.chs| && Before(b, j, bw, i) ==> !Eligible(s, b, j)
  }

  /** (pb, pi) is the first optimal pair among those before (bw, i). */
  ghost predicate FirstBest(s: Search, pb: nat, pi: nat, bw: nat, i: nat) {
    && pi < |s.chs| && Before(pb, pi, bw, i) && Eligible(s, pb, pi)
    && (forall b: nat, j: nat :: j < |s.chs| && Before(b, j, bw, i) && Eligible(s, b, j) ==>
          !Better(ScoreOf(s, b, j), ScoreOf(s, pb, pi)))
    && (forall b: nat, j: nat :: j < |s.chs| && Before(b, j, pb, pi) && Eligible(s, b, j) ==>
          Better(ScoreOf(s, pb, pi), ScoreOf(s, b, j)))
  }

  // ---------------------------------------------------------------------------
  // What the choice means
  // ---------------------------------------------------------------------------

  /** A pair is in the running exactly if nothing in the request, the set or the tables speaks against it. */
  lemma EligibleMeans(s: Search, bw: nat, i: nat)
    requires i < |s.chs|
    ensures var c, q, o := s.chs[i], s.req, s.radio.offset(s.chs[i].band, s.chs[i].num, bw, Carried(s, bw, i));
            Eligible(s, bw, i) <==>
              && !c.disabled && s.radio.supports(bw)
              && bw <= (if c.band == Band24 then s.radio.max2g else s.radio.max5g)
              && (q.selCh == 0 || q.selCh == c.num)
              && (q.selBand == None || q.selBand == Some(c.band))
              && (q.selBand == None && q.sameBandOnly ==> c.band == q.curBand)
              && !(q.meshOnly && bw > 0 && c.band == Band24 && c.num in {5, 6, 7, 8, 9})
              && o.Some? && s.radio.valid(c.band, c.num, bw, o.value)
              && (q.wantDfs ==> s.radio.dfs(c.band, c.num, bw, o.value))
              && (q.refuseDfs ==> !s.radio.dfs(c.band, c.num, bw, o.value))
  {
  }

  /**
    The choice waits as short as any eligible pair; of those that do, none has less
    interference, if that counts; of those, none is wider; and of those, the current
    channel comes before its band, and its band before the other.
   */
  lemma ChoiceWaitsLeast(s: Search, pb: nat, pi: nat, b: nat, j: nat)
    requires FirstBest(s, pb, pi, s.req.maxBw + 1, 0)
    requires j < |s.chs| && b <= s.req.maxBw && Eligible(s, b, j)
    ensures WaitingOf(s, pb, pi) <= WaitingOf(s, b, j)
    ensures var counts, c, d := s.req.byInterference, s.chs[pi], s.chs[j];
            WaitingOf(s, pb, pi) == WaitingOf(s, b, j) ==>
              && (counts ==> c.interference <= d.interference)
              && (!counts || c.interference == d.interference ==>
                    && pb >= b
                    && (pb == b && d.band == s.req.curBand ==> c.band == s.req.curBand)
                    && (pb == b && d.band == s.req.curBand && d.num == s.req.curCh ==> c.num == s.req.curCh))
  {
    assert Before(b, j, s.req.maxBw + 1, 0);
    assert !Better(ScoreOf(s, b, j), ScoreOf(s, pb, pi));
  }

  datatype Choice = Choice(bw: nat, idx: nat, offset: Offset)

  /** The running best is still the best after one more pair, or that pair is. */
  lemma OneMore(s: Search, pb: nat, pi: nat, bw: nat, i: nat)
    requires i < |s.chs| && FirstBest(s, pb, pi, bw, i)
    ensures !Eligible(s, bw, i) ==> FirstBest(s, pb, pi, bw, i + 1)
    ensures Eligible(s, bw, i) && !Better(ScoreOf(s, bw, i), ScoreOf(s, pb, pi)) ==> FirstBest(s, pb, pi, bw, i + 1)
    ensures Eligible(s, bw, i) && Better(ScoreOf(s, bw, i), ScoreOf(s, pb, pi)) ==> FirstBest(s, bw, i, bw, i + 1)
  {
    var best, next := ScoreOf(s, pb, pi), ScoreOf(s, bw, i);
    if Eligible(s, bw, i) && Better(next, best) {
      forall b: nat, j: nat | j < |s.chs| && Before(b, j, bw, i) && Eligible(s, b, j)
        ensures Better(next, ScoreOf(s, b, j)) && !Better(ScoreOf(s, b, j), next)
      {
        BetterIsStrictTotal(next, best, ScoreOf(s, b, j));
        BetterIsStrictTotal(best, ScoreOf(s, b, j), next);
        BetterIsStrictTotal(ScoreOf(s, b, j), next, best);
      }
    }
  }

  lemma RowDone(s: Search, bw: nat)
    ensures NoneBefore(s, bw, |s.chs|) ==> NoneBefore(s, bw + 1, 0)
    ensures forall pb: nat, pi: nat :: FirstBest(s, pb, pi, bw, |s.chs|) ==> FirstBest(s, pb, pi, bw + 1, 0)
  {
    assert forall b: nat, j: nat :: j < |s.chs| ==> (Before(b, j, bw + 1, 0) <==> Before(b, j, bw, |s.chs|));
    forall pb: nat, pi: nat | FirstBest(s, pb, pi, bw, |s.chs|)
      ensures FirstBest(s, pb, pi, bw + 1, 0)
    {
    }
  }

  lemma UnsupportedRow(s: Search, bw: nat, i: nat)
    requires !s.radio.supports(bw) && i <= |s.chs|
    ensures Carried(s, bw, i) == Carried(s, bw, 0)
    ensures NoneBefore(s, bw, 0) ==> NoneBefore(s, bw, i)
    ensures forall pb: nat, pi: nat :: FirstBest(s, pb, pi, bw, 0) ==> FirstBest(s, pb, pi, bw, i)
  {
    if i > 0 {
      UnsupportedRow(s, bw, i - 1);
    }
    forall pb: nat, pi: nat | FirstBest(s, pb, pi, bw, 0)
      ensures FirstBest(s, pb, pi, bw, i)
    {
    }
  }

  /** The chain of conditions that replaces the running best, as the driver writes it. */
  predicate Replaces(q: Request, waiting: nat, factor: nat, bw: nat, c: Chan,
                     minWaiting: nat, factorC: nat, bwC: nat, bandC: Band, chC: int) {
    || minWaiting > waiting
    || (minWaiting == waiting && factorC > factor)
    || (minWaiting == waiting && factorC == factor && bw > bwC)
    || (minWaiting == waiting && factorC == factor && bw == bwC
        && (|| ((q.curBand != bandC || q.curCh != chC) && q.curBand == c.band && q.curCh == c.num)
            || (q.curBand != bandC && q.curBand == c.band)))
  }

  lemma ReplacesIsBetter(q: Request, waiting: nat, factor: nat, bw: nat, c: Chan,
                         minWaiting: nat, factorC: nat, bwC: nat, bandC: Band, chC: int)
    ensures Replaces(q, waiting, factor, bw, c, minWaiting, factorC, bwC, bandC, chC)
       <==> Better(Score(waiting, factor, bw, Distance(q, c.band, c.num)),
                   Score(minWaiting, factorC, bwC, Distance(q, bandC, chC)))
  {
  }

  /** The checks of one round: whether the pair is eligible, and what it is worth. */
  method JudgePair(s: Search, bw: nat, i: nat, offset0: Offset)
    returns (ok: bool, offset: Offset, waiting: nat, factor: nat)
    requires i < |s.chs| && s.radio.supports(bw) && offset0 == Carried(s, bw, i)
    ensures offset == Carried(s, bw, i + 1) && (ok <==> Eligible(s, bw, i))
    ensures ok ==> Is(s, bw, i, s.chs[i].band, s.chs[i].num, offset, waiting, factor)
  {
    var c := s.chs[i];
    ok, offset, waiting, factor := false, offset0, 0, 0;
    if !Passes(s, bw, i) {
      return;
    }
    var o := s.radio.offset(c.band, c.num, bw, offset);
    if o.None? {
      return;
    }
    offset := o.value;
    if !s.radio.valid(c.band, c.num, bw, offset) {
      return;
    }
    if s.req.wantDfs || s.req.refuseDfs {
      var dfsCh := s.radio.dfs(c.band, c.num, bw, offset);
      if (s.req.wantDfs && !dfsCh) || (s.req.refuseDfs && dfsCh) {
        return;
      }
    }
    waiting := s.radio.waitingMs(c.band, c.num, bw, offset);
    factor := if s.req.byInterference then c.interference else 0;
    ok := true;
  }

  /**
    `rtw_choose_shortest_waiting_ch`: nothing exactly when no pair is eligible,
    otherwise the first optimal pair of the scan.
   */
  method ChooseShortestWaiting(s: Search) returns (dec: Option<Choice>)
    requires forall i :: 0 <= i < |s.chs| ==> s.chs[i].num != 0
    ensures dec.None? <==> NoneBefore(s, s.req.maxBw + 1, 0)
    ensures dec.Some? ==> FirstBest(s, dec.value.bw, dec.value.idx, s.req.maxBw + 1, 0)
    ensures dec.Some? ==> OffsetOf(s, dec.value.bw, dec.value.idx) == Some(dec.value.offset)
  {
    var offset := s.offset0;
    var bandC, chC := Band24, 0;
    var bwC: nat, idxC: nat, offsetC: Offset, minWaiting: nat, factorC: nat := 0, 0, 0, 0, 0;
    var bw := 0;
    while bw <= s.req.maxBw
      invariant 0 <= bw <= s.req.maxBw + 1
      invariant offset == Carried(s, bw, 0)
      invariant chC == 0 ==> NoneBefore(s, bw, 0)
      invariant chC != 0 ==> FirstBest(s, bwC, idxC, bw, 0) && Is(s, bwC, idxC, bandC, chC, offsetC, minWaiting, factorC)
      decreases s.req.maxBw + 1 - bw
    {
      if !s.radio.supports(bw) {
        UnsupportedRow(s, bw, |s.chs|);
      } else {
        for i := 0 to |s.chs|
          invariant offset == Carried(s, bw, i)
          invariant chC == 0 ==> NoneBefore(s, bw, i)
          invariant chC != 0 ==> FirstBest(s, bwC, idxC, bw, i) && Is(s, bwC, idxC, bandC, chC, offsetC, minWaiting, factorC)
        {
          var c := s.chs[i];
          if chC != 0 {
            OneMore(s, bwC, idxC, bw, i);
          }
          var ok, waiting, factor;
          ok, offset, waiting, factor := JudgePair(s, bw, i, offset);
          if !ok {
            continue;
          }
          ReplacesIsBetter(s.req, waiting, factor, bw, c, minWaiting, factorC, bwC, bandC, chC);
          if chC == 0 || Replaces(s.req, waiting, factor, bw, c, minWaiting, factorC, bwC, bandC, chC) {
            bandC, chC, bwC, offsetC, minWaiting, factorC, idxC := c.band, c.num, bw, offset, waiting, factor, i;
          }
        }
      }
      RowDone(s, bw);
      bw := bw + 1;
    }
    dec := if chC != 0 then Some(Choice(bwC, idxC, offsetC)) else None;
  }

  /** The variables of the running best describe pair (bw, i). */
  ghost predicate Is(s: Search, bw: nat, i: nat, band: Band, num: int, offset: Offset, waiting: nat, factor: nat) {
    && i < |s.chs| && s.chs[i].band == band && s.chs[i].num == num
    && OffsetOf(s, bw, i) == Some(offset)
    && ScoreOf(s, bw, i) == Score(waiting, factor, bw, Distance(s.req, band, num))
  }
}
