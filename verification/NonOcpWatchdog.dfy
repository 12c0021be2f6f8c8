/**
  The non-occupancy watchdog: one pass stops every expired channel and reports
  them in groups, widest bandwidth first.
 */
module NonOcpWatchdog {

  import opened Basics
  import opened DfsChannels
  import opened RadarDetection

  type Offset = nat

  /**
    The channel tables: the offset of a channel at a bandwidth (which for some
    channels obeys the offset passed in) and the 20 MHz channels of the resulting
    group; an empty group where there is none.
   */
  datatype Tables = Tables(
    offset: (Band, int, Width, Offset) -> Option<Offset>,
    group: (Band, int, Width, Offset) -> seq<int>)

  /** At 20 MHz the group of a channel is the channel itself. */
  ghost predicate Addressable(tables: Tables, c: Channel) {
    && c.num > 0
    && (forall o: Offset :: tables.offset(c.band, c.num, W20, o).Some?)
    && (forall o: Offset :: tables.group(c.band, c.num, W20, o) == [c.num])
  }

  /** An event: a group of channels of one band whose non-occupancy ended. */
  datatype Finish = Finish(band: Band, bw: Width, chs: seq<int>)

  predicate Is(c: Channel, band: Band, num: int) {
    c.band == band && c.num == num
  }

  predicate Names(e: Finish, c: Channel) {
    c.band == e.band && c.num in e.chs
  }

  /** A band and number name at most one channel of the set. */
  ghost predicate Unique(chs: seq<Channel>) {
    forall i, j :: 0 <= i < j < |chs| ==> !Is(chs[j], chs[i].band, chs[i].num)
  }

  predicate Expired(c: Channel, now: int) {
    c.nonOcpEnd != STOPPED && !NonOcp(c, now)
  }

  /** `_rtw_chset_search_bch`, disabled channels included. */
  method Search(chs: array<Channel>, band: Band, num: int) returns (idx: int)
    requires Unique(chs[..])
    ensures -1 <= idx < chs.Length
    ensures 0 <= idx ==> num != 0 && Is(chs[idx], band, num)
    ensures idx < 0 && num != 0 ==> forall i :: 0 <= i < chs.Length ==> !Is(chs[i], band, num)
    ensures forall i :: 0 <= i < chs.Length && Is(chs[i], band, num) && num != 0 ==> i == idx
  {
    if num == 0 {
      return -1;
    }
    for i := 0 to chs.Length
      invariant forall j :: 0 <= j < i ==> !Is(chs[j], band, num)
    {
      if Is(chs[i], band, num) {
        assert forall j :: 0 <= j < chs.Length ==> chs[..][j] == chs[j];
        return i;
      }
    }
    return -1;
  }

  /** How far a pass has come, in terms of the channels it started from. */
  ghost predicate Progress(was: seq<Channel>, now: int, chs: seq<Channel>, events: seq<Finish>) {
    && |chs| == |was|
    // a channel is as it was, or it had expired, was reported, and is stopped
    && (forall i :: 0 <= i < |was| ==>
          if exists k :: 0 <= k < |events| && Names(events[k], was[i])
          then Expired(was[i], now) && chs[i] == was[i].(nonOcpEnd := STOPPED)
          else chs[i] == was[i])
    // reports name channels of the set only
    && (forall k, n :: 0 <= k < |events| && n in events[k].chs ==>
          exists i :: 0 <= i < |was| && Is(was[i], events[k].band, n))
    // and no channel twice
    && Disjoint(events)
  }

  ghost predicate Disjoint(events: seq<Finish>) {
    forall k, l, n :: 0 <= k < l < |events| && events[k].band == events[l].band ==>
      !(n in events[k].chs && n in events[l].chs)
  }

  ghost predicate WidestFirst(events: seq<Finish>, bw: Width) {
    && (forall k, l :: 0 <= k < l < |events| ==> HalfWidth(events[k].bw) >= HalfWidth(events[l].bw))
    && (forall k :: 0 <= k < |events| ==> HalfWidth(events[k].bw) >= HalfWidth(bw))
  }

  ghost predicate AllExpired(chs: seq<Channel>, now: int, band: Band, group: seq<int>) {
    forall n :: n in group ==> exists i :: 0 <= i < |chs| && Is(chs[i], band, n) && Expired(chs[i], now)
  }

  // ---------------------------------------------------------------------------
  // One pass, on values
  // ---------------------------------------------------------------------------

  /** How far a pass has come: the channels, the reports, and the offset variable. */
  datatype Pass = Pass(chs: seq<Channel>, events: seq<Finish>, offset: Offset)

  /** A group that can be reported: known channels only, and all expired. */
  ghost predicate GroupReady(chs: seq<Channel>, now: int, band: Band, group: seq<int>) {
    group != [] && 0 !in group && AllExpired(chs, now, band, group)
  }

  function StopOne(c: Channel, band: Band, group: seq<int>): Channel {
    if c.band == band && c.num in group then c.(nonOcpEnd := STOPPED) else c
  }

  function Stopped(chs: seq<Channel>, band: Band, group: seq<int>): (r: seq<Channel>)
    ensures |r| == |chs| && forall i :: 0 <= i < |r| ==> r[i] == StopOne(chs[i], band, group)
  {
    seq(|chs|, i requires 0 <= i < |chs| => StopOne(chs[i], band, group))
  }

  /** One channel at one bandwidth: skipped when stopped or unknown, else its group is looked at. */
  ghost function Visit(tables: Tables, now: int, bw: Width, p: Pass, i: nat): (q: Pass)
    requires i < |p.chs|
    ensures |q.chs| == |p.chs|
  {
    var c := p.chs[i];
    var o := tables.offset(c.band, c.num, bw, p.offset);
    if c.nonOcpEnd == STOPPED || o.None? then p
    else
      var e := Finish(c.band, bw, tables.group(c.band, c.num, bw, o.value));
      if GroupReady(p.chs, now, e.band, e.chs)
      then Pass(Stopped(p.chs, e.band, e.chs), p.events + [e], o.value)
      else p.(offset := o.value)
  }

  ghost function SweepTo(tables: Tables, now: int, bw: Width, p: Pass, n: nat): (q: Pass)
    requires n <= |p.chs|
    ensures |q.chs| == |p.chs|
  {
    if n == 0 then p else Visit(tables, now, bw, SweepTo(tables, now, bw, p, n - 1), n - 1)
  }

  ghost function SweepAll(tables: Tables, now: int, bw: Width, p: Pass): (q: Pass)
    ensures |q.chs| == |p.chs|
  {
    SweepTo(tables, now, bw, p, |p.chs|)
  }

  /** `rtw_rfctl_chset_chk_non_ocp_finish`: four sweeps, widest first. */
  ghost function WholePass(tables: Tables, now: int, chs: seq<Channel>, offset0: Offset): (q: Pass)
    ensures |q.chs| == |chs|
  {
    var a := SweepAll(tables, now, W160, Pass(chs, [], offset0));
    var b := SweepAll(tables, now, W80, a);
    var c := SweepAll(tables, now, W40, b);
    SweepAll(tables, now, W20, c)
  }

  // ---------------------------------------------------------------------------
  // What a pass keeps, visit by visit
  // ---------------------------------------------------------------------------

  /** A channel of an expired group was still running, hence not reported before. */
  lemma GroupNotReported(was: seq<Channel>, now: int, chs: seq<Channel>, events: seq<Finish>, e: Finish)
    requires Unique(was) && Progress(was, now, chs, events) && AllExpired(chs, now, e.band, e.chs)
    ensures forall i :: 0 <= i < |was| && Names(e, was[i]) ==>
              chs[i] == was[i] && Expired(was[i], now)
              && forall k :: 0 <= k < |events| ==> !Names(events[k], was[i])
  {
    forall i | 0 <= i < |was| && Names(e, was[i])
      ensures chs[i] == was[i] && Expired(was[i], now)
      ensures forall k :: 0 <= k < |events| ==> !Names(events[k], was[i])
    {
      var j :| 0 <= j < |chs| && Is(chs[j], e.band, was[i].num) && Expired(chs[j], now);
      assert Is(was[j], was[i].band, was[i].num) && Is(was[i], was[j].band, was[j].num);
      assert i == j;
    }
  }

  /** The group's numbers name channels of the set. */
  lemma GroupInSet(was: seq<Channel>, now: int, chs: seq<Channel>, events: seq<Finish>, e: Finish)
    requires Progress(was, now, chs, events) && AllExpired(chs, now, e.band, e.chs)
    ensures forall n :: n in e.chs ==> exists i :: 0 <= i < |was| && Is(was[i], e.band, n)
  {
    forall n | n in e.chs ensures exists i :: 0 <= i < |was| && Is(was[i], e.band, n) {
      var j :| 0 <= j < |chs| && Is(chs[j], e.band, n) && Expired(chs[j], now);
      assert Is(was[j], e.band, n);
    }
  }

  /** Reporting a group that has wholly expired carries the pass on. */
  lemma ProgressGroup(was: seq<Channel>, now: int, chs: seq<Channel>, events: seq<Finish>,
                      e: Finish, chs': seq<Channel>)
    requires Unique(was) && Progress(was, now, chs, events) && |chs'| == |chs|
    requires AllExpired(chs, now, e.band, e.chs)
    requires forall i :: 0 <= i < |chs| ==>
               chs'[i] == if chs[i].band == e.band && chs[i].num in e.chs
                          then chs[i].(nonOcpEnd := STOPPED) else chs[i]
    ensures Progress(was, now, chs', events + [e])
  {
    var es := events + [e];
    GroupNotReported(was, now, chs, events, e);
    GroupInSet(was, now, chs, events, e);
    forall i | 0 <= i < |was|
      ensures if exists k :: 0 <= k < |es| && Names(es[k], was[i])
              then Expired(was[i], now) && chs'[i] == was[i].(nonOcpEnd := STOPPED)
              else chs'[i] == was[i]
    {
      assert es[|events|] == e;
      assert forall k :: 0 <= k < |events| ==> es[k] == events[k];
    }
    forall k, n | 0 <= k < |events| && events[k].band == e.band && n in e.chs
      ensures n !in events[k].chs
    {
      var j :| 0 <= j < |was| && Is(was[j], e.band, n);
      assert Names(e, was[j]);
      assert !Names(events[k], was[j]);
    }
  }

  /** The event is the tables' group of the channel at the event's bandwidth. */
  ghost predicate IsGroup(tables: Tables, c: Channel, e: Finish, carried: Offset) {
    && e.band == c.band
    && tables.offset(c.band, c.num, e.bw, carried).Some?
    && e.chs == tables.group(c.band, c.num, e.bw, tables.offset(c.band, c.num, e.bw, carried).value)
  }

  /** The group of some channel of the set whose period had not been stopped. */
  ghost predicate FromTables(tables: Tables, was: seq<Channel>, e: Finish) {
    e.chs != [] && exists i, o :: 0 <= i < |was| && was[i].nonOcpEnd != STOPPED && IsGroup(tables, was[i], e, o)
  }

  /** What holds between two visits of a sweep at a bandwidth. */
  ghost predicate PassFacts(tables: Tables, was: seq<Channel>, now: int, bw: Width, p: Pass) {
    && Unique(was) && Unique(p.chs)
    && Progress(was, now, p.chs, p.events)
    && WidestFirst(p.events, bw)
    && forall k :: 0 <= k < |p.events| ==> FromTables(tables, was, p.events[k])
  }

  /** The same, folded until somebody mentions `Unfold`. */
  ghost predicate PassOk(tables: Tables, was: seq<Channel>, now: int, bw: Width, p: Pass) {
    |p.chs| == |was| && forall b {:trigger Unfold(b)} :: Unfold(b) ==> PassFacts(tables, was, now, bw, p)
  }

  lemma WidestMore(events: seq<Finish>, bw: Width, e: Finish)
    requires WidestFirst(events, bw) && e.bw == bw
    ensures WidestFirst(events + [e], bw)
  {
  }

  lemma StoppedIsUnique(chs: seq<Channel>, band: Band, group: seq<int>)
    requires Unique(chs)
    ensures Unique(Stopped(chs, band, group))
  {
    var r := Stopped(chs, band, group);
    assert forall i :: 0 <= i < |r| ==> r[i].band == chs[i].band && r[i].num == chs[i].num;
  }

  lemma VisitKeeps(tables: Tables, was: seq<Channel>, now: int, bw: Width, p: Pass, i: nat)
    requires PassOk(tables, was, now, bw, p) && i < |was|
    ensures var q := Visit(tables, now, bw, p, i);
            PassOk(tables, was, now, bw, q) && p.events <= q.events
  {
    assert Unfold(true);
    var q, c := Visit(tables, now, bw, p, i), p.chs[i];
    if q.events != p.events {
      var e := q.events[|p.events|];
      ProgressGroup(was, now, p.chs, p.events, e, q.chs);
      StoppedIsUnique(p.chs, e.band, e.chs);
      WidestMore(p.events, bw, e);
      assert was[i].band == c.band && was[i].num == c.num && was[i].nonOcpEnd != STOPPED;
      assert IsGroup(tables, was[i], e, p.offset);
    }
  }

  lemma {:induction false} SweepKeeps(tables: Tables, was: seq<Channel>, now: int, bw: Width, p: Pass, n: nat)
    requires PassOk(tables, was, now, bw, p) && n <= |was|
    ensures var q := SweepTo(tables, now, bw, p, n);
            PassOk(tables, was, now, bw, q) && p.events <= q.events
  {
    if n > 0 {
      var m := n - 1;
      SweepKeeps(tables, was, now, bw, p, m);
      var before := SweepTo(tables, now, bw, p, m);
      VisitKeeps(tables, was, now, bw, before, m);
      assert SweepTo(tables, now, bw, p, n) == Visit(tables, now, bw, before, m);
    }
  }

  // ---------------------------------------------------------------------------
  // A wholly expired group meets a report at least as wide
  // ---------------------------------------------------------------------------

  function GroupAt(tables: Tables, c: Channel, w: Width, carried: Offset): seq<int> {
    var o := tables.offset(c.band, c.num, w, carried);
    if o.Some? then tables.group(c.band, c.num, w, o.value) else []
  }

  /** Whatever the offset variable holds, the channel's group at the width contains it and could be reported. */
  ghost predicate Reportable(tables: Tables, was: seq<Channel>, now: int, c: Channel, w: Width) {
    forall o: Offset ::
      var g := GroupAt(tables, c, w, o);
      c.num in g && GroupReady(was, now, c.band, g)
  }

  /** A report at least as wide names a channel of such a group. */
  ghost predicate Met(tables: Tables, events: seq<Finish>, c: Channel, w: Width) {
    exists k, o: Offset, n ::
      0 <= k < |events| && HalfWidth(events[k].bw) >= HalfWidth(w) && events[k].band == c.band
      && n in events[k].chs && n in GroupAt(tables, c, w, o)
  }

  /** A channel that had expired and is not any more is named by a report. */
  lemma NotExpiredIsNamed(was: seq<Channel>, now: int, chs: seq<Channel>, events: seq<Finish>, j: nat)
    requires Progress(was, now, chs, events) && j < |was| && Expired(was[j], now) && !Expired(chs[j], now)
    ensures exists k :: 0 <= k < |events| && Names(events[k], was[j])
  {
  }

  lemma VisitMeets(tables: Tables, was: seq<Channel>, now: int, bw: Width, p: Pass, i: nat)
    requires PassOk(tables, was, now, bw, p) && i < |was|
    requires Reportable(tables, was, now, was[i], bw)
    ensures Met(tables, Visit(tables, now, bw, p, i).events, was[i], bw)
  {
    assert Unfold(true);
    var c, q := was[i], Visit(tables, now, bw, p, i);
    var g := GroupAt(tables, c, bw, p.offset);
    assert c.num in g && GroupReady(was, now, c.band, g);
    assert p.chs[i].band == c.band && p.chs[i].num == c.num;
    if GroupReady(p.chs, now, c.band, g) && p.chs[i].nonOcpEnd != STOPPED {
      assert q.events[|p.events|] == Finish(c.band, bw, g);
      assert c.num in q.events[|p.events|].chs;
    } else {
      var j := OneStopped(was, now, p, c, g, i);
      NotExpiredIsNamed(was, now, p.chs, p.events, j);
      var k :| 0 <= k < |p.events| && Names(p.events[k], was[j]);
      assert q.events == p.events;
      assert was[j].num in p.events[k].chs && was[j].num in g;
    }
  }

  lemma SameOne(chs: seq<Channel>, i: nat, j: nat, band: Band, num: int)
    requires Unique(chs) && i < |chs| && j < |chs| && Is(chs[i], band, num) && Is(chs[j], band, num)
    ensures i == j
  {
    assert Is(chs[i], chs[j].band, chs[j].num) && Is(chs[j], chs[i].band, chs[i].num);
  }

  /** The channel that an expired group's number names. */
  lemma ExpiredMember(chs: seq<Channel>, now: int, band: Band, group: seq<int>, n: int) returns (j: nat)
    requires AllExpired(chs, now, band, group) && n in group
    ensures j < |chs| && Is(chs[j], band, n) && Expired(chs[j], now)
  {
    j :| 0 <= j < |chs| && Is(chs[j], band, n) && Expired(chs[j], now);
  }

  /** A number of the group that names no expired channel any more. */
  lemma LostMember(chs: seq<Channel>, now: int, band: Band, group: seq<int>) returns (n: int)
    requires group != [] && 0 !in group && !GroupReady(chs, now, band, group)
    ensures n in group && forall l :: 0 <= l < |chs| && Is(chs[l], band, n) ==> !Expired(chs[l], now)
  {
    n :| n in group && forall l :: 0 <= l < |chs| && Is(chs[l], band, n) ==> !Expired(chs[l], now);
  }

  /** If a group was ready and is not, or its channel is stopped, one of its channels was stopped. */
  lemma OneStopped(was: seq<Channel>, now: int, p: Pass, c: Channel, g: seq<int>, i: nat) returns (j: nat)
    requires Unique(was) && |p.chs| == |was| && i < |was| && was[i] == c && c.num in g
    requires Progress(was, now, p.chs, p.events)
    requires GroupReady(was, now, c.band, g)
    requires !GroupReady(p.chs, now, c.band, g) || p.chs[i].nonOcpEnd == STOPPED
    ensures j < |was| && was[j].band == c.band && was[j].num in g
    ensures Expired(was[j], now) && !Expired(p.chs[j], now)
  {
    if p.chs[i].nonOcpEnd == STOPPED {
      j := ExpiredMember(was, now, c.band, g, c.num);
      SameOne(was, i, j, c.band, c.num);
    } else {
      var n := LostMember(p.chs, now, c.band, g);
      j := ExpiredMember(was, now, c.band, g, n);
      assert Is(p.chs[j], c.band, n) by { KeptNames(was, now, p, j); }
    }
  }

  lemma KeptNames(was: seq<Channel>, now: int, p: Pass, j: nat)
    requires Progress(was, now, p.chs, p.events) && j < |was|
    ensures p.chs[j].band == was[j].band && p.chs[j].num == was[j].num
  {
  }

  lemma VisitGrows(tables: Tables, now: int, bw: Width, p: Pass, i: nat)
    requires i < |p.chs|
    ensures p.events <= Visit(tables, now, bw, p, i).events
  {
  }

  lemma {:induction false} SweepGrows(tables: Tables, now: int, bw: Width, p: Pass, m: nat, n: nat)
    requires m <= n <= |p.chs|
    ensures SweepTo(tables, now, bw, p, m).events <= SweepTo(tables, now, bw, p, n).events
  {
    if m < n {
      SweepGrows(tables, now, bw, p, m, n - 1);
      var before := SweepTo(tables, now, bw, p, n - 1);
      VisitGrows(tables, now, bw, before, n - 1);
      assert SweepTo(tables, now, bw, p, n) == Visit(tables, now, bw, before, n - 1);
    }
  }

  lemma SweepMeets(tables: Tables, was: seq<Channel>, now: int, bw: Width, p: Pass, i: nat)
    requires PassOk(tables, was, now, bw, p) && i < |was|
    requires Reportable(tables, was, now, was[i], bw)
    ensures Met(tables, SweepAll(tables, now, bw, p).events, was[i], bw)
  {
    SweepKeeps(tables, was, now, bw, p, i);
    VisitMeets(tables, was, now, bw, SweepTo(tables, now, bw, p, i), i);
    SweepGrows(tables, now, bw, p, i + 1, |was|);
    MetGrows(tables, SweepTo(tables, now, bw, p, i + 1).events, SweepAll(tables, now, bw, p).events, was[i], bw);
  }

  lemma MetGrows(tables: Tables, events: seq<Finish>, more: seq<Finish>, c: Channel, w: Width)
    requires Met(tables, events, c, w) && events <= more
    ensures Met(tables, more, c, w)
  {
    var k, o: Offset, n :|
      0 <= k < |events| && HalfWidth(events[k].bw) >= HalfWidth(w) && events[k].band == c.band
      && n in events[k].chs && n in GroupAt(tables, c, w, o);
    assert more[k] == events[k];
  }

  // ---------------------------------------------------------------------------
  // A whole pass
  // ---------------------------------------------------------------------------

  lemma NarrowerOk(tables: Tables, was: seq<Channel>, now: int, bw: Width, narrow: Width, p: Pass)
    requires PassOk(tables, was, now, bw, p) && HalfWidth(narrow) <= HalfWidth(bw)
    ensures PassOk(tables, was, now, narrow, p)
  {
    assert Unfold(true);
  }

  lemma StartOk(tables: Tables, was: seq<Channel>, now: int, offset0: Offset)
    requires Unique(was)
    ensures PassOk(tables, was, now, W160, Pass(was, [], offset0))
  {
  }

  /** One sweep and the step to the next width. */
  lemma SweepDone(tables: Tables, was: seq<Channel>, now: int, bw: Width, narrow: Width, p: Pass)
    requires PassOk(tables, was, now, bw, p) && HalfWidth(narrow) <= HalfWidth(bw)
    ensures var q := SweepAll(tables, now, bw, p);
            && PassOk(tables, was, now, narrow, q) && p.events <= q.events
            && forall i :: 0 <= i < |was| && Reportable(tables, was, now, was[i], bw) ==>
                 Met(tables, q.events, was[i], bw)
  {
    SweepKeeps(tables, was, now, bw, p, |was|);
    NarrowerOk(tables, was, now, bw, narrow, SweepAll(tables, now, bw, p));
    forall i | 0 <= i < |was| && Reportable(tables, was, now, was[i], bw)
      ensures Met(tables, SweepAll(tables, now, bw, p).events, was[i], bw)
    {
      SweepMeets(tables, was, now, bw, p, i);
    }
  }

  /** Every group that could be reported at a width meets a report at least as wide. */
  ghost predicate AllMet(tables: Tables, was: seq<Channel>, now: int, events: seq<Finish>, w: Width) {
    forall i :: 0 <= i < |was| && Reportable(tables, was, now, was[i], w) ==> Met(tables, events, was[i], w)
  }

  lemma AllMetGrows(tables: Tables, was: seq<Channel>, now: int, events: seq<Finish>, more: seq<Finish>, w: Width)
    requires AllMet(tables, was, now, events, w) && events <= more
    ensures AllMet(tables, was, now, more, w)
  {
    forall i | 0 <= i < |was| && Reportable(tables, was, now, was[i], w) ensures Met(tables, more, was[i], w) {
      MetGrows(tables, events, more, was[i], w);
    }
  }

  /**
    One pass: channels are stopped exactly as the reports say, and only expired
    ones; each report is the tables' group, at its bandwidth, of a channel of the
    set; reports are disjoint, widest first; and every group that could have been
    reported at a width meets a report at least as wide.
   */
  lemma PassIsRight(tables: Tables, was: seq<Channel>, now: int, offset0: Offset)
    requires Unique(was)
    ensures var q := WholePass(tables, now, was, offset0);
            && PassFacts(tables, was, now, W20, q)
            && forall w: Width :: AllMet(tables, was, now, q.events, w)
  {
    var p := Pass(was, [], offset0);
    StartOk(tables, was, now, offset0);
    var a := SweepAll(tables, now, W160, p);
    SweepDone(tables, was, now, W160, W80, p);
    var b := SweepAll(tables, now, W80, a);
    SweepDone(tables, was, now, W80, W40, a);
    var c := SweepAll(tables, now, W40, b);
    SweepDone(tables, was, now, W40, W20, b);
    var d := SweepAll(tables, now, W20, c);
    SweepDone(tables, was, now, W20, W20, c);
    assert Unfold(true);
    AllMetGrows(tables, was, now, a.events, d.events, W160);
    AllMetGrows(tables, was, now, b.events, d.events, W80);
    AllMetGrows(tables, was, now, c.events, d.events, W40);
    forall w: Width ensures AllMet(tables, was, now, d.events, w) {
      assert w.W160? || w.W80? || w.W40? || w.W20?;
    }
  }

  // ---------------------------------------------------------------------------
  // Nested groups
  // ---------------------------------------------------------------------------

  ghost predicate Overlapping(a: seq<int>, b: seq<int>) {
    exists n :: n in a && n in b
  }

  ghost predicate Contained(a: seq<int>, b: seq<int>) {
    forall n :: n in a ==> n in b
  }

  /**
    Groups of two channels: a group that overlaps one at least as wide lies in it, and
    a group is also the group of each of its channels.
   */
  ghost predicate NestedPair(tables: Tables, c: Channel, w: Width, d: Channel, v: Width) {
    forall o: Offset, p: Offset ::
      var (g, h) := (GroupAt(tables, c, w, o), GroupAt(tables, d, v, p));
      && (HalfWidth(w) <= HalfWidth(v) && Overlapping(g, h) ==> Contained(g, h))
      && (c.num in h && w == v ==> Contained(g, h) && Contained(h, g))
  }

  /** So it is for all channels whose periods run; folded until `Unfold` is mentioned. */
  ghost predicate Nested(tables: Tables, was: seq<Channel>) {
    forall b {:trigger Unfold(b)} :: Unfold(b) ==>
      forall i, j, w: Width, v: Width ::
        0 <= i < |was| && 0 <= j < |was| && was[i].band == was[j].band
        && was[i].nonOcpEnd != STOPPED && was[j].nonOcpEnd != STOPPED ==>
          NestedPair(tables, was[i], w, was[j], v)
  }

  /** The channel whose group a report is, nested with the groups of a channel that the report touches. */
  lemma ReportNests(tables: Tables, was: seq<Channel>, now: int, q: Pass, c: Channel, w: Width, k: nat)
    returns (d: Channel, p: Offset)
    requires PassOk(tables, was, now, W20, q) && Nested(tables, was) && c in was && c.nonOcpEnd != STOPPED
    requires k < |q.events| && q.events[k].band == c.band
    ensures q.events[k].chs == GroupAt(tables, d, q.events[k].bw, p)
    ensures NestedPair(tables, c, w, d, q.events[k].bw)
  {
    assert Unfold(true);
    var e := q.events[k];
    assert FromTables(tables, was, e);
    var i, o :| 0 <= i < |was| && was[i].nonOcpEnd != STOPPED && IsGroup(tables, was[i], e, o);
    d, p := was[i], o;
  }

  /** The channel's group at some offset contains it and has wholly expired. */
  ghost predicate WhollyExpired(tables: Tables, was: seq<Channel>, now: int, c: Channel, w: Width) {
    exists o: Offset :: c.num in GroupAt(tables, c, w, o) && AllExpired(was, now, c.band, GroupAt(tables, c, w, o))
  }

  /** The channels that a report names had all expired. */
  lemma ReportedHadExpired(was: seq<Channel>, now: int, chs: seq<Channel>, events: seq<Finish>, k: nat)
    requires Progress(was, now, chs, events) && k < |events|
    ensures AllExpired(was, now, events[k].band, events[k].chs)
  {
    forall n | n in events[k].chs
      ensures exists i :: 0 <= i < |was| && Is(was[i], events[k].band, n) && Expired(was[i], now)
    {
      var i :| 0 <= i < |was| && Is(was[i], events[k].band, n);
      assert Names(events[k], was[i]);
    }
  }

  /** With nested groups, a report that names a channel is of that channel's group, which had wholly expired. */
  lemma NamedWhollyExpired(tables: Tables, was: seq<Channel>, now: int, q: Pass, c: Channel, k: nat)
    requires PassOk(tables, was, now, W20, q) && Nested(tables, was) && c in was && c.nonOcpEnd != STOPPED
    requires k < |q.events| && Names(q.events[k], c)
    ensures WhollyExpired(tables, was, now, c, q.events[k].bw)
  {
    var e := q.events[k];
    var d, p := ReportNests(tables, was, now, q, c, e.bw, k);
    var g := GroupAt(tables, c, e.bw, p);
    assert Contained(g, e.chs) && Contained(e.chs, g);
    assert AllExpired(was, now, e.band, e.chs) by {
      assert Unfold(true);
      ReportedHadExpired(was, now, q.chs, q.events, k);
    }
    assert c.num in g && AllExpired(was, now, c.band, g);
  }

  /** With nested groups, a report that meets a channel's group names the channel. */
  lemma MetIsNamed(tables: Tables, was: seq<Channel>, now: int, q: Pass, c: Channel, w: Width) returns (k: nat)
    requires PassOk(tables, was, now, W20, q) && Nested(tables, was) && c in was && c.nonOcpEnd != STOPPED
    requires Reportable(tables, was, now, c, w) && Met(tables, q.events, c, w)
    ensures k < |q.events| && HalfWidth(q.events[k].bw) >= HalfWidth(w) && Names(q.events[k], c)
  {
    var l, o: Offset, n :|
      0 <= l < |q.events| && HalfWidth(q.events[l].bw) >= HalfWidth(w) && q.events[l].band == c.band
      && n in q.events[l].chs && n in GroupAt(tables, c, w, o);
    k := l;
    var d, p := ReportNests(tables, was, now, q, c, w, k);
    assert Overlapping(GroupAt(tables, c, w, o), GroupAt(tables, d, q.events[k].bw, p));
    assert c.num in GroupAt(tables, c, w, o);
  }

  lemma PassMeets(tables: Tables, was: seq<Channel>, now: int, offset0: Offset, j: nat, w: Width)
    requires Unique(was) && j < |was| && Reportable(tables, was, now, was[j], w)
    ensures var q := WholePass(tables, now, was, offset0);
            PassOk(tables, was, now, W20, q) && Met(tables, q.events, was[j], w) && Disjoint(q.events)
  {
    PassIsRight(tables, was, now, offset0);
    assert AllMet(tables, was, now, WholePass(tables, now, was, offset0).events, w);
  }

  /**
    With nested groups each expired channel is named exactly at the widest bandwidth at
    which its group had wholly expired.
   */
  lemma NamedAtWidest(tables: Tables, was: seq<Channel>, now: int, offset0: Offset, j: nat, w: Width)
    requires Unique(was) && Nested(tables, was) && j < |was| && was[j].nonOcpEnd != STOPPED
    requires Reportable(tables, was, now, was[j], w)
    requires forall v: Width :: HalfWidth(v) > HalfWidth(w) ==> !WhollyExpired(tables, was, now, was[j], v)
    ensures NamedAt(WholePass(tables, now, was, offset0).events, was[j], w)
  {
    PassMeets(tables, was, now, offset0, j, w);
    var q := WholePass(tables, now, was, offset0);
    var l := MetIsNamed(tables, was, now, q, was[j], w);
    NamedWhollyExpired(tables, was, now, q, was[j], l);
    NamedOnce(q.events, was[j], l);
  }

  /** The channel is named by a report at this bandwidth, and by no other. */
  ghost predicate NamedAt(events: seq<Finish>, c: Channel, w: Width) {
    && (exists k :: 0 <= k < |events| && Names(events[k], c))
    && (forall k :: 0 <= k < |events| && Names(events[k], c) ==> events[k].bw == w)
  }

  lemma NamedOnce(events: seq<Finish>, c: Channel, l: nat)
    requires Disjoint(events) && l < |events| && Names(events[l], c)
    ensures NamedAt(events, c, events[l].bw)
  {
    forall k | 0 <= k < |events| && Names(events[k], c) ensures k == l {
    }
  }

  /** A pass, as an event of radar detection: some of the expired channels are stopped. */
  lemma PassIsWatchdog(tables: Tables, was: seq<Channel>, now: int, offset0: Offset) returns (which: set<int>)
    requires Unique(was)
    ensures WholePass(tables, now, was, offset0).chs == StopExpired(was, which, now)
  {
    PassIsRight(tables, was, now, offset0);
    var q := WholePass(tables, now, was, offset0);
    which := set i | 0 <= i < |was| && q.chs[i] != was[i];
    forall i | 0 <= i < |was| ensures q.chs[i] == StopExpired(was, which, now)[i] {
      if q.chs[i] != was[i] {
        assert Expired(was[i], now) && q.chs[i] == was[i].(nonOcpEnd := STOPPED);
      }
    }
  }

  /** A channel in no group of any channel of the set is left as it is. */
  lemma UngroupedStays(tables: Tables, was: seq<Channel>, now: int, offset0: Offset, j: nat)
    requires Unique(was) && j < |was|
    requires forall i, w: Width, o: Offset :: 0 <= i < |was| && was[i].band == was[j].band ==>
               was[j].num !in GroupAt(tables, was[i], w, o)
    ensures WholePass(tables, now, was, offset0).chs[j] == was[j]
  {
    PassIsRight(tables, was, now, offset0);
    var q := WholePass(tables, now, was, offset0);
    forall k | 0 <= k < |q.events| ensures !Names(q.events[k], was[j]) {
      var e := q.events[k];
      assert FromTables(tables, was, e);
      var i, o :| 0 <= i < |was| && was[i].nonOcpEnd != STOPPED && IsGroup(tables, was[i], e, o);
      assert e.chs == GroupAt(tables, was[i], e.bw, o);
    }
  }

  /** A channel the tables know at 20 MHz is stopped exactly if it had expired. */
  lemma AddressableIsStopped(tables: Tables, was: seq<Channel>, now: int, offset0: Offset, j: nat)
    requires Unique(was) && j < |was| && Addressable(tables, was[j])
    ensures WholePass(tables, now, was, offset0).chs[j] == StopIfExpired(was[j], now)
  {
    PassIsRight(tables, was, now, offset0);
    var q, c := WholePass(tables, now, was, offset0), was[j];
    if Expired(c, now) {
      forall o: Offset ensures GroupAt(tables, c, W20, o) == [c.num] {
        assert tables.offset(c.band, c.num, W20, o).Some?;
      }
      assert AllExpired(was, now, c.band, [c.num]) by { assert Is(was[j], c.band, c.num); }
      assert Reportable(tables, was, now, c, W20);
      assert AllMet(tables, was, now, q.events, W20);
      var k, o: Offset, n :|
        0 <= k < |q.events| && HalfWidth(q.events[k].bw) >= HalfWidth(W20) && q.events[k].band == c.band
        && n in q.events[k].chs && n in GroupAt(tables, c, W20, o);
      assert Names(q.events[k], c);
    }
  }

  // ---------------------------------------------------------------------------
  // In place
  // ---------------------------------------------------------------------------

  /** The first loop of `rtw_rfctl_chset_chk_non_ocp_finish_for_bchbw`. */
  method GroupExpired(chs: array<Channel>, now: int, band: Band, group: seq<int>) returns (all: bool)
    requires Unique(chs[..])
    ensures all <==> GroupReady(chs[..], now, band, group)
  {
    for k := 0 to |group|
      invariant 0 !in group[..k] && AllExpired(chs[..], now, band, group[..k])
    {
      var idx := Search(chs, band, group[k]);
      if idx < 0 || !Expired(chs[idx], now) {
        assert group[k] in group;
        assert group[k] != 0 ==> forall i :: 0 <= i < chs.Length && Is(chs[..][i], band, group[k]) ==> !Expired(chs[i], now);
        return false;
      }
      assert chs[..][idx] == chs[idx];
      assert group[..k + 1] == group[..k] + [group[k]];
    }
    assert group[..|group|] == group;
    return group != [];
  }

  /** Its second loop, which stops the group. */
  method StopGroup(chs: array<Channel>, now: int, band: Band, group: seq<int>)
    requires Unique(chs[..]) && 0 !in group
    requires AllExpired(chs[..], now, band, group)
    modifies chs
    ensures chs[..] == Stopped(old(chs[..]), band, group)
  {
    ghost var was := chs[..];
    for k := 0 to |group|
      invariant forall i :: 0 <= i < chs.Length ==> chs[i] == StopOne(was[i], band, group[..k])
      invariant Unique(chs[..])
    {
      assert group[..k + 1] == group[..k] + [group[k]];
      assert group[k] in group;
      ghost var j :| 0 <= j < |was| && Is(was[j], band, group[k]) && Expired(was[j], now);
      var idx := Search(chs, band, group[k]);
      assert Is(chs[j], band, group[k]) && idx == j;
      assert forall i :: 0 <= i < |was| && Is(was[i], band, group[k]) ==> i == j;
      chs[idx] := chs[idx].(nonOcpEnd := STOPPED);
    }
    assert group[..|group|] == group;
  }

  /** `rtw_rfctl_chset_chk_non_ocp_finish_for_bchbw` for one channel and bandwidth. */
  method FinishGroup(chs: array<Channel>, now: int, e: Finish) returns (all: bool)
    requires Unique(chs[..])
    modifies chs
    ensures all <==> GroupReady(old(chs[..]), now, e.band, e.chs)
    ensures chs[..] == if all then Stopped(old(chs[..]), e.band, e.chs) else old(chs[..])
  {
    all := GroupExpired(chs, now, e.band, e.chs);
    if all {
      StopGroup(chs, now, e.band, e.chs);
    }
  }

  /** One channel of a sweep. */
  method SweepOne(chs: array<Channel>, now: int, tables: Tables, bw: Width, i: nat, offset0: Offset,
                  events: seq<Finish>)
    returns (out: seq<Finish>, offset: Offset)
    requires i < chs.Length && Unique(chs[..])
    modifies chs
    ensures Pass(chs[..], out, offset) == Visit(tables, now, bw, Pass(old(chs[..]), events, offset0), i)
  {
    out, offset := events, offset0;
    var c := chs[i];
    if c.nonOcpEnd != STOPPED {
      var o := tables.offset(c.band, c.num, bw, offset);
      if o.Some? {
        offset := o.value;
        var e := Finish(c.band, bw, tables.group(c.band, c.num, bw, offset));
        var all := FinishGroup(chs, now, e);
        if all {
          out := out + [e];
        }
      }
    }
  }

  lemma VisitIsUnique(tables: Tables, now: int, bw: Width, p: Pass, i: nat)
    requires i < |p.chs| && Unique(p.chs)
    ensures Unique(Visit(tables, now, bw, p, i).chs)
  {
    var c := p.chs[i];
    var o := tables.offset(c.band, c.num, bw, p.offset);
    if o.Some? {
      StoppedIsUnique(p.chs, c.band, tables.group(c.band, c.num, bw, o.value));
    }
  }

  /** One sweep over the channels at one bandwidth. */
  method Sweep(chs: array<Channel>, now: int, tables: Tables, bw: Width, offset0: Offset, events: seq<Finish>)
    returns (out: seq<Finish>, offset: Offset)
    requires Unique(chs[..])
    modifies chs
    ensures Unique(chs[..])
    ensures Pass(chs[..], out, offset) == SweepAll(tables, now, bw, Pass(old(chs[..]), events, offset0))
  {
    out, offset := events, offset0;
    ghost var p := Pass(chs[..], events, offset0);
    for i := 0 to chs.Length
      invariant Unique(chs[..])
      invariant Pass(chs[..], out, offset) == SweepTo(tables, now, bw, p, i)
    {
      VisitIsUnique(tables, now, bw, Pass(chs[..], out, offset), i);
      out, offset := SweepOne(chs, now, tables, bw, i, offset, out);
    }
  }

  /**
    `rtw_rfctl_chset_chk_non_ocp_finish`: one pass of the watchdog.  It stops
    exactly expired channels, every addressable one of them; its reports, widest
    first, are disjoint groups of the tables that together name exactly the
    channels it stopped, and every group that had wholly expired meets one at least
    as wide.
   */
  method CheckNonOcpFinish(chs: array<Channel>, now: int, tables: Tables, offset0: Offset)
    returns (events: seq<Finish>, ghost offset: Offset)
    requires Unique(chs[..])
    modifies chs
    ensures Pass(chs[..], events, offset) == WholePass(tables, now, old(chs[..]), offset0)
    ensures forall i :: 0 <= i < chs.Length && Addressable(tables, old(chs[i])) ==>
              chs[i] == StopIfExpired(old(chs[i]), now)
    ensures forall i :: 0 <= i < chs.Length ==>
              chs[i] == old(chs[i]) || chs[i] == StopIfExpired(old(chs[i]), now)
    ensures forall i :: 0 <= i < chs.Length ==>
              (chs[i] != old(chs[i]) <==> exists k :: 0 <= k < |events| && Names(events[k], old(chs[i])))
    ensures forall k, n :: 0 <= k < |events| && n in events[k].chs ==>
              exists i :: 0 <= i < chs.Length && Is(old(chs[i]), events[k].band, n)
    ensures Disjoint(events) && WidestFirst(events, W20)
    ensures forall k :: 0 <= k < |events| ==> FromTables(tables, old(chs[..]), events[k])
    ensures forall w: Width :: AllMet(tables, old(chs[..]), now, events, w)
  {
    ghost var was := chs[..];
    PassIsRight(tables, was, now, offset0);
    forall i | 0 <= i < chs.Length && Addressable(tables, was[i])
      ensures WholePass(tables, now, was, offset0).chs[i] == StopIfExpired(was[i], now)
    {
      AddressableIsStopped(tables, was, now, offset0, i);
    }
    var o: Offset;
    events, o := Sweep(chs, now, tables, W160, offset0, []);
    events, o := Sweep(chs, now, tables, W80, o, events);
    events, o := Sweep(chs, now, tables, W40, o, events);
    events, o := Sweep(chs, now, tables, W20, o, events);
    offset := o;
  }
}
