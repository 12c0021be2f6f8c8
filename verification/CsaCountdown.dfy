/** The channel switch announcement: the beacon counts down, then one command is issued. */
module CsaCountdown {

  import opened Basics
  import opened BeaconElements
  import opened BeaconBuffer

  const CHANNEL_SWITCH: Byte := 37
  const CSA_IE_LEN := 3

  /** `ap_csa_en`. */
  datatype Enable = CsaDisable | SwitchChannel | StaRx | StaJoinBss | IeRemove

  /** The two commands the last update can issue. */
  datatype Command = ChangeChannel(ch: Byte) | JoinBss

  datatype Csa = Csa(en: Enable, ch: Byte, cnt: Byte, es: seq<Element>, issued: seq<Command>)

  function CsaData(ch: Byte, cnt: Byte): seq<Byte> {
    [0, ch, cnt]
  }

  predicate Running(en: Enable) {
    en == SwitchChannel || en == StaRx || en == StaJoinBss
  }

  /** The channel and count of the last announcement among the elements of a new beacon. */
  function LastCsa(es: seq<Element>, ch: Byte, count: Byte): (Byte, Byte)
    requires CsaComplete(es)
  {
    if es == [] then (ch, count)
    else
      assert CsaComplete(es[1..]);
      if es[0].id == CHANNEL_SWITCH then LastCsa(es[1..], es[0].data[1], es[0].data[2])
      else LastCsa(es[1..], ch, count)
  }

  /** The code reads three data octets of every announcement. */
  ghost predicate CsaComplete(es: seq<Element>) {
    forall k :: 0 <= k < |es| && es[k].id == CHANNEL_SWITCH ==> |es[k].data| >= CSA_IE_LEN
  }

  /** It is the last announcement's second and third data octet, whatever was given. */
  lemma {:induction false} LastCsaIs(es: seq<Element>, ch: Byte, count: Byte, k: nat)
    requires CsaComplete(es) && k < |es| && es[k].id == 37 && forall j :: k < j < |es| ==> es[j].id != 37
    ensures LastCsa(es, ch, count) == (es[k].data[1], es[k].data[2])
  {
    var rest := es[1..];
    assert CsaComplete(rest);
    if k == 0 {
      LastCsaNone(rest, es[0].data[1], es[0].data[2]);
    } else if es[0].id == 37 {
      LastCsaIs(rest, es[0].data[1], es[0].data[2], k - 1);
    } else {
      LastCsaIs(rest, ch, count, k - 1);
    }
  }

  /** Without an announcement it is what was given. */
  lemma {:induction false} LastCsaNone(es: seq<Element>, ch: Byte, count: Byte)
    requires CsaComplete(es) && forall j :: 0 <= j < |es| ==> es[j].id != 37
    ensures LastCsa(es, ch, count) == (ch, count)
  {
    if es != [] {
      LastCsaNone(es[1..], ch, count);
    }
  }

  /** A request: a channel definition, and the elements of the beacon to announce it with. */
  datatype Request = Request(hasChannel: bool, allowed: bool, ch: Byte, tail: Option<seq<Element>>, apUp: bool)

  ghost predicate Readable(q: Request) {
    q.tail.Some? ==> AllFit(q.tail.value) && CsaComplete(q.tail.value)
  }

  /**
    `cfg80211_rtw_channel_switch`.  A running switch refuses a new one; a request
    without a channel, a new beacon or an access point that is up succeeds and
    sets nothing.
   */
  function Start(s: Csa, q: Request): (r: (bool, Csa))
    requires Readable(q)
  {
    if !q.hasChannel then (true, s)
    else if !q.allowed || q.ch == 0 || Running(s.en) then (false, s)
    else if q.tail.None? then (true, s)
    else
      var (ch, count) := LastCsa(q.tail.value, q.ch, 0);
      if count == 0 then (false, s)
      else if !q.apUp then (true, s)
      else (true, s.(en := SwitchChannel, ch := ch, cnt := count))
  }

  /** Exactly which requests are refused, and exactly which of the others set anything. */
  lemma StartExactly(s: Csa, q: Request)
    requires Readable(q)
    ensures var (ok, r) := Start(s, q);
            var announced := if q.tail.Some? then LastCsa(q.tail.value, q.ch, 0) else (q.ch, 0);
            var busy := s.en in {SwitchChannel, StaRx, StaJoinBss};
            && (ok <==> q.hasChannel ==> q.allowed && q.ch > 0 && !busy && (q.tail.None? || announced.1 > 0))
            && (if ok && q.hasChannel && q.tail.Some? && q.apUp
                then r == Csa(SwitchChannel, announced.0, announced.1, s.es, s.issued) else r == s)
  {
  }

  /** An accepted request starts a countdown: the announcement's own channel and count. */
  lemma StartIsStarting(s: Csa, q: Request)
    requires Readable(q) && !Has(s.es, CHANNEL_SWITCH) && Start(s, q).1 != s && !Running(s.en)
    ensures var r := Start(s, q).1;
            && Starting(r) && (r.ch, r.cnt) == LastCsa(q.tail.value, q.ch, 0)
            && r.es == s.es && r.issued == s.issued
  {
  }

  /** `ap_process_csa`; `linking` tells whether some adapter is linking. */
  function ProcessCsa(s: Csa, linking: bool): Csa {
    if s.cnt != 0 then s
    else if s.en == SwitchChannel then
      s.(en := IeRemove, issued := s.issued + [ChangeChannel(s.ch)])
    else if s.en == StaJoinBss && linking then
      s.(en := IeRemove, issued := s.issued + [JoinBss])
    else s
  }

  function Decrement(s: Csa): Csa {
    if s.cnt > 0 then s.(cnt := s.cnt - 1) else s
  }

  /** The CSA arm of `_update_beacon`, with `update_csa_ie` inside. */
  function Update(s: Csa, linking: bool): Csa {
    var k := Find(s.es, CHANNEL_SWITCH);
    if !Running(s.en) then s
    else if k < |s.es| && |s.es[k].data| == CSA_IE_LEN && s.cnt > 0 then
      Decrement(s.(es := s.es[k := s.es[k].(data := s.es[k].data[2 := s.cnt])]))
    else if k == |s.es| && s.cnt > 0 then
      Decrement(s.(es := Add(s.es, CHANNEL_SWITCH, CsaData(s.ch, s.cnt))))
    else if k < |s.es| && s.es[k].data != [] && s.cnt == 0 then
      ProcessCsa(s.(es := Remove(s.es, CHANNEL_SWITCH)), linking)
    else s
  }

  /** By how many bytes the beacon grows when the element is added. */
  function UpdateGrowth(s: Csa): int {
    if Running(s.en) && Find(s.es, CHANNEL_SWITCH) == |s.es| && s.cnt > 0
    then Growth(s.es, CHANNEL_SWITCH, CsaData(s.ch, s.cnt)) else 0
  }

  /** The capacity test is exact for updates that announce, and generous for the one that removes. */
  lemma UpdateGrowthIsExact(s: Csa, linking: bool)
    requires AllFit(s.es)
    ensures var es := Update(s, linking).es;
            && AllFit(es) && |Encode(es)| <= |Encode(s.es)| + UpdateGrowth(s)
            && (s.cnt > 0 ==> |Encode(es)| == |Encode(s.es)| + UpdateGrowth(s))
            && UpdateGrowth(s) <= 5
  {
    var k := Find(s.es, CHANNEL_SWITCH);
    if k < |s.es| {
      var e := s.es[k];
      if |e.data| == CSA_IE_LEN {
        PutSize(s.es, k, e.(data := e.data[2 := s.cnt]));
      }
      var front, back := s.es[..k], s.es[k + 1..];
      EncodedSize(front, e, back);
      assert s.es == front + [e] + back;
    } else {
      GrowthIsExact(s.es, CHANNEL_SWITCH, CsaData(s.ch, s.cnt));
    }
  }

  function Updates(s: Csa, n: nat): Csa {
    if n == 0 then s else Update(Updates(s, n - 1), false)
  }

  // ---------------------------------------------------------------------------
  // What a whole countdown does
  // ---------------------------------------------------------------------------

  /** Whether there is a place for the element: something nonempty in front of it. */
  predicate HasPlace(es: seq<Element>) {
    var k := Position(es, CHANNEL_SWITCH);
    k > 0 && es[k - 1].data != []
  }

  /** A countdown that starts now, on a beacon without the element. */
  ghost predicate Starting(s: Csa) {
    s.en == SwitchChannel && s.cnt > 0 && !Has(s.es, CHANNEL_SWITCH)
  }

  /** The state after n updates, without running them. */
  function Expected(s: Csa, n: nat): Csa
    requires s.cnt > 0
  {
    if !HasPlace(s.es) then s.(cnt := if n < s.cnt then s.cnt - n else 0)
    else if n == 0 then s
    else if n <= s.cnt then
      s.(cnt := s.cnt - n, es := Add(s.es, CHANNEL_SWITCH, CsaData(s.ch, s.cnt - n + 1)))
    else
      s.(cnt := 0, en := IeRemove, issued := s.issued + [ChangeChannel(s.ch)])
  }

  lemma FindAdded(es: seq<Element>, data: seq<Byte>)
    requires !Has(es, CHANNEL_SWITCH) && HasPlace(es)
    ensures var r, k := Add(es, CHANNEL_SWITCH, data), Position(es, CHANNEL_SWITCH);
            && r == es[..k] + [Element(CHANNEL_SWITCH, data)] + es[k..]
            && Find(r, CHANNEL_SWITCH) == k < |r|
  {
    var r, k := Add(es, CHANNEL_SWITCH, data), Position(es, CHANNEL_SWITCH);
    assert r[k].id == CHANNEL_SWITCH;
    assert forall j :: 0 <= j < k ==> r[j] == es[j];
  }

  lemma NotFound(es: seq<Element>)
    requires !Has(es, CHANNEL_SWITCH)
    ensures Find(es, CHANNEL_SWITCH) == |es|
  {
  }

  /** While the element is there: the count byte is overwritten. */
  lemma UpdateCounts(t: Csa, es: seq<Element>, c: Byte)
    requires t.en == SwitchChannel && t.cnt > 0
    requires !Has(es, CHANNEL_SWITCH) && HasPlace(es)
    requires t.es == Add(es, CHANNEL_SWITCH, CsaData(t.ch, c))
    ensures Update(t, false) == t.(cnt := t.cnt - 1, es := Add(es, CHANNEL_SWITCH, CsaData(t.ch, t.cnt)))
  {
    var k := Position(es, CHANNEL_SWITCH);
    FindAdded(es, CsaData(t.ch, c));
    FindAdded(es, CsaData(t.ch, t.cnt));
    var e := Element(CHANNEL_SWITCH, CsaData(t.ch, t.cnt));
    assert t.es[k].(data := t.es[k].data[2 := t.cnt]) == e;
    assert t.es[k := e] == Add(es, CHANNEL_SWITCH, CsaData(t.ch, t.cnt));
  }

  lemma UpdateFinishes(t: Csa, es: seq<Element>, c: Byte)
    requires t.en == SwitchChannel && t.cnt == 0
    requires !Has(es, CHANNEL_SWITCH) && HasPlace(es)
    requires t.es == Add(es, CHANNEL_SWITCH, CsaData(t.ch, c))
    ensures Update(t, false)
         == t.(en := IeRemove, es := es, issued := t.issued + [ChangeChannel(t.ch)])
  {
    FindAdded(es, CsaData(t.ch, c));
    RemoveUndoesAdd(es, CHANNEL_SWITCH, CsaData(t.ch, c));
  }

  lemma UpdateInVain(t: Csa)
    requires t.en == SwitchChannel && !Has(t.es, CHANNEL_SWITCH) && !HasPlace(t.es)
    ensures Update(t, false) == Decrement(t)
  {
    NotFound(t.es);
    AddWorksExactly(t.es, CHANNEL_SWITCH, CsaData(t.ch, t.cnt));
    assert !Has(Add(t.es, CHANNEL_SWITCH, CsaData(t.ch, t.cnt)), CHANNEL_SWITCH);
  }

  lemma UpdateExpected(s: Csa, n: nat)
    requires Starting(s)
    ensures Update(Expected(s, n), false) == Expected(s, n + 1)
  {
    var t := Expected(s, n);
    if !HasPlace(s.es) {
      UpdateInVain(t);
    } else if n == 0 {
      NotFound(s.es);
    } else if n < s.cnt {
      UpdateCounts(t, s.es, s.cnt - n + 1);
    } else if n == s.cnt {
      UpdateFinishes(t, s.es, 1);
    }
  }

  lemma UpdatesNext(s: Csa, n: nat)
    ensures Updates(s, n + 1) == Update(Updates(s, n), false)
  {
  }

  /** Every number of updates does what is expected. */
  lemma {:induction false} UpdatesAre(s: Csa, n: nat)
    requires Starting(s)
    ensures Updates(s, n) == Expected(s, n)
    decreases n
  {
    if n > 0 {
      var m := n - 1;
      UpdatesAre(s, m);
      UpdateExpected(s, m);
      UpdatesNext(s, m);
    }
  }

  /** What receivers read in the beacon: the count of its announcement. */
  function Advertised(es: seq<Element>): (count: int) {
    var k := Find(es, CHANNEL_SWITCH);
    if k < |es| && |es[k].data| == CSA_IE_LEN then es[k].data[2] else -1
  }

  /** The announcement of a beacon: switch mode 0, the new channel, and the count of beacons to go. */
  ghost predicate Announces(es: seq<Element>, ch: int, count: int) {
    exists k :: 0 <= k < |es| && es[k].id == 37 && es[k].data == [0, ch, count]
                && forall j :: 0 <= j < |es| && j != k ==> es[j].id != 37
  }

  lemma Announced(es: seq<Element>, ch: Byte, c: Byte)
    requires !Has(es, CHANNEL_SWITCH) && HasPlace(es)
    ensures Advertised(Add(es, CHANNEL_SWITCH, CsaData(ch, c))) == c
    ensures Announces(Add(es, CHANNEL_SWITCH, CsaData(ch, c)), ch, c)
    ensures Remove(Add(es, CHANNEL_SWITCH, CsaData(ch, c)), CHANNEL_SWITCH) == es
  {
    FindAdded(es, CsaData(ch, c));
    RemoveUndoesAdd(es, CHANNEL_SWITCH, CsaData(ch, c));
    var r, k := Add(es, CHANNEL_SWITCH, CsaData(ch, c)), Position(es, CHANNEL_SWITCH);
    assert r[k].id == 37 && r[k].data == [0, ch, c];
    forall j | 0 <= j < |r| && j != k ensures r[j].id != 37 {
      assert r[j] == if j < k then es[j] else es[j - 1];
    }
  }

  lemma ExpectedAdvertises(s: Csa, n: nat)
    requires Starting(s) && HasPlace(s.es) && 1 <= n <= s.cnt
    ensures Advertised(Expected(s, n).es) == s.cnt + 1 - n
    ensures Announces(Expected(s, n).es, s.ch, s.cnt + 1 - n)
    ensures Remove(Expected(s, n).es, CHANNEL_SWITCH) == s.es
  {
    var es := Expected(s, n).es;
    assert es == Add(s.es, CHANNEL_SWITCH, CsaData(s.ch, s.cnt - n + 1));
    Announced(s.es, s.ch, s.cnt - n + 1);
  }

  /**
    From a start with count N, on a beacon with a place for the element: update n
    up to N announces the requested channel and N + 1 - n and issues nothing; update N + 1 puts the original
    element list back and issues exactly one channel change, to the requested
    channel; every later update changes nothing, and a new switch can start.
   */
  lemma CountdownRunsOut(s: Csa, n: nat)
    requires Starting(s) && HasPlace(s.es)
    ensures var u := Updates(s, n);
            && (1 <= n <= s.cnt ==> Announces(u.es, s.ch, s.cnt + 1 - n) && u.issued == s.issued)
            && (1 <= n <= s.cnt ==> Advertised(u.es) == s.cnt + 1 - n)
            && (1 <= n <= s.cnt ==> Remove(u.es, CHANNEL_SWITCH) == s.es)
            && (n > s.cnt ==> u.es == s.es && u.issued == s.issued + [ChangeChannel(s.ch)])
            && (n > s.cnt ==> u == Updates(s, s.cnt + 1) && !Running(u.en))
  {
    UpdatesAre(s, n);
    UpdatesAre(s, s.cnt + 1);
    if 1 <= n <= s.cnt {
      ExpectedAdvertises(s, n);
    }
  }

  /**
    Exactly when a started switch ever happens: the beacon has a nonempty element
    right in front of the announcement's place.  Otherwise the count still runs
    down, nothing is ever announced or issued, and any new request is refused.
   */
  lemma SwitchHappensExactly(s: Csa)
    requires Starting(s)
    ensures (exists n: nat :: Updates(s, n).issued != s.issued) <==> HasPlace(s.es)
    ensures (exists n: nat :: Advertised(Updates(s, n).es) >= 0) <==> HasPlace(s.es)
    ensures !HasPlace(s.es) ==>
              forall n: nat, q: Request :: Readable(q) && q.hasChannel ==> !Start(Updates(s, n), q).0
  {
    if HasPlace(s.es) {
      CountdownRunsOut(s, s.cnt + 1);
      assert Updates(s, s.cnt + 1).issued[|s.issued|..] == [ChangeChannel(s.ch)];
      CountdownRunsOut(s, 1);
      assert Advertised(Updates(s, 1).es) >= 0;
    } else {
      NotFound(s.es);
      forall n: nat ensures Updates(s, n) == Expected(s, n) {
        UpdatesAre(s, n);
      }
    }
  }

  /** A beacon whose first element already has a greater id: the switch is lost. */
  lemma LostSwitch()
    ensures exists s: Csa :: Starting(s) && NonEmpty(s.es) && Sorted(s.es)
              && forall n: nat :: Updates(s, n).issued == []
  {
    var s := Csa(SwitchChannel, 36, 5, [Element(48, [1, 0])], []);
    assert !HasPlace(s.es);
    SwitchHappensExactly(s);
    assert forall n: nat :: Updates(s, n).issued == [];
  }

  /**
    A switch that is to end in joining a network: the last update takes the announcement out
    and issues the join if an adapter is linking at that moment.  Otherwise no later
    update issues it or ends the switch, even if an adapter links by then.
   */
  lemma JoinNeedsLinkingThen(s: Csa, linking: bool, later: bool, ch: Byte, count: Byte, q: Request)
    requires s.en == StaJoinBss && s.cnt == 0 && Announces(s.es, ch, count)
    ensures var u := Update(s, linking);
            && |u.es| == |s.es| - 1 && !Has(u.es, 37)
            && u == s.(es := u.es, en := u.en, issued := u.issued)
            && u.issued == (if linking then s.issued + [JoinBss] else s.issued)
            && u.en == (if linking then IeRemove else StaJoinBss)
            && Update(u, later) == u
            && (!linking && Readable(q) && q.hasChannel ==> !Start(u, q).0)
  {
    var k := Find(s.es, CHANNEL_SWITCH);
    var u := Update(s, linking);
    assert u.es == s.es[..k] + s.es[k + 1..];
    forall j | 0 <= j < |u.es| ensures u.es[j].id != CHANNEL_SWITCH {
      assert u.es[j] == s.es[if j < k then j else j + 1];
    }
    NotFound(u.es);
  }

  /** The bytes from i on are an element and the rest of the list. */
  lemma HeadBytes(tail: seq<Byte>, i: nat, es: seq<Element>)
    requires AllFit(es) && i + 1 < |tail| && tail[i..] == Encode(es)
    ensures es != [] && i + 2 + |es[0].data| <= |tail|
    ensures tail[i] == es[0].id && tail[i + 1] == |es[0].data|
    ensures forall k :: 0 <= k < |es[0].data| ==> tail[i + 2 + k] == es[0].data[k]
    ensures AllFit(es[1..]) && tail[i + 2 + |es[0].data|..] == Encode(es[1..])
  {
    assert es != [];
    var e := es[0];
    var bytes := tail[i..];
    assert bytes == EncodeOne(e) + Encode(es[1..]);
    assert bytes[0] == e.id && bytes[1] == |e.data|;
    forall k | 0 <= k < |e.data| ensures tail[i + 2 + k] == e.data[k] {
      assert bytes[2 + k] == EncodeOne(e)[2 + k];
    }
    assert tail[i + 2 + |e.data|..] == bytes[2 + |e.data|..] == Encode(es[1..]);
  }

  // ---------------------------------------------------------------------------
  // In place
  // ---------------------------------------------------------------------------

  class AccessPoint {
    const network: Network
    var en: Enable
    var ch: Byte
    var switchCnt: Byte
    var issued: seq<Command>
    /** `update_bcn`: the beacon is to be sent again. */
    var updateBcn: bool

    ghost predicate Valid(es: seq<Element>)
      reads this, network, network.ies
    {
      network.Holds(es)
    }

    ghost function View(es: seq<Element>): Csa
      reads this
    {
      Csa(en, ch, switchCnt, es, issued)
    }

    constructor (network: Network, es: seq<Element>)
      requires network.Holds(es)
      ensures this.network == network && Valid(es)
      ensures View(es) == Csa(CsaDisable, 0, 0, es, [])
    {
      this.network := network;
      en, ch, switchCnt, issued, updateBcn := CsaDisable, 0, 0, [], false;
    }

    /** The parse loop over the new beacon's elements. */
    method ParseTail(tail: seq<Byte>, ch0: Byte, ghost elements: seq<Element>)
      returns (newCh: Byte, count: Byte)
      requires AllFit(elements) && CsaComplete(elements) && tail == Encode(elements)
      ensures (newCh, count) == LastCsa(elements, ch0, 0)
    {
      newCh, count := ch0, 0;
      var i := 0;
      ghost var rest := elements;
      while i + 1 < |tail|
        invariant 0 <= i <= |tail| && AllFit(rest) && CsaComplete(rest)
        invariant tail[i..] == Encode(rest)
        invariant LastCsa(rest, newCh, count) == LastCsa(elements, ch0, 0)
        decreases |tail| - i
      {
        HeadBytes(tail, i, rest);
        if tail[i] == CHANNEL_SWITCH {
          newCh := tail[i + 3];
          count := tail[i + 4];
        }
        i := i + tail[i + 1] + 2;
        rest := rest[1..];
      }
    }

    /** `cfg80211_rtw_channel_switch`; `tail` is the new beacon's element bytes. */
    method RequestSwitch(hasChannel: bool, allowed: bool, newCh: Byte, tail: Option<seq<Byte>>, apUp: bool,
                         ghost q: Request, ghost es: seq<Element>)
      returns (ok: bool)
      requires Valid(es) && Readable(q)
      requires q == Request(hasChannel, allowed, newCh, q.tail, apUp)
      requires tail == if q.tail.Some? then Some(Encode(q.tail.value)) else None
      modifies this
      ensures Valid(es) && (ok, View(es)) == Start(old(View(es)), q)
    {
      if !hasChannel {
        return true;
      }
      if !allowed || newCh == 0 {
        return false;
      }
      if en == SwitchChannel || en == StaRx || en == StaJoinBss {
        return false;
      }
      if tail.None? {
        return true;
      }
      var newChannel, count := ParseTail(tail.value, newCh, q.tail.value);
      if count == 0 {
        return false;
      }
      if apUp {
        en := SwitchChannel;
        ch := newChannel;
        switchCnt := count;
      }
      return true;
    }

    /** `ap_process_csa`. */
    method Process(linking: bool, ghost es: seq<Element>)
      requires Valid(es)
      modifies this
      ensures Valid(es) && View(es) == ProcessCsa(old(View(es)), linking)
    {
      if switchCnt != 0 {
        return;
      }
      if en == SwitchChannel {
        issued := issued + [ChangeChannel(ch)];
        en := IeRemove;
      } else if en == StaJoinBss {
        if linking {
          en := IeRemove;
          issued := issued + [JoinBss];
        }
      }
    }

    /** `update_csa_ie`: whether the beacon changed, and whether to process. */
    method UpdateCsaIe(ghost es: seq<Element>)
      returns (update: bool, process: bool, ghost now: seq<Element>)
      requires Valid(es) && network.ieLength + UpdateGrowth(View(es)) <= network.ies.Length
      modifies network`ieLength, network.ies
      ensures Valid(now)
      ensures var k := Find(es, CHANNEL_SWITCH);
              if Running(en) && k < |es| && |es[k].data| == CSA_IE_LEN && switchCnt > 0 then
                update && !process && now == es[k := es[k].(data := es[k].data[2 := switchCnt])]
              else if Running(en) && k == |es| && switchCnt > 0 then
                update && !process && now == Add(es, CHANNEL_SWITCH, CsaData(ch, switchCnt))
              else if Running(en) && k < |es| && es[k].data != [] && switchCnt == 0 then
                update && process && now == Remove(es, CHANNEL_SWITCH)
              else !update && !process && now == es
    {
      update, process, now := false, false, es;
      if en == CsaDisable || en == IeRemove {
        return;
      }
      var found := network.GetIe(CHANNEL_SWITCH, es);
      if found.At? && found.len == CSA_IE_LEN && switchCnt > 0 {
        now := network.PokeData(found.offset, 2, switchCnt, Find(es, CHANNEL_SWITCH), es);
        update := true;
      } else if found == Nowhere && switchCnt > 0 {
        network.AddBcnIe(CHANNEL_SWITCH, [0, ch, switchCnt], es);
        now := Add(es, CHANNEL_SWITCH, CsaData(ch, switchCnt));
        update := true;
      } else if found.At? && found.len > 0 && switchCnt == 0 {
        network.RemoveBcnIe(CHANNEL_SWITCH, es);
        now := Remove(es, CHANNEL_SWITCH);
        update := true;
        process := true;
      }
    }

    /** The CSA arm of `_update_beacon`; the beacon counts as updated in every case. */
    method UpdateBeacon(linking: bool, ghost es: seq<Element>)
      returns (ghost now: seq<Element>)
      requires Valid(es) && network.ieLength + UpdateGrowth(View(es)) <= network.ies.Length
      modifies this, network`ieLength, network.ies
      ensures Valid(now) && View(now) == Update(old(View(es)), linking)
      ensures updateBcn
    {
      var changed, process: bool;
      changed, process, now := UpdateCsaIe(es);
      if process {
        Process(linking, now);
      }
      if changed && switchCnt > 0 {
        switchCnt := switchCnt - 1;
      }
      updateBcn := true;
    }
  }
}
