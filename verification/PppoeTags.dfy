/** PPPoE discovery frames (RFC 2516) and the relay tag that remembers the client's address. */
module PppoeTags {

  import opened Basics

  function Value(high: int, low: int): int {
    high * 256 + low
  }

  /** A 16-bit value in network order. */
  function Be16(w: Word): (bytes: seq<Byte>)
    ensures |bytes| == 2 && Value(bytes[0], bytes[1]) == w
  {
    [w / 256, w % 256]
  }

  const RELAY_SID: Word := 0x0110
  const TAG_HDR_LEN := 4
  const MAGIC_CODE: Word := 0x8186
  const MAGIC_CODE_LEN := 2
  const ETH_ALEN := 6
  const TAG_BUF := 40

  datatype Tag = Tag(kind: Word, data: seq<Byte>)

  predicate Fit(t: Tag) {
    |t.data| < 0x1_0000
  }

  predicate Tags(ts: seq<Tag>) {
    forall k :: 0 <= k < |ts| ==> Fit(ts[k])
  }

  function EncodeTag(t: Tag): (bytes: seq<Byte>)
    requires Fit(t)
    ensures |bytes| == TAG_HDR_LEN + |t.data|
  {
    Be16(t.kind) + Be16(|t.data|) + t.data
  }

  function EncodeTags(ts: seq<Tag>): seq<Byte>
    requires Tags(ts)
  {
    if ts == [] then [] else EncodeTag(ts[0]) + EncodeTags(ts[1..])
  }

  lemma {:induction false} ConcatTags(a: seq<Tag>, b: seq<Tag>)
    requires Tags(a) && Tags(b)
    ensures Tags(a + b) && EncodeTags(a + b) == EncodeTags(a) + EncodeTags(b)
  {
    assert forall k :: 0 <= k < |a + b| ==> Fit((a + b)[k]);
    if a == [] {
      assert a + b == b;
    } else {
      assert (a + b)[1..] == a[1..] + b;
      ConcatTags(a[1..], b);
    }
  }

  lemma TagsAround(a: seq<Tag>, t: Tag, b: seq<Tag>)
    requires Tags(a) && Fit(t) && Tags(b)
    ensures Tags(a + [t] + b)
    ensures EncodeTags(a + [t] + b) == EncodeTags(a) + EncodeTag(t) + EncodeTags(b)
    ensures Tags(a + [t]) && EncodeTags(a + [t]) == EncodeTags(a) + EncodeTag(t)
  {
    ConcatTags(a, [t]);
    ConcatTags(a + [t], b);
    assert EncodeTags([t]) == EncodeTag(t) + EncodeTags([]);
  }

  function FindKind(ts: seq<Tag>, kind: Word): (k: nat)
    ensures k <= |ts|
    ensures forall j :: 0 <= j < k ==> ts[j].kind != kind
    ensures k < |ts| ==> ts[k].kind == kind
  {
    if ts == [] || ts[0].kind == kind then 0 else 1 + FindKind(ts[1..], kind)
  }

  // ---------------------------------------------------------------------------
  // What the bridge does to the tags
  // ---------------------------------------------------------------------------

  /** The list without its first relay tag. */
  function Stripped(ts: seq<Tag>): seq<Tag> {
    var k := FindKind(ts, RELAY_SID);
    if k < |ts| then ts[..k] + ts[k + 1..] else ts
  }

  /** The data of the first relay tag, or nothing. */
  function OldData(ts: seq<Tag>): seq<Byte> {
    var k := FindKind(ts, RELAY_SID);
    if k < |ts| then ts[k].data else []
  }

  /** The tag that carries the client's address and the old data. */
  function Relay(mac: seq<Byte>, kept: seq<Byte>): Tag {
    Tag(RELAY_SID, Be16(MAGIC_CODE) + mac + kept)
  }

  /** Old data that fits into the 40-byte buffer on the stack. */
  predicate Relayable(ts: seq<Tag>) {
    |OldData(ts)| + TAG_HDR_LEN + MAGIC_CODE_LEN + ETH_ALEN <= TAG_BUF
  }

  datatype Answer = Bad | Good(mac: seq<Byte>, tags: seq<Tag>)

  /** PADO and PADS: the client's address, and the tags without the bridge's part. */
  function Recover(ts: seq<Tag>): Answer {
    var k := FindKind(ts, RELAY_SID);
    if k == |ts| || |ts[k].data| < MAGIC_CODE_LEN + ETH_ALEN then Bad
    else
      var data := ts[k].data;
      if data[..2] != Be16(MAGIC_CODE) then Bad
      else if |data| > MAGIC_CODE_LEN + ETH_ALEN then
        Good(data[2..8], ts[..k] + [Tag(RELAY_SID, data[8..])] + ts[k + 1..])
      else Good(data[2..8], ts[..k] + ts[k + 1..])
  }

  /** The tag on the wire: type 0x0110, then 0x81, 0x86, the address and what was there before. */
  lemma RelayOnTheWire(mac: seq<Byte>, kept: seq<Byte>)
    requires |mac| == 6 && |kept| < 0x1_0000 - 8
    ensures Fit(Relay(mac, kept))
    ensures EncodeTag(Relay(mac, kept))
         == [0x01, 0x10, (|kept| + 8) / 256, (|kept| + 8) % 256, 0x81, 0x86] + mac + kept
  {
    assert |Relay(mac, kept).data| == |kept| + 8;
  }

  /** Old data of up to 28 octets is taken over. */
  lemma RelayableMeans(ts: seq<Tag>)
    ensures Relayable(ts) <==> |OldData(ts)| <= 28
    ensures OldData(ts) == [] || exists k :: 0 <= k < |ts| && ts[k] == Tag(0x0110, OldData(ts))
                                             && forall j :: 0 <= j < k ==> ts[j].kind != 0x0110
  {
    var k := FindKind(ts, RELAY_SID);
    assert k < |ts| ==> ts[k] == Tag(0x0110, OldData(ts));
  }

  lemma StrippedFits(ts: seq<Tag>)
    requires Tags(ts)
    ensures Tags(Stripped(ts)) && |OldData(ts)| < 0x1_0000
  {
  }

  lemma RecoverFits(ts: seq<Tag>)
    requires Tags(ts) && Recover(ts).Good?
    ensures Tags(Recover(ts).tags) && |Recover(ts).mac| == ETH_ALEN
  {
  }

  /** What is left of the relay tag: nothing, if it held nothing of another relay's. */
  function Kept(data: seq<Byte>): seq<Tag> {
    if data == [] then [] else [Tag(RELAY_SID, data)]
  }

  /**
    Whatever the access concentrator puts around the relay tag, as long as it
    echoes that tag and puts no other relay tag in front: the client's address
    comes back, nonempty old data is restored under the tag, and without old data
    the tag is gone; the other tags are as the concentrator sent them.
   */
  lemma RelayRoundTrip(request: seq<Tag>, mac: seq<Byte>, before: seq<Tag>, after: seq<Tag>)
    requires |mac| == ETH_ALEN && FindKind(before, RELAY_SID) == |before|
    ensures Recover(before + [Relay(mac, OldData(request))] + after)
         == Good(mac, before + Kept(OldData(request)) + after)
  {
    var kept := OldData(request);
    FindAt(before, Relay(mac, kept), after);
    RelayData(mac, kept);
    RecoverAt(before + [Relay(mac, kept)] + after, |before|);
  }

  lemma RecoverAt(ts: seq<Tag>, k: nat)
    requires k == FindKind(ts, RELAY_SID) < |ts|
    requires |ts[k].data| >= MAGIC_CODE_LEN + ETH_ALEN && ts[k].data[..2] == Be16(MAGIC_CODE)
    ensures Recover(ts) == Good(ts[k].data[2..8], ts[..k] + Kept(ts[k].data[8..]) + ts[k + 1..])
  {
    var before, data, after := ts[..k], ts[k].data, ts[k + 1..];
    if |data| == MAGIC_CODE_LEN + ETH_ALEN {
      assert data[8..] == [];
      NothingBetween(before, after);
    } else {
      assert |data[8..]| > 0;
    }
  }

  lemma NothingBetween(a: seq<Tag>, b: seq<Tag>)
    ensures a + [] + b == a + b
  {
  }

  lemma FindAt(before: seq<Tag>, t: Tag, after: seq<Tag>)
    requires FindKind(before, RELAY_SID) == |before| && t.kind == RELAY_SID
    ensures var ts, k := before + [t] + after, |before|;
            FindKind(ts, RELAY_SID) == k && ts[k] == t && ts[..k] == before && ts[k + 1..] == after
  {
    var ts, k := before + [t] + after, |before|;
    assert ts[k] == t;
    assert forall j :: 0 <= j < k ==> ts[j] == before[j];
  }

  lemma RelayData(mac: seq<Byte>, kept: seq<Byte>)
    requires |mac| == ETH_ALEN
    ensures var data := Relay(mac, kept).data;
            && |data| == MAGIC_CODE_LEN + ETH_ALEN + |kept|
            && data[..2] == Be16(MAGIC_CODE) && data[2..8] == mac && data[8..] == kept
  {
  }

  /** Only the first relay tag leaves the list. */
  lemma StrippedKeepsOthers(ts: seq<Tag>)
    ensures FindKind(ts, RELAY_SID) == |ts| ==> Stripped(ts) == ts && OldData(ts) == []
    ensures FindKind(ts, RELAY_SID) < |ts| ==>
              multiset(ts) == multiset(Stripped(ts)) + multiset{ts[FindKind(ts, RELAY_SID)]}
  {
    StrippedPick(ts, FindKind(ts, RELAY_SID), Stripped(ts));
  }

  lemma StrippedPick(ts: seq<Tag>, k: nat, r: seq<Tag>)
    requires k <= |ts| && r == if k < |ts| then ts[..k] + ts[k + 1..] else ts
    ensures k == |ts| ==> r == ts
    ensures k < |ts| ==> multiset(ts) == multiset(r) + multiset{ts[k]}
  {
    if k < |ts| {
      Pick(ts, k);
    }
  }

  lemma Pick(ts: seq<Tag>, k: nat)
    requires k < |ts|
    ensures multiset(ts) == multiset(ts[..k] + ts[k + 1..]) + multiset{ts[k]}
  {
    var a, t, b := ts[..k], ts[k], ts[k + 1..];
    assert ts == a + ([t] + b);
  }

  /**
    How much room the code makes for the new tag: it takes the tag's length as
    stored, in network order.  That is the tag's size exactly on a big-endian host.
   */
  lemma RoomIsRightExactly(little: bool, n: nat)
    requires n + TAG_HDR_LEN + MAGIC_CODE_LEN + ETH_ALEN <= TAG_BUF
    ensures var len := MAGIC_CODE_LEN + ETH_ALEN + n;
            && (Htons(little, len) == len <==> !little)
            && (little ==> Htons(little, len) >= 2048)
  {
  }
}
