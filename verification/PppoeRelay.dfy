/** The relay tag added to and taken from discovery frames in their packet buffer. */
module PppoeRelay {

  import opened Basics
  import opened PppoeTags
  import BeaconBuffer

  /** Where the PPPoE length field and the tags are. */
  const LENGTH_AT := 18
  const TAGS_AT := 20

  class Skb {
    const data: array<Byte>
    var len: nat

    constructor (size: nat)
      requires size < 0x1_0000
      ensures fresh(data) && data.Length == size && len == 0
    {
      data := new Byte[size](_ => 0);
      len := 0;
    }

    /** Addresses, type and code, then a length field that counts the body, then padding. */
    ghost predicate Raw(head: seq<Byte>, body: seq<Byte>, trailer: seq<Byte>)
      reads this, data
    {
      && |head| == LENGTH_AT
      && TAGS_AT + |body| + |trailer| == len <= data.Length < 0x1_0000
      && data[..LENGTH_AT] == head
      && Value(data[LENGTH_AT], data[LENGTH_AT + 1]) == |body|
      && data[TAGS_AT..len] == body + trailer
    }

    ghost predicate Frame(head: seq<Byte>, ts: seq<Tag>, trailer: seq<Byte>)
      reads this, data
    {
      Tags(ts) && Raw(head, EncodeTags(ts), trailer)
    }

    /** The layout in octets: addresses, type and code up to 17, the length in 18 and 19, then the tags. */
    lemma Layout(head: seq<Byte>, body: seq<Byte>, trailer: seq<Byte>)
      requires Raw(head, body, trailer)
      ensures 20 + |body| + |trailer| == len <= data.Length
      ensures data[..18] == head && Value(data[18], data[19]) == |body|
      ensures data[20..20 + |body|] == body && data[20 + |body|..len] == trailer
    {
      var rest := data[TAGS_AT..len];
      assert data[20..20 + |body|] == rest[..|body|];
      assert data[20 + |body|..len] == rest[|body|..];
    }

    lemma BodyAt(head: seq<Byte>, body: seq<Byte>, trailer: seq<Byte>, p: nat, n: nat)
      requires Raw(head, body, trailer) && TAG_HDR_LEN <= n && p + n <= |body|
      ensures data[TAGS_AT + p] == body[p] && data[TAGS_AT + p + 1] == body[p + 1]
      ensures data[TAGS_AT + p + 2] == body[p + 2] && data[TAGS_AT + p + 3] == body[p + 3]
      ensures data[TAGS_AT + p + TAG_HDR_LEN..TAGS_AT + p + n] == body[p + TAG_HDR_LEN..p + n]
    {
      var rest := data[TAGS_AT..len];
      assert forall j :: 0 <= j < |body| ==> data[TAGS_AT + j] == rest[j] == body[j];
    }

    /** What a scan sees at the k-th tag. */
    lemma AtTag(head: seq<Byte>, ts: seq<Tag>, trailer: seq<Byte>, k: nat, p: nat)
      requires Frame(head, ts, trailer) && k <= |ts| && Tags(ts[..k])
      requires p == |EncodeTags(ts[..k])|
      ensures k == |ts| ==> p == |EncodeTags(ts)|
      ensures k < |ts| ==>
                && p + TAG_HDR_LEN + |ts[k].data| <= |EncodeTags(ts)|
                && Value(data[TAGS_AT + p], data[TAGS_AT + p + 1]) == ts[k].kind
                && Value(data[TAGS_AT + p + 2], data[TAGS_AT + p + 3]) == |ts[k].data|
                && data[TAGS_AT + p + TAG_HDR_LEN..TAGS_AT + p + TAG_HDR_LEN + |ts[k].data|] == ts[k].data
                && Tags(ts[..k + 1])
                && p + TAG_HDR_LEN + |ts[k].data| == |EncodeTags(ts[..k + 1])|
    {
      TagBytes(ts, k, p);
      if k < |ts| {
        BodyAt(head, EncodeTags(ts), trailer, p, TAG_HDR_LEN + |ts[k].data|);
      }
    }

    /** `__nat25_find_pppoe_tag`: where the tag starts among the tags, if there is one. */
    method FindTag(kind: Word, ghost head: seq<Byte>, ghost ts: seq<Tag>, ghost trailer: seq<Byte>)
      returns (found: bool, p: nat)
      requires Frame(head, ts, trailer)
      ensures found <==> FindKind(ts, kind) < |ts|
      ensures found ==> Tags(ts[..FindKind(ts, kind)]) && p == |EncodeTags(ts[..FindKind(ts, kind)])|
    {
      p := 0;
      ghost var k := 0;
      var length := Value(data[LENGTH_AT], data[LENGTH_AT + 1]);
      while p < length
        invariant 0 <= k <= |ts| && Tags(ts[..k])
        invariant p == |EncodeTags(ts[..k])| <= length
        invariant forall j :: 0 <= j < k ==> ts[j].kind != kind
        decreases length - p
      {
        AtTag(head, ts, trailer, k, p);
        if Value(data[TAGS_AT + p], data[TAGS_AT + p + 1]) == kind {
          return true, p;
        }
        p := p + TAG_HDR_LEN + Value(data[TAGS_AT + p + 2], data[TAGS_AT + p + 3]);
        k := k + 1;
      }
      AtTag(head, ts, trailer, k, p);
      return false, p;
    }

    /** Stores a length in network order. */
    method SetLength(n: nat)
      requires n < 0x1_0000 && data.Length >= TAGS_AT
      modifies data
      ensures Value(data[LENGTH_AT], data[LENGTH_AT + 1]) == n
      ensures forall j :: 0 <= j < data.Length && j != LENGTH_AT && j != LENGTH_AT + 1 ==>
                data[j] == old(data[j])
    {
      data[LENGTH_AT], data[LENGTH_AT + 1] := n / 256, n % 256;
    }

    /** `skb_pull_and_merge`: takes bytes out of the middle; refused beyond the end. */
    method PullAndMerge(src: nat, n: nat) returns (ok: bool)
      requires len <= data.Length
      modifies this`len, data
      ensures ok <==> src + n <= old(len)
      ensures !ok ==> len == old(len) && forall j :: 0 <= j < data.Length ==> data[j] == old(data[j])
      ensures ok ==> len == old(len) - n
                     && (forall j :: 0 <= j < src ==> data[j] == old(data[j]))
                     && (forall j :: src <= j < len ==> data[j] == old(data[j + n]))
    {
      if src + n > len || len < n {
        return false;
      }
      var tail := data[src + n..len];
      if |tail| > 0 {
        BeaconBuffer.MemCopy(data, src, tail);
        assert forall j :: src <= j < len - n ==> data[j] == data[src..src + |tail|][j - src];
      }
      len := len - n;
      return true;
    }

    /** Takes bytes out of the body and corrects the length field. */
    method Cut(i: nat, n: nat, ghost head: seq<Byte>, ghost body: seq<Byte>, ghost trailer: seq<Byte>)
      returns (ok: bool)
      requires Raw(head, body, trailer) && i + n <= |body|
      modifies this`len, data
      ensures ok && Raw(head, body[..i] + body[i + n..], trailer) && len == old(len) - n
    {
      var length := Value(data[LENGTH_AT], data[LENGTH_AT + 1]);
      ghost var was: seq<Byte> := data[TAGS_AT..len];
      ok := PullAndMerge(TAGS_AT + i, n);
      if !ok {
        return;
      }
      ghost var left := was[..i] + was[i + n..];
      assert data[TAGS_AT..len] == left;
      SetLength(length - n);
      assert data[TAGS_AT..len] == left;
      CutBody(body, trailer, i, n);
      assert data[..LENGTH_AT] == head;
    }

    static lemma CutBody(body: seq<Byte>, trailer: seq<Byte>, i: nat, n: nat)
      requires i + n <= |body|
      ensures var was := body + trailer; was[..i] + was[i + n..] == body[..i] + body[i + n..] + trailer
    {
    }

    /** Makes room in front of the tags, and corrects the length field. */
    method MakeRoom(room: nat, ghost head: seq<Byte>, ghost body: seq<Byte>, ghost trailer: seq<Byte>)
      requires Raw(head, body, trailer) && len + room <= data.Length
      modifies this`len, data
      ensures len == old(len) + room && data[..LENGTH_AT] == head
      ensures Value(data[LENGTH_AT], data[LENGTH_AT + 1]) == |body| + room
      ensures data[TAGS_AT + room..TAGS_AT + room + |body|] == body
    {
      var length := Value(data[LENGTH_AT], data[LENGTH_AT + 1]);
      var tags := data[TAGS_AT..TAGS_AT + length];
      assert tags == data[TAGS_AT..len][..length] == body;
      len := len + room;
      BeaconBuffer.MemCopy(data, TAGS_AT + room, tags);
      ghost var at := TAGS_AT + room;
      ghost var moved := data[at..at + |body|];
      SetLength(length + room);
      assert data[at..at + |body|] == moved;
      assert data[..LENGTH_AT] == head;
    }

    /** Fills the room in front of the tags. */
    method FillRoom(bytes: seq<Byte>, ghost head: seq<Byte>, ghost body: seq<Byte>)
      returns (ghost padding: seq<Byte>)
      requires |head| == LENGTH_AT && TAGS_AT + |bytes| + |body| <= len <= data.Length < 0x1_0000
      requires data[..LENGTH_AT] == head
      requires Value(data[LENGTH_AT], data[LENGTH_AT + 1]) == |bytes| + |body|
      requires data[TAGS_AT + |bytes|..TAGS_AT + |bytes| + |body|] == body
      modifies data
      ensures |padding| == len - (TAGS_AT + |bytes| + |body|)
      ensures Raw(head, bytes + body, padding)
    {
      BeaconBuffer.MemCopy(data, TAGS_AT, bytes);
      ghost var at := TAGS_AT + |bytes|;
      assert data[at..at + |body|] == body;
      padding := data[at + |body|..len];
      assert data[TAGS_AT..len] == data[TAGS_AT..at] + data[at..at + |body|] + padding;
      assert data[..LENGTH_AT] == head;
    }

    /**
      `__nat25_add_pppoe_tag`: makes room in front of the tags and copies the tag's
      memory there.  `room` is what the code computes from the stored length;
      padding behind the tags keeps its size but not its bytes.
     */
    method AddTag(memory: seq<Byte>, room: nat,
                  ghost head: seq<Byte>, ghost body: seq<Byte>, ghost trailer: seq<Byte>)
      returns (ok: bool, ghost padding: seq<Byte>)
      requires Raw(head, body, trailer) && room <= |memory|
      modifies this`len, data
      ensures ok <==> old(len) + room <= data.Length
      ensures |padding| == |trailer|
      ensures Raw(head, if ok then memory[..room] + body else body, padding)
    {
      padding := trailer;
      if data.Length - len < room {
        return false, padding;
      }
      MakeRoom(room, head, body, trailer);
      padding := FillRoom(memory[..room], head, body);
      ok := true;
    }

    /** Takes the first relay tag out of the frame. */
    method CutTag(p: nat, n: nat, ghost head: seq<Byte>, ghost ts: seq<Tag>, ghost k: nat,
                  ghost trailer: seq<Byte>)
      requires Frame(head, ts, trailer) && k == FindKind(ts, RELAY_SID) < |ts| && n == |ts[k].data|
      requires Tags(ts[..k]) && p == |EncodeTags(ts[..k])|
      modifies this`len, data
      ensures Frame(head, Stripped(ts), trailer) && len == old(len) - (TAG_HDR_LEN + n)
    {
      ghost var body, left := EncodeTags(ts), StrippedEncoding(ts, k, p, n);
      var _ := Cut(p, TAG_HDR_LEN + n, head, body, trailer);
      assert Raw(head, left, trailer);
    }

    /** Copies an old relay tag's data out and removes the tag; refused when it is too long. */
    method TakeOld(ghost head: seq<Byte>, ghost ts: seq<Tag>, ghost trailer: seq<Byte>)
      returns (ok: bool, kept: seq<Byte>)
      requires Frame(head, ts, trailer)
      modifies this`len, data
      ensures ok <==> Relayable(ts)
      ensures ok ==> kept == OldData(ts) && Frame(head, Stripped(ts), trailer)
                     && len == old(len) - StrippedBytes(ts)
      ensures !ok ==> Frame(head, ts, trailer)
    {
      kept := [];
      var found, p := FindTag(RELAY_SID, head, ts, trailer);
      ghost var k := FindKind(ts, RELAY_SID);
      if found {
        AtTag(head, ts, trailer, k, p);
        var keptLen := Value(data[TAGS_AT + p + 2], data[TAGS_AT + p + 3]);
        if keptLen + TAG_HDR_LEN + MAGIC_CODE_LEN + ETH_ALEN > TAG_BUF {
          return false, kept;
        }
        kept := data[TAGS_AT + p + TAG_HDR_LEN..TAGS_AT + p + TAG_HDR_LEN + keptLen];
        CutTag(p, keptLen, head, ts, k, trailer);
      } else {
        StrippedKeepsOthers(ts);
      }
      ok := true;
    }

    /**
      PADI and PADR: `junk` is whatever lies in memory behind the new tag, which the
      code may copy as well.
     */
    method InsertRelay(little: bool, junk: seq<Byte>,
                       ghost head: seq<Byte>, ghost ts: seq<Tag>, ghost trailer: seq<Byte>)
      returns (code: int, ghost padding: seq<Byte>)
      requires Frame(head, ts, trailer) && |junk| >= 0x1_0003
      modifies this`len, data
      ensures |padding| == |trailer|
      ensures !Relayable(ts) ==> code == -1 && Frame(head, ts, padding)
      ensures Relayable(ts) && old(len) - StrippedBytes(ts) + Room(little, ts) > data.Length ==>
                code == -1 && Frame(head, Stripped(ts), padding)
      ensures Relayable(ts) && old(len) - StrippedBytes(ts) + Room(little, ts) <= data.Length ==>
                code == 0 && Raw(head, RelayedBody(little, head, ts, junk), padding)
      ensures code == 0 && !little ==> Frame(head, [RelayFor(head, ts)] + Stripped(ts), padding)
    {
      padding := trailer;
      var ok, kept := TakeOld(head, ts, trailer);
      if !ok {
        return -1, padding;
      }
      var tagLen := MAGIC_CODE_LEN + ETH_ALEN + |kept|;
      var mac := data[ETH_ALEN..2 * ETH_ALEN];
      assert mac == data[..LENGTH_AT][ETH_ALEN..2 * ETH_ALEN];
      ok, padding := AddTag(EncodeTag(Relay(mac, kept)) + junk, Htons(little, tagLen) + TAG_HDR_LEN,
                            head, EncodeTags(Stripped(ts)), trailer);
      code := -1;
      if ok {
        code := 0;
        InsertedFrame(little, head, ts, junk, padding);
      }
    }

    lemma InsertedFrame(little: bool, head: seq<Byte>, ts: seq<Tag>, junk: seq<Byte>, padding: seq<Byte>)
      requires |head| == LENGTH_AT && Tags(ts) && Relayable(ts) && |junk| >= 0x1_0003
      requires Raw(head, RelayedBody(little, head, ts, junk), padding)
      ensures !little ==> Frame(head, [RelayFor(head, ts)] + Stripped(ts), padding)
    {
      BigEndianInserts(head, ts, junk);
    }

    /** Overwrites the length of the tag at an offset. */
    method PutTagLength(p: nat, n: nat, ghost head: seq<Byte>, ghost body: seq<Byte>,
                        ghost trailer: seq<Byte>)
      returns (ghost now: seq<Byte>)
      requires Raw(head, body, trailer) && p + TAG_HDR_LEN <= |body| && n < 0x1_0000
      modifies data
      ensures now == body[p + 2 := n / 256][p + 3 := n % 256] && Raw(head, now, trailer)
    {
      var high: Byte, low: Byte := n / 256, n % 256;
      now := body[p + 2 := high][p + 3 := low];
      ghost var was: seq<Byte> := data[TAGS_AT..len];
      data[TAGS_AT + p + 2], data[TAGS_AT + p + 3] := high, low;
      assert data[TAGS_AT..len] == was[p + 2 := high][p + 3 := low] == now + trailer;
      assert data[..LENGTH_AT] == head;
    }

    /** Overwrites the destination address. */
    method PutMac(mac: seq<Byte>, ghost head: seq<Byte>, ghost body: seq<Byte>, ghost trailer: seq<Byte>)
      requires Raw(head, body, trailer) && |mac| == ETH_ALEN
      modifies data
      ensures Raw(mac + head[ETH_ALEN..], body, trailer)
    {
      ghost var was, rest := data[..LENGTH_AT], data[TAGS_AT..len];
      BeaconBuffer.MemCopy(data, 0, mac);
      assert data[..LENGTH_AT] == mac + was[ETH_ALEN..];
      assert data[TAGS_AT..len] == rest;
    }

    /** Looks for a relay tag that starts with the magic code and an address. */
    method CheckRelay(ghost head: seq<Byte>, ghost ts: seq<Tag>, ghost trailer: seq<Byte>)
      returns (good: bool, p: nat, tagLen: nat, mac: seq<Byte>)
      requires Frame(head, ts, trailer)
      ensures good <==> Recover(ts).Good?
      ensures good ==>
                var k := FindKind(ts, RELAY_SID);
                && k < |ts| && tagLen == |ts[k].data| && mac == Recover(ts).mac
                && Tags(ts[..k]) && p == |EncodeTags(ts[..k])|
    {
      good, tagLen, mac := false, 0, [];
      var found;
      found, p := FindTag(RELAY_SID, head, ts, trailer);
      if !found {
        return;
      }
      AtTag(head, ts, trailer, FindKind(ts, RELAY_SID), p);
      var at := TAGS_AT + p;
      tagLen := Value(data[at + 2], data[at + 3]);
      if tagLen < MAGIC_CODE_LEN + ETH_ALEN {
        return;
      }
      var tagData := data[at + TAG_HDR_LEN..at + TAG_HDR_LEN + tagLen];
      RecoverIs(ts, tagData);
      good, mac := Value(tagData[0], tagData[1]) == MAGIC_CODE, tagData[2..8];
    }

    /** PADO and PADS. */
    method LookupRelay(ghost head: seq<Byte>, ghost ts: seq<Tag>, ghost trailer: seq<Byte>)
      returns (code: int)
      requires Frame(head, ts, trailer)
      modifies this`len, data
      ensures Recover(ts).Bad? ==> code == -1 && Frame(head, ts, trailer)
      ensures Recover(ts).Good? ==>
                && code == 0 && |head| == LENGTH_AT
                && Frame(Recover(ts).mac + head[ETH_ALEN..], Recover(ts).tags, trailer)
    {
      var good, p, tagLen, mac := CheckRelay(head, ts, trailer);
      if !good {
        return -1;
      }
      RecoverFits(ts);
      PutMac(mac, head, EncodeTags(ts), trailer);
      DropRelay(p, tagLen, mac + head[ETH_ALEN..], ts, FindKind(ts, RELAY_SID), trailer);
      code := 0;
    }

    /** Takes the bridge's eight bytes out of a longer tag. */
    method ShortenTag(p: nat, n: nat, ghost head: seq<Byte>, ghost a: seq<Tag>, ghost t: Tag,
                      ghost b: seq<Tag>, ghost u: Tag, ghost trailer: seq<Byte>)
      requires Frame(head, a + [t] + b, trailer) && Tags(a) && Fit(t) && Tags(b) && Fit(u)
      requires p == |EncodeTags(a)| && n == |u.data|
      requires |t.data| > 8 && u == Tag(t.kind, t.data[8..])
      modifies this`len, data
      ensures Frame(head, a + [u] + b, trailer)
    {
      RestoredBody(a, t, b, u);
      ghost var e := EncodeTags(a + [t] + b);
      var ok := Cut(p + TAG_HDR_LEN, MAGIC_CODE_LEN + ETH_ALEN, head, e, trailer);
      if ok {
        var _ := PutTagLength(p, n, head, e[..p + TAG_HDR_LEN] + e[p + TAG_HDR_LEN + 8..], trailer);
      }
    }

    /** Takes the bridge's part out of the relay tag, or the tag if there is nothing else in it. */
    method DropRelay(p: nat, tagLen: nat, ghost head: seq<Byte>, ghost ts: seq<Tag>, ghost k: nat,
                     ghost trailer: seq<Byte>)
      requires Frame(head, ts, trailer) && Recover(ts).Good?
      requires k == FindKind(ts, RELAY_SID) < |ts| && tagLen == |ts[k].data|
      requires Tags(ts[..k]) && p == |EncodeTags(ts[..k])|
      modifies this`len, data
      ensures Frame(head, Recover(ts).tags, trailer)
    {
      if tagLen > MAGIC_CODE_LEN + ETH_ALEN {
        ghost var a, t, b := ts[..k], ts[k], ts[k + 1..];
        ghost var u := Tag(RELAY_SID, t.data[8..]);
        assert ts == a + [t] + b && Recover(ts).tags == a + [u] + b;
        ShortenTag(p, tagLen - 8, head, a, t, b, u, trailer);
      } else {
        CutTag(p, 8, head, ts, k, trailer);
      }
    }
  }

  /** How many bytes the old relay tag takes. */
  function StrippedBytes(ts: seq<Tag>): nat {
    if FindKind(ts, RELAY_SID) < |ts| then TAG_HDR_LEN + |OldData(ts)| else 0
  }

  /** The room the code makes for the new tag, from the length as stored. */
  function Room(little: bool, ts: seq<Tag>): nat
    requires Relayable(ts)
  {
    Htons(little, MAGIC_CODE_LEN + ETH_ALEN + |OldData(ts)|) + TAG_HDR_LEN
  }

  /** The new tag, with the source address from the frame's head. */
  function RelayFor(head: seq<Byte>, ts: seq<Tag>): (t: Tag)
    requires |head| == LENGTH_AT && Relayable(ts)
    ensures Fit(t)
  {
    Relay(head[ETH_ALEN..2 * ETH_ALEN], OldData(ts))
  }

  /** The tags afterwards, as bytes: as much of the tag's memory as there is room, then the others. */
  function RelayedBody(little: bool, head: seq<Byte>, ts: seq<Tag>, junk: seq<Byte>): seq<Byte>
    requires |head| == LENGTH_AT && Tags(ts) && Relayable(ts) && |junk| >= 0x1_0003
  {
    StrippedFits(ts);
    (EncodeTag(RelayFor(head, ts)) + junk)[..Room(little, ts)] + EncodeTags(Stripped(ts))
  }

  /** On a big-endian host the frame gets exactly the new tag, in front. */
  lemma BigEndianInserts(head: seq<Byte>, ts: seq<Tag>, junk: seq<Byte>)
    requires |head| == LENGTH_AT && Tags(ts) && Relayable(ts) && |junk| >= 0x1_0003
    ensures Tags([RelayFor(head, ts)] + Stripped(ts))
    ensures RelayedBody(false, head, ts, junk) == EncodeTags([RelayFor(head, ts)] + Stripped(ts))
  {
    StrippedFits(ts);
    var t := RelayFor(head, ts);
    assert (EncodeTag(t) + junk)[..Room(false, ts)] == EncodeTag(t);
    TagsAround([], t, Stripped(ts));
    assert [] + [t] + Stripped(ts) == [t] + Stripped(ts);
  }

  /**
    From the request to the reply: whatever the concentrator puts around the tag that the
    request got, the client's own address, octets 6 to 11 of the request, comes back.
   */
  lemma ClientComesBack(head: seq<Byte>, ts: seq<Tag>, before: seq<Tag>, after: seq<Tag>)
    requires |head| == LENGTH_AT && Relayable(ts) && FindKind(before, RELAY_SID) == |before|
    ensures Recover(before + [RelayFor(head, ts)] + after)
         == Good(head[6..12], before + Kept(OldData(ts)) + after)
  {
    RelayRoundTrip(ts, head[6..12], before, after);
  }

  /** And the reply is sent to it: its destination, octets 0 to 5, is the request's source. */
  lemma ReplyGoesToClient(head: seq<Byte>, ts: seq<Tag>, reply: seq<Byte>, before: seq<Tag>, after: seq<Tag>)
    requires |head| == |reply| == LENGTH_AT && Relayable(ts) && FindKind(before, RELAY_SID) == |before|
    ensures var r := Recover(before + [RelayFor(head, ts)] + after);
            r.Good? && (r.mac + reply[6..])[..6] == head[6..12] && (r.mac + reply[6..])[6..] == reply[6..]
  {
    ClientComesBack(head, ts, before, after);
  }

  /** Stripping takes away exactly the bytes of that tag. */
  lemma StrippedBytesAre(ts: seq<Tag>)
    requires Tags(ts)
    ensures Tags(Stripped(ts)) && |EncodeTags(ts)| == |EncodeTags(Stripped(ts))| + StrippedBytes(ts)
    ensures StrippedBytes(ts) == if exists k :: 0 <= k < |ts| && ts[k].kind == 0x0110 then 4 + |OldData(ts)| else 0
  {
    HasRelay(ts);
    var k := FindKind(ts, RELAY_SID);
    if k < |ts| {
      StrippedBody(ts, k);
    }
  }

  lemma HasRelay(ts: seq<Tag>)
    ensures FindKind(ts, RELAY_SID) < |ts| <==> exists k :: 0 <= k < |ts| && ts[k].kind == 0x0110
  {
    var k := FindKind(ts, RELAY_SID);
    assert k < |ts| ==> ts[k].kind == 0x0110;
  }

  /** The k-th tag out of the list, and its bytes out of the encoding. */
  lemma StrippedBody(ts: seq<Tag>, k: nat)
    requires Tags(ts) && k < |ts|
    ensures Tags(ts[..k]) && Tags(ts[..k] + ts[k + 1..])
    ensures var e, p := EncodeTags(ts), |EncodeTags(ts[..k])|;
            && p + TAG_HDR_LEN + |ts[k].data| <= |e|
            && e[..p] + e[p + TAG_HDR_LEN + |ts[k].data|..] == EncodeTags(ts[..k] + ts[k + 1..])
  {
    SplitTags(ts, k);
    TagOut(ts[..k], ts[k], ts[k + 1..]);
  }

  lemma SplitTags(ts: seq<Tag>, k: nat)
    requires Tags(ts) && k < |ts|
    ensures Tags(ts[..k]) && Fit(ts[k]) && Tags(ts[k + 1..]) && ts[..k] + [ts[k]] + ts[k + 1..] == ts
  {
  }

  /** What is left of the encoding when the tag at p is taken out. */
  ghost function StrippedEncoding(ts: seq<Tag>, k: nat, p: nat, n: nat): (left: seq<Byte>)
    requires Tags(ts) && k == FindKind(ts, RELAY_SID) < |ts| && n == |ts[k].data|
    requires Tags(ts[..k]) && p == |EncodeTags(ts[..k])|
    ensures p + TAG_HDR_LEN + n <= |EncodeTags(ts)|
    ensures left == EncodeTags(ts)[..p] + EncodeTags(ts)[p + TAG_HDR_LEN + n..]
    ensures Tags(Stripped(ts)) && left == EncodeTags(Stripped(ts))
  {
    StrippedBody(ts, k);
    EncodeTags(Stripped(ts))
  }

  lemma TagOut(a: seq<Tag>, t: Tag, b: seq<Tag>)
    requires Tags(a) && Fit(t) && Tags(b)
    ensures Tags(a + [t] + b) && Tags(a + b)
    ensures var e, p := EncodeTags(a + [t] + b), |EncodeTags(a)|;
            && p + TAG_HDR_LEN + |t.data| <= |e|
            && e[..p] + e[p + TAG_HDR_LEN + |t.data|..] == EncodeTags(a + b)
  {
    TagsAround(a, t, b);
    ConcatTags(a, b);
    OutOfMiddle(EncodeTags(a), EncodeTag(t), EncodeTags(b));
  }

  lemma OutOfMiddle(x: seq<Byte>, y: seq<Byte>, z: seq<Byte>)
    ensures (x + y + z)[..|x|] == x && (x + y + z)[|x| + |y|..] == z
  {
  }

  /** Whether the first relay tag is good, by its data. */
  lemma RecoverIs(ts: seq<Tag>, tagData: seq<Byte>)
    requires FindKind(ts, RELAY_SID) < |ts| && tagData == ts[FindKind(ts, RELAY_SID)].data && |tagData| >= 8
    ensures Recover(ts).Good? <==> Value(tagData[0], tagData[1]) == MAGIC_CODE
    ensures Recover(ts).Good? ==> Recover(ts).mac == tagData[2..8]
  {
    MagicIs(tagData);
  }

  lemma MagicIs(tagData: seq<Byte>)
    requires |tagData| >= 2
    ensures Value(tagData[0], tagData[1]) == MAGIC_CODE <==> tagData[..2] == Be16(MAGIC_CODE)
  {
  }

  lemma RestoredBody(a: seq<Tag>, t: Tag, b: seq<Tag>, u: Tag)
    requires Tags(a) && Fit(t) && Tags(b) && Fit(u)
    requires |t.data| > 8 && u == Tag(t.kind, t.data[8..])
    ensures Tags(a + [t] + b) && Tags(a + [u] + b)
    ensures var e, p, n := EncodeTags(a + [t] + b), |EncodeTags(a)|, |u.data|;
            && p + TAG_HDR_LEN + 8 <= |e|
            && (e[..p + TAG_HDR_LEN] + e[p + TAG_HDR_LEN + 8..])[p + 2 := n / 256][p + 3 := n % 256]
               == EncodeTags(a + [u] + b)
  {
    TagsAround(a, t, b);
    TagsAround(a, u, b);
    Shorter(EncodeTags(a), t, u, EncodeTags(b));
  }

  lemma Shorter(x: seq<Byte>, t: Tag, u: Tag, z: seq<Byte>)
    requires Fit(t) && Fit(u) && |t.data| > 8 && u == Tag(t.kind, t.data[8..])
    ensures var e, p, n := x + EncodeTag(t) + z, |x|, |u.data|;
            (e[..p + TAG_HDR_LEN] + e[p + TAG_HDR_LEN + 8..])[p + 2 := n / 256][p + 3 := n % 256]
            == x + EncodeTag(u) + z
  {
    var e, p, n := x + EncodeTag(t) + z, |x|, |u.data|;
    assert e[..p + TAG_HDR_LEN] == x + Be16(t.kind) + Be16(|t.data|);
    assert e[p + TAG_HDR_LEN + 8..] == u.data + z;
  }

  lemma TagBytes(ts: seq<Tag>, k: nat, p: nat)
    requires Tags(ts) && k <= |ts| && Tags(ts[..k]) && p == |EncodeTags(ts[..k])|
    ensures k == |ts| ==> p == |EncodeTags(ts)|
    ensures k < |ts| ==>
              var e, n := EncodeTags(ts), |ts[k].data|;
              && p + TAG_HDR_LEN + n <= |e|
              && Value(e[p], e[p + 1]) == ts[k].kind
              && Value(e[p + 2], e[p + 3]) == n
              && e[p + TAG_HDR_LEN..p + TAG_HDR_LEN + n] == ts[k].data
              && Tags(ts[..k + 1])
              && p + TAG_HDR_LEN + n == |EncodeTags(ts[..k + 1])|
  {
    if k == |ts| {
      assert ts[..k] == ts;
    } else {
      var a, t, b := ts[..k], ts[k], ts[k + 1..];
      assert ts == a + [t] + b && ts[..k + 1] == a + [t];
      TagsAround(a, t, b);
      Middle(EncodeTags(a), EncodeTag(t), EncodeTags(b), t);
    }
  }

  lemma Middle(x: seq<Byte>, y: seq<Byte>, z: seq<Byte>, t: Tag)
    requires Fit(t) && y == EncodeTag(t)
    ensures var e, p, n := x + y + z, |x|, |t.data|;
            && Value(e[p], e[p + 1]) == t.kind && Value(e[p + 2], e[p + 3]) == n
            && e[p + TAG_HDR_LEN..p + TAG_HDR_LEN + n] == t.data
  {
    assert y[..2] == Be16(t.kind) && y[2..4] == Be16(|t.data|) && y[4..] == t.data;
  }
}
