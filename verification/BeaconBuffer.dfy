/** The beacon's element buffer, edited in place. */
module BeaconBuffer {

  import opened Basics
  import opened BeaconElements

  /** Timestamp, beacon interval and capability field, in front of the elements. */
  const FIXED_IES := 12

  datatype Found = Nowhere | At(offset: nat, len: Byte)

  /** `_rtw_memcpy` into a buffer. */
  method MemCopy(buf: array<Byte>, at: nat, bytes: seq<Byte>)
    requires at + |bytes| <= buf.Length
    modifies buf
    ensures buf[at..at + |bytes|] == bytes
    ensures forall j :: 0 <= j < at || at + |bytes| <= j < buf.Length ==> buf[j] == old(buf[j])
  {
    var n := 0;
    while n < |bytes|
      invariant 0 <= n <= |bytes|
      invariant forall j :: 0 <= j < n ==> buf[at + j] == bytes[j]
      invariant forall j :: 0 <= j < at || at + |bytes| <= j < buf.Length ==> buf[j] == old(buf[j])
    {
      buf[at + n] := bytes[n];
      n := n + 1;
    }
  }

  /** The encoding of two lists, cut between them. */
  lemma Halves(bytes: seq<Byte>, a: seq<Element>, b: seq<Element>)
    requires AllFit(a) && AllFit(b) && AllFit(a + b) && bytes == Encode(a + b)
    ensures var n := |Encode(a)|;
            && |bytes| == n + |Encode(b)| && bytes[..n] == Encode(a) && bytes[n..] == Encode(b)
            && (b == [] ==> n == |bytes|)
            && (b != [] ==> n + 2 <= |bytes| && bytes[n] == b[0].id && bytes[n + 1] == |b[0].data|)
  {
    EncodeConcat(a, b);
    if b != [] {
      assert Encode(b)[0] == b[0].id && Encode(b)[1] == |b[0].data|;
    }
  }

  class Network {
    const ies: array<Byte>
    var ieLength: nat

    constructor (size: nat)
      requires size >= FIXED_IES
      ensures fresh(ies) && ies.Length == size && Holds([])
    {
      ies := new Byte[size](_ => 0);
      ieLength := FIXED_IES;
    }

    /** The elements after the fixed fields are exactly the given list. */
    ghost predicate Holds(es: seq<Element>)
      reads this, ies
    {
      && AllFit(es)
      && FIXED_IES + |Encode(es)| == ieLength <= ies.Length
      && ies[FIXED_IES..ieLength] == Encode(es)
    }

    lemma CutAt(i: nat)
      requires FIXED_IES <= i <= ieLength <= ies.Length
      ensures ies[FIXED_IES..i] == ies[FIXED_IES..ieLength][..i - FIXED_IES]
      ensures ies[i..ieLength] == ies[FIXED_IES..ieLength][i - FIXED_IES..]
    {
    }

    /** What is in the buffer from an offset on, when the elements before it are a. */
    lemma Rest(a: seq<Element>, b: seq<Element>, i: nat)
      requires Holds(a + b) && AllFit(a) && AllFit(b)
      requires i == FIXED_IES + |Encode(a)|
      ensures i + |Encode(b)| == ieLength
      ensures ies[FIXED_IES..i] == Encode(a) && ies[i..ieLength] == Encode(b)
      ensures b == [] ==> i == ieLength
      ensures b != [] ==> i + 2 <= ieLength && ies[i] == b[0].id && ies[i + 1] == |b[0].data|
    {
      var bytes := ies[FIXED_IES..ieLength];
      Halves(bytes, a, b);
      CutAt(i);
    }

    /** `rtw_get_ie` from the first element on: the first element with the id. */
    method GetIe(index: Byte, ghost es: seq<Element>) returns (found: Found)
      requires Holds(es)
      ensures found == var k := Find(es, index);
                       if k == |es| then Nowhere
                       else (assert AllFit(es[..k]); At(FIXED_IES + |Encode(es[..k])|, |es[k].data|))
    {
      if ieLength - FIXED_IES < 1 {
        assert es == [];
        return Nowhere;
      }
      var p := FIXED_IES;
      ghost var k := 0;
      while p < ieLength
        invariant 0 <= k <= |es| && AllFit(es[..k])
        invariant p == FIXED_IES + |Encode(es[..k])| <= ieLength
        invariant forall j :: 0 <= j < k ==> es[j].id != index
        decreases ieLength - p
      {
        Boundary(es, k, p);
        if ies[p] == index {
          return At(p, ies[p + 1]);
        }
        p := p + ies[p + 1] + 2;
        k := k + 1;
      }
      Boundary(es, k, p);
      return Nowhere;
    }

    /** The scan step: at the k-th element, the bytes are its id and length. */
    lemma Boundary(es: seq<Element>, k: nat, i: nat)
      requires Holds(es) && k <= |es| && AllFit(es[..k])
      requires i == FIXED_IES + |Encode(es[..k])|
      ensures k == |es| <==> i == ieLength
      ensures k < |es| ==>
                && i + 2 <= ieLength && ies[i] == es[k].id && ies[i + 1] == |es[k].data|
                && AllFit(es[..k + 1])
                && i + 2 + |es[k].data| == FIXED_IES + |Encode(es[..k + 1])| <= ieLength
    {
      assert es == es[..k] + es[k..];
      Rest(es[..k], es[k..], i);
      if k < |es| {
        EncodeAround(es[..k], es[k], es[k + 1..]);
        assert es[..k + 1] == es[..k] + [es[k]];
        assert es == es[..k] + [es[k]] + es[k + 1..];
      }
    }

    /**
      Replaces the bytes between two offsets by new ones, keeping the remainder
      through a backup, and sets the exact length.
     */
    method Splice(dst: nat, remainder: nat, bytes: seq<Byte>, ghost x: seq<Byte>, ghost z: seq<Byte>)
      requires FIXED_IES <= dst <= remainder <= ieLength <= ies.Length
      requires ies[FIXED_IES..dst] == x && ies[remainder..ieLength] == z
      requires dst + |bytes| + |z| <= ies.Length
      modifies this`ieLength, ies
      ensures ieLength == dst + |bytes| + |z|
      ensures ies[FIXED_IES..ieLength] == x + bytes + z
      ensures ies[..FIXED_IES] == old(ies[..FIXED_IES])
    {
      var remainderLen := ieLength - remainder;
      var backup := ies[remainder..ieLength];
      MemCopy(ies, dst, bytes);
      var end := dst + |bytes|;
      if remainderLen > 0 {
        MemCopy(ies, end, backup);
      }
      ieLength := end + remainderLen;
      assert ies[FIXED_IES..dst] == x;
      assert ies[dst..end] == bytes;
      assert ies[end..ieLength] == z;
    }

    /** Replacing the bytes of some elements, in terms of the list. */
    method Replace(dst: nat, remainder: nat, bytes: seq<Byte>,
                   ghost a: seq<Element>, ghost mid: seq<Element>, ghost b: seq<Element>,
                   ghost become: seq<Element>)
      requires Holds(a + mid + b) && AllFit(a) && AllFit(mid) && AllFit(b) && AllFit(become)
      requires dst == FIXED_IES + |Encode(a)| && remainder == dst + |Encode(mid)|
      requires bytes == Encode(become)
      requires dst + |bytes| + |Encode(b)| <= ies.Length
      modifies this`ieLength, ies
      ensures Holds(a + become + b) && ieLength == dst + |bytes| + |Encode(b)|
      ensures ies[..FIXED_IES] == old(ies[..FIXED_IES])
    {
      EncodeThree(a, mid, b);
      EncodeThree(a, become, b);
      Cut(ies[FIXED_IES..ieLength], Encode(a), Encode(mid), Encode(b));
      assert ies[FIXED_IES..dst] == ies[FIXED_IES..ieLength][..|Encode(a)|];
      assert ies[remainder..ieLength] == ies[FIXED_IES..ieLength][|Encode(a)| + |Encode(mid)|..];
      Splice(dst, remainder, bytes, Encode(a), Encode(b));
    }

    /**
      The scan of `rtw_add_bcn_ie`: the matching element, or else the last one in
      front of the new one's place.
     */
    method ScanForPlace(index: Byte, ghost es: seq<Element>)
      returns (p: nat, ielen: nat, match_: bool)
      requires Holds(es)
      ensures var k := Position(es, index);
              && match_ == (k < |es| && es[k].id == index)
              && AllFit(es[..k])
              && (match_ ==> p == FIXED_IES + |Encode(es[..k])| && ielen == |es[k].data|)
              && (!match_ && k == 0 ==> p == 0)
              && (!match_ && k > 0 ==> p > 0 && ielen == |es[k - 1].data|)
              && (!match_ && k > 0 ==> p + ielen + 2 == FIXED_IES + |Encode(es[..k])|)
    {
      var i := FIXED_IES;
      p, ielen, match_ := 0, 0, false;
      ghost var k := 0;
      while i < ieLength
        invariant 0 <= k <= |es| && AllFit(es[..k])
        invariant i == FIXED_IES + |Encode(es[..k])| <= ieLength
        invariant forall j :: 0 <= j < k ==> es[j].id < index
        invariant k == 0 ==> p == 0 && ielen == 0
        invariant k > 0 ==> p > 0 && ielen == |es[k - 1].data| && p + ielen + 2 == i
        invariant !match_
        decreases ieLength - i
      {
        Boundary(es, k, i);
        if ies[i] > index {
          break;
        } else if ies[i] == index {
          p, ielen, match_ := i, ies[i + 1], true;
          break;
        }
        p, ielen := i, ies[i + 1];
        i := i + ies[i + 1] + 2;
        k := k + 1;
      }
      Boundary(es, k, i);
      PositionIs(es, index, k);
    }

    /** `rtw_add_bcn_ie`. The caller leaves room for what the buffer grows by; the code does not check. */
    method AddBcnIe(index: Byte, data: seq<Byte>, ghost es: seq<Element>)
      requires Holds(es) && |data| < 256
      requires ieLength + Growth(es, index, data) <= ies.Length
      modifies this`ieLength, ies
      ensures Holds(Add(es, index, data)) && ieLength == old(ieLength) + Growth(es, index, data)
      ensures ies[..FIXED_IES] == old(ies[..FIXED_IES])
    {
      var p, ielen, match_ := ScanForPlace(index, es);
      if p == 0 || ielen == 0 {
        return;
      }
      ghost var k := Position(es, index);
      ghost var e := Element(index, data);
      EncodeSingle(e);
      if match_ {
        AddReplaces(es, e, k);
        Replace(p, p + ielen + 2, [index, |data|] + data, es[..k], [es[k]], es[k + 1..], [e]);
      } else {
        AddInserts(es, e, k);
        Replace(p + ielen + 2, p + ielen + 2, [index, |data|] + data, es[..k], [], es[k..], [e]);
      }
    }

    /** Overwrites one data byte of the k-th element, given where the element starts. */
    method PokeData(offset: nat, n: nat, byte: Byte, ghost k: nat, ghost es: seq<Element>)
      returns (ghost now: seq<Element>)
      requires Holds(es) && k < |es| && n < |es[k].data|
      requires AllFit(es[..k]) && offset == FIXED_IES + |Encode(es[..k])|
      modifies ies
      ensures now == es[k := es[k].(data := es[k].data[n := byte])] && Holds(now)
      ensures ies[..FIXED_IES] == old(ies[..FIXED_IES])
    {
      now := es[k := es[k].(data := es[k].data[n := byte])];
      Boundary(es, k, offset);
      PokeEncoded(es, k, n, byte);
      ghost var was := ies[..];
      ies[offset + 2 + n] := byte;
      assert ies[..] == was[offset + 2 + n := byte];
      assert ies[FIXED_IES..ieLength] == was[FIXED_IES..ieLength][offset + 2 + n - FIXED_IES := byte];
      assert ies[..FIXED_IES] == was[..FIXED_IES];
    }

    /** `rtw_remove_bcn_ie`. */
    method RemoveBcnIe(index: Byte, ghost es: seq<Element>)
      requires Holds(es)
      modifies this`ieLength, ies
      ensures Holds(Remove(es, index))
      ensures ies[..FIXED_IES] == old(ies[..FIXED_IES])
    {
      var found := GetIe(index, es);
      if found.At? && found.len > 0 {
        ghost var k := Find(es, index);
        RemoveCuts(es, index, k);
        Replace(found.offset, found.offset + found.len + 2, [], es[..k], [es[k]], es[k + 1..], []);
      }
    }
  }

  lemma Cut(was: seq<Byte>, x: seq<Byte>, y: seq<Byte>, z: seq<Byte>)
    requires was == x + y + z
    ensures was[..|x|] == x && was[|x| + |y|..] == z
  {
  }

  lemma EncodeThree(a: seq<Element>, mid: seq<Element>, b: seq<Element>)
    requires AllFit(a) && AllFit(mid) && AllFit(b)
    ensures AllFit(a + mid + b) && Encode(a + mid + b) == Encode(a) + Encode(mid) + Encode(b)
  {
    EncodeConcat(a, mid);
    EncodeConcat(a + mid, b);
  }

  lemma Around(es: seq<Element>, k: nat)
    requires AllFit(es) && k < |es|
    ensures AllFit(es[..k]) && AllFit([es[k]]) && AllFit(es[k + 1..])
    ensures es == es[..k] + [es[k]] + es[k + 1..]
    ensures |Encode(es)| == |Encode(es[..k])| + |es[k].data| + 2 + |Encode(es[k + 1..])|
    ensures Encode([es[k]]) == EncodeOne(es[k])
  {
    assert es == es[..k] + [es[k]] + es[k + 1..];
    Parts(es[..k], [es[k]], es[k + 1..]);
    EncodeSingle(es[k]);
  }

  lemma UpdateAround(es: seq<Element>, k: nat, e: Element)
    requires k < |es|
    ensures es[k := e] == es[..k] + [e] + es[k + 1..]
  {
  }

  lemma AddReplaces(es: seq<Element>, e: Element, k: nat)
    requires AllFit(es) && k == Position(es, e.id) < |es|
    requires es[k].id == e.id && es[k].data != []
    ensures AllFit(es[..k]) && AllFit([es[k]]) && AllFit(es[k + 1..])
    ensures es == es[..k] + [es[k]] + es[k + 1..]
    ensures Add(es, e.id, e.data) == es[..k] + [e] + es[k + 1..]
    ensures |Encode(es)| == |Encode(es[..k])| + |es[k].data| + 2 + |Encode(es[k + 1..])|
    ensures Encode([es[k]]) == EncodeOne(es[k])
  {
    Around(es, k);
    UpdateAround(es, k, e);
  }

  lemma RemoveCuts(es: seq<Element>, id: Byte, k: nat)
    requires AllFit(es) && k == Find(es, id) < |es| && es[k].data != []
    ensures AllFit(es[..k]) && AllFit([es[k]]) && AllFit(es[k + 1..])
    ensures es == es[..k] + [es[k]] + es[k + 1..]
    ensures Remove(es, id) == es[..k] + [] + es[k + 1..]
    ensures |Encode(es)| == |Encode(es[..k])| + |es[k].data| + 2 + |Encode(es[k + 1..])|
    ensures Encode([es[k]]) == EncodeOne(es[k])
  {
    Around(es, k);
  }

  lemma AddInserts(es: seq<Element>, e: Element, k: nat)
    requires AllFit(es) && k == Position(es, e.id) > 0
    requires k == |es| || es[k].id != e.id
    requires es[k - 1].data != []
    ensures AllFit(es[..k]) && AllFit(es[k..]) && es == es[..k] + [] + es[k..]
    ensures Add(es, e.id, e.data) == es[..k] + [e] + es[k..]
    ensures |Encode(es)| == |Encode(es[..k])| + |Encode(es[k..])|
  {
    assert es == es[..k] + [] + es[k..];
    Parts(es[..k], [], es[k..]);
  }

  lemma PokeEncoded(es: seq<Element>, k: nat, n: nat, byte: Byte)
    requires AllFit(es) && k < |es| && n < |es[k].data| && AllFit(es[..k])
    ensures var now := es[k := es[k].(data := es[k].data[n := byte])];
            && AllFit(now)
            && |Encode(es[..k])| + 2 + n < |Encode(es)|
            && Encode(now) == Encode(es)[|Encode(es[..k])| + 2 + n := byte]
  {
    var e := es[k].(data := es[k].data[n := byte]);
    var now := es[k := e];
    assert es == es[..k] + [es[k]] + es[k + 1..] && now == es[..k] + [e] + es[k + 1..];
    Parts(es[..k], [es[k]], es[k + 1..]);
    EncodeAround(es[..k], es[k], es[k + 1..]);
    EncodeAround(es[..k], e, es[k + 1..]);
    assert EncodeOne(e) == EncodeOne(es[k])[2 + n := byte];
  }

  lemma EncodeSingle(e: Element)
    requires Fits(e)
    ensures Encode([e]) == EncodeOne(e)
  {
    assert Encode([e]) == EncodeOne(e) + Encode([]);
  }

  lemma PositionIs(es: seq<Element>, id: Byte, k: nat)
    requires k <= |es| && forall j :: 0 <= j < k ==> es[j].id < id
    requires k < |es| ==> es[k].id >= id
    ensures Position(es, id) == k
  {
  }

  lemma Parts(a: seq<Element>, mid: seq<Element>, b: seq<Element>)
    requires AllFit(a + mid + b)
    ensures AllFit(a) && AllFit(mid) && AllFit(b)
    ensures |Encode(a + mid + b)| == |Encode(a)| + |Encode(mid)| + |Encode(b)|
  {
    var es := a + mid + b;
    assert forall k :: 0 <= k < |a| ==> es[k] == a[k];
    assert forall k :: 0 <= k < |mid| ==> es[|a| + k] == mid[k];
    assert forall k :: 0 <= k < |b| ==> es[|a| + |mid| + k] == b[k];
    EncodeThree(a, mid, b);
  }
}
