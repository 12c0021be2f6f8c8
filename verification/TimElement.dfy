/** The traffic indication map: which stations have traffic buffered at the access point. */
module TimElement {

  import opened Basics
  import BeaconBuffer

  const TIM_ID: Byte := 5

  /** The bitmap's length is a `u8`. */
  const MAX_OCTETS := 255

  predicate Bit(octet: nat, n: nat) {
    if n == 0 then octet % 2 == 1 else Bit(octet / 2, n - 1)
  }

  /** `rtw_bmp_is_set`, for an AID of any width. */
  predicate IsSet(bmp: seq<Byte>, aid: nat) {
    aid / 8 < |bmp| && Bit(bmp[aid / 8], aid % 8)
  }

  /** `rtw_bmp_not_empty`. */
  ghost predicate NotEmpty(bmp: seq<Byte>) {
    exists k :: 0 <= k < |bmp| && bmp[k] != 0
  }

  // ---------------------------------------------------------------------------
  // What a station reads: section 9.4.2.6 of IEEE Std 802.11-2016
  // ---------------------------------------------------------------------------

  /** The bitmap control octet holds the group bit and half of an even offset. */
  function Offset(tim: seq<Byte>): nat
    requires |tim| > 4
  {
    tim[4] - tim[4] % 2
  }

  predicate WellFormed(tim: seq<Byte>) {
    |tim| >= 6 && tim[0] == TIM_ID && tim[1] == |tim| - 2
  }

  /** AID 0 stands for group traffic and has its bit in the control octet. */
  predicate Indicates(tim: seq<Byte>, aid: nat)
    requires |tim| > 4
  {
    if aid == 0 then tim[4] % 2 == 1
    else
      var k := aid / 8 - Offset(tim);
      0 <= k < |tim| - 5 && Bit(tim[5 + k], aid % 8)
  }

  // ---------------------------------------------------------------------------
  // What the access point writes
  // ---------------------------------------------------------------------------

  /** The octets the partial bitmap runs over: from `n1` to `n2`. */
  ghost predicate Chosen(bmp: seq<Byte>, n1: nat, n2: nat) {
    && n1 <= n2 < |bmp| && n1 % 2 == 0
    && (forall j :: 0 <= j < n1 ==> bmp[j] == 0)
    && (forall j :: n2 < j < |bmp| ==> bmp[j] == 0)
    && (NotEmpty(bmp) ==> bmp[n2] != 0 && (bmp[n1] != 0 || (n1 + 1 < |bmp| && bmp[n1 + 1] != 0)))
    && (!NotEmpty(bmp) ==> n1 == n2 == 0)
  }

  /** The five octets in front of the partial bitmap: id, length, DTIM count and period, control. */
  function Header(cnt: Byte, period: Byte, bmp: seq<Byte>, n1: nat, n2: nat): seq<Byte>
    requires n1 <= n2 < |bmp| <= MAX_OCTETS && n1 % 2 == 0
  {
    [TIM_ID, (2 + 1 + (n2 - n1 + 1)) % 256, cnt, period, (if IsSet(bmp, 0) then 1 else 0) + n1]
  }

  method FindFirst(bmp: seq<Byte>) returns (i: nat)
    ensures i <= |bmp| && (i < |bmp| ==> bmp[i] != 0)
    ensures forall j :: 0 <= j < i ==> bmp[j] == 0
  {
    i := 0;
    while i < |bmp| && bmp[i] == 0
      invariant i <= |bmp| && forall j :: 0 <= j < i ==> bmp[j] == 0
    {
      i := i + 1;
    }
  }

  /** The last nonzero octet, or octet 0. */
  method FindLast(bmp: seq<Byte>) returns (i: nat)
    requires bmp != []
    ensures i < |bmp| && (i > 0 ==> bmp[i] != 0)
    ensures forall j :: i < j < |bmp| ==> bmp[j] == 0
  {
    i := |bmp| - 1;
    while i > 0 && bmp[i] == 0
      invariant i < |bmp| && forall j :: i < j < |bmp| ==> bmp[j] == 0
    {
      i := i - 1;
    }
  }

  method ChooseOctets(bmp: seq<Byte>) returns (n1: nat, n2: nat)
    requires bmp != []
    ensures Chosen(bmp, n1, n2)
  {
    n1, n2 := 0, 0;
    var nonzero := FindFirst(bmp);
    if nonzero < |bmp| {
      n1 := nonzero - nonzero % 2;
      n2 := FindLast(bmp);
    }
  }

  method PutHeader(tim: array<Byte>, at: nat, header: seq<Byte>)
    requires |header| == 5 && at + 5 <= tim.Length
    modifies tim
    ensures tim[at..at + 5] == header
    ensures forall j :: 0 <= j < at || at + 5 <= j < tim.Length ==> tim[j] == old(tim[j])
  {
    tim[at], tim[at + 1], tim[at + 2], tim[at + 3], tim[at + 4] :=
      header[0], header[1], header[2], header[3], header[4];
  }

  /** `rtw_set_tim_ie`: writes the element at an offset and returns its length in eight bits. */
  method SetTimIe(cnt: Byte, period: Byte, bmp: seq<Byte>, tim: array<Byte>, at: nat)
    returns (length: Byte, ghost n1: nat, ghost n2: nat)
    requires 1 <= |bmp| <= MAX_OCTETS
    requires at + 5 + |bmp| <= tim.Length
    modifies tim
    ensures Chosen(bmp, n1, n2)
    ensures tim[at..at + 5 + (n2 - n1 + 1)] == Header(cnt, period, bmp, n1, n2) + bmp[n1..n2 + 1]
    ensures forall j :: 0 <= j < at || at + 5 + (n2 - n1 + 1) <= j < tim.Length ==> tim[j] == old(tim[j])
    ensures length == (5 + (n2 - n1 + 1)) % 256
  {
    var first, last := ChooseOctets(bmp);
    var bmpLen := last - first + 1;
    n1, n2 := first, last;
    PutHeader(tim, at, Header(cnt, period, bmp, first, last));
    ghost var from := at + 5;
    BeaconBuffer.MemCopy(tim, at + 5, bmp[first..first + bmpLen]);
    assert tim[at..from] == Header(cnt, period, bmp, n1, n2);
    assert tim[at..from + bmpLen] == tim[at..from] + tim[from..from + bmpLen];
    length := (2 + 2 + 1 + bmpLen) % 256;
  }

  // ---------------------------------------------------------------------------
  // What a station reads is what the access point meant
  // ---------------------------------------------------------------------------

  lemma BitStep(low: nat, rest: nat, n: nat)
    requires low < 2
    ensures (low + 2 * rest) / 2 == rest
    ensures Bit(low + 2 * rest, 0) <==> low == 1
    ensures Bit(low + 2 * rest, n + 1) <==> Bit(rest, n)
  {
  }

  /** The bits of a number are its binary digits, the lowest first. */
  lemma {:induction false} BitsAreDigits(digits: seq<nat>, n: nat)
    requires n < |digits| && forall k :: 0 <= k < |digits| ==> digits[k] < 2
    ensures Bit(FromDigits(digits), n) <==> digits[n] == 1
  {
    if n == 0 {
      BitStep(digits[0], FromDigits(digits[1..]), 0);
    } else {
      BitStep(digits[0], FromDigits(digits[1..]), n - 1);
      BitsAreDigits(digits[1..], n - 1);
    }
  }

  function FromDigits(digits: seq<nat>): nat {
    if digits == [] then 0 else digits[0] + 2 * FromDigits(digits[1..])
  }

  lemma {:induction false} ZeroHasNoBit(n: nat)
    ensures !Bit(0, n)
  {
    if n > 0 {
      ZeroHasNoBit(n - 1);
    }
  }

  /**
    The element is well formed as long as its partial bitmap has at most 252
    octets, and a station reads exactly the DTIM count and period, in octets 2 and 3,
    the bit of every AID and the group bit.
   */
  lemma StationReadsBitmap(cnt: Byte, period: Byte, bmp: seq<Byte>, n1: nat, n2: nat, aid: nat)
    requires Chosen(bmp, n1, n2) && |bmp| <= MAX_OCTETS
    ensures var tim := Header(cnt, period, bmp, n1, n2) + bmp[n1..n2 + 1];
            && (WellFormed(tim) <==> n2 - n1 < 252) && Offset(tim) == n1
            && tim[0] == 5 && tim[2] == cnt && tim[3] == period
            && (Indicates(tim, aid) <==> IsSet(bmp, aid))
  {
    var tim := Header(cnt, period, bmp, n1, n2) + bmp[n1..n2 + 1];
    var o := aid / 8;
    if n1 <= o <= n2 {
      assert tim[5 + (o - n1)] == bmp[o];
    } else {
      ZeroHasNoBit(aid % 8);
    }
  }

  ghost predicate First(bmp: seq<Byte>, k: nat) {
    k < |bmp| && bmp[k] != 0 && forall j :: 0 <= j < k ==> bmp[j] == 0
  }

  /**
    The element is the shortest one: the offset is the largest even number not
    beyond the first nonzero octet, and any even offset and length that cover
    every nonzero octet cover the chosen ones.
   */
  lemma ElementIsShortest(bmp: seq<Byte>, n1: nat, n2: nat, from: nat, len: nat)
    requires Chosen(bmp, n1, n2) && NotEmpty(bmp)
    requires from % 2 == 0
    requires forall j :: 0 <= j < |bmp| && bmp[j] != 0 ==> from <= j < from + len
    ensures from <= n1 && n2 < from + len
    ensures forall first: nat :: First(bmp, first) ==> n1 == first - first % 2
  {
    forall first: nat | First(bmp, first) ensures n1 == first - first % 2 {
      if bmp[n1] != 0 {
        assert first == n1;
      } else {
        assert bmp[n1 + 1] != 0 && first == n1 + 1;
      }
    }
  }

  /**
    The returned length, by which the beacon builder advances, is exact for every
    bitmap of at most 250 octets; a bitmap of 251 octets or more is only safe while
    its partial bitmap stays within 250.
   */
  lemma LengthIsExactUpTo250(bmp: seq<Byte>, n1: nat, n2: nat)
    requires Chosen(bmp, n1, n2) && |bmp| <= MAX_OCTETS
    ensures |bmp| <= 250 ==> (5 + n2 - n1 + 1) % 256 == 5 + n2 - n1 + 1
    ensures (5 + n2 - n1 + 1) % 256 == 5 + n2 - n1 + 1 <==> n2 - n1 < 250
  {
  }

  /** The largest AID the standard allows, beside a small one: the length comes back as 0. */
  lemma LengthWraps()
    ensures exists bmp: seq<Byte>, n1, n2 :: |bmp| == 251 && Chosen(bmp, n1, n2)
              && IsSet(bmp, 1) && IsSet(bmp, 2007) && (5 + n2 - n1 + 1) % 256 == 0
  {
    var bmp := seq(251, k => if k == 0 then 2 else if k == 250 then 128 else 0);
    assert bmp[0] != 0 && NotEmpty(bmp);
    assert Bit(2, 1) && 2007 / 8 == 250 && 2007 % 8 == 7;
    assert Bit(128, 7) by {
      assert Bit(1, 0) && Bit(2, 1) && Bit(4, 2) && Bit(8, 3) && Bit(16, 4) && Bit(32, 5) && Bit(64, 6);
    }
    assert Chosen(bmp, 0, 250);
  }
}
