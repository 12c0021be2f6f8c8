/** The finish groups of the driver's 5 GHz tables: blocks of 2, 4 and 8 channels, one in the other. */
module FinishGroups {

  import opened Basics
  import opened DfsChannels
  import opened RadarDetection
  import opened NonOcpWatchdog

  function Size(w: Width): nat {
    match w
    case W20 => 1
    case W40 => 2
    case W80 => 4
    case W160 => 8
  }

  /** The lower and the upper channels of the band: multiples of 4 up to 144, and one more from 149. */
  predicate Lower(n: int) {
    n % 4 == 0 && 16 <= n <= 144
  }

  predicate Upper(n: int) {
    n % 4 == 1 && 149 <= n <= 253
  }

  /** The first channel of a channel's group, or 0 where the tables have none. */
  function Base(n: int, w: Width): int {
    match w
    case W20 =>
      if Lower(n) || (Upper(n) && (n <= 229 || 241 <= n <= 249)) then n else 0
    case W40 =>
      if Lower(n) && n >= 20 then 20 + (n - 20) / 8 * 8
      else if Upper(n) && (n <= 225 || 237 <= n <= 249) then 149 + (n - 149) / 8 * 8
      else 0
    case W80 =>
      if n == 16 then 20
      else if Lower(n) then 20 + (n - 20) / 16 * 16
      else if Upper(n) && n <= 225 then 149 + (n - 149) / 16 * 16
      else 0
    case W160 =>
      if Lower(n) && 36 <= n <= 64 then 36
      else if Lower(n) && 100 <= n <= 128 then 100
      else if Upper(n) && n <= 177 then 149
      else 0
  }

  function Group(n: int, w: Width): seq<int> {
    if Base(n, w) == 0 then [] else seq(Size(w), k => Base(n, w) + 4 * k)
  }

  /** The group of a 5 GHz channel does not depend on the offset variable. */
  ghost predicate ShippedTables(tables: Tables) {
    forall c: Channel, w: Width, o: Offset :: c.band == Band5 ==> GroupAt(tables, c, w, o) == Group(c.num, w)
  }

  predicate InBlock(m: int, base: int, w: Width) {
    && base != 0
    && (|| m == base
        || (Size(w) >= 2 && m == base + 4)
        || (Size(w) >= 4 && (m == base + 8 || m == base + 12))
        || (Size(w) >= 8 && (m == base + 16 || m == base + 20 || m == base + 24 || m == base + 28)))
  }

  lemma GroupMembers(n: int, w: Width, m: int)
    ensures m in Group(n, w) <==> InBlock(m, Base(n, w), w)
  {
    var g, base := Group(n, w), Base(n, w);
    if base != 0 {
      assert g[0] == base;
      assert Size(w) >= 2 ==> g[1] == base + 4;
      assert Size(w) >= 4 ==> g[2] == base + 8 && g[3] == base + 12;
      assert Size(w) >= 8 ==> g[4] == base + 16 && g[5] == base + 20 && g[6] == base + 24 && g[7] == base + 28;
    }
  }

  /** Adding multiples of 4 keeps a channel lower or upper. */
  lemma StepsOfFour(n: int, k: int)
    ensures (n + 4 * k) % 4 == n % 4
  {
  }

  lemma Blocks(first: int, d: int, n: int, m: int)
    requires d in {8, 16} && first <= n && first + (n - first) / d * d <= m < first + (n - first) / d * d + d
    ensures (m - first) / d == (n - first) / d
  {
  }

  /** A group is the group of each of its channels. */
  lemma SameBase(n: int, w: Width, m: int)
    requires InBlock(m, Base(n, w), w)
    ensures Base(m, w) == Base(n, w)
  {
    match w
    case W20 =>
    case W40 => SameBase40(n, m);
    case W80 => SameBase80(n, m);
    case W160 => SameBase160(n, m);
  }

  lemma SameBase40(n: int, m: int)
    requires InBlock(m, Base(n, W40), W40)
    ensures Base(m, W40) == Base(n, W40)
  {
    var first := if n % 4 == 0 then 20 else 149;
    var q := (n - first) / 8;
    assert Base(n, W40) == first + 8 * q;
    StepsOfFour(first, 2 * q);
    StepsOfFour(first, 2 * q + 1);
    Blocks(first, 8, n, m);
  }

  lemma SameBase80(n: int, m: int)
    requires InBlock(m, Base(n, W80), W80)
    ensures Base(m, W80) == Base(n, W80)
  {
    if n != 16 {
      var first := if n % 4 == 0 then 20 else 149;
      var q := (n - first) / 16;
      assert Base(n, W80) == first + 16 * q;
      StepsOfFour(first, 4 * q);
      StepsOfFour(first, 4 * q + 1);
      StepsOfFour(first, 4 * q + 2);
      StepsOfFour(first, 4 * q + 3);
      Blocks(first, 16, n, m);
    }
  }

  lemma SameBase160(n: int, m: int)
    requires InBlock(m, Base(n, W160), W160)
    ensures Base(m, W160) == Base(n, W160)
  {
  }

  /** A block that shares a channel with a wider one lies in it. */
  lemma BlockNests(a: int, w: Width, b: int, v: Width, m: int, n: int)
    requires HalfWidth(w) <= HalfWidth(v) && InBlock(m, Base(a, w), w) && InBlock(m, Base(b, v), v)
    requires InBlock(n, Base(a, w), w)
    ensures InBlock(n, Base(b, v), v)
  {
    SameBase(a, w, m);
    SameBase(b, v, m);
    if w == W40 && v == W80 {
      Nests40In80(m, n);
    } else if v == W160 && w != W160 {
      NestsIn160(w, m, n);
    }
  }

  lemma Nests40In80(m: int, n: int)
    requires InBlock(m, Base(m, W40), W40) && InBlock(n, Base(m, W40), W40) && InBlock(m, Base(m, W80), W80)
    ensures InBlock(n, Base(m, W80), W80)
  {
    var first := if m % 4 == 0 then 20 else 149;
    var q, r := (m - first) / 8, (m - first) / 16;
    assert Base(m, W40) == first + 8 * q && Base(m, W80) == first + 16 * r;
    assert q == 2 * r || q == 2 * r + 1;
  }

  lemma NestsIn160(w: Width, m: int, n: int)
    requires w in {W20, W40, W80} && InBlock(m, Base(m, w), w) && InBlock(n, Base(m, w), w)
    requires InBlock(m, Base(m, W160), W160)
    ensures InBlock(n, Base(m, W160), W160)
  {
  }

  lemma GroupsNest(a: int, w: Width, b: int, v: Width)
    ensures HalfWidth(w) <= HalfWidth(v) && Overlapping(Group(a, w), Group(b, v)) ==> Contained(Group(a, w), Group(b, v))
    ensures a in Group(b, v) ==> Contained(Group(a, v), Group(b, v)) && Contained(Group(b, v), Group(a, v))
  {
    if HalfWidth(w) <= HalfWidth(v) && Overlapping(Group(a, w), Group(b, v)) {
      var m :| m in Group(a, w) && m in Group(b, v);
      forall n | n in Group(a, w) ensures n in Group(b, v) {
        GroupMembers(a, w, m);
        GroupMembers(b, v, m);
        GroupMembers(a, w, n);
        GroupMembers(b, v, n);
        BlockNests(a, w, b, v, m, n);
      }
    }
    if a in Group(b, v) {
      GroupMembers(b, v, a);
      SameBase(b, v, a);
      assert Group(a, v) == Group(b, v);
    }
  }

  /** The driver's tables are nested wherever radar detection leaves a running period. */
  lemma ShippedTablesNest(tables: Tables, was: seq<Channel>)
    requires ShippedTables(tables)
    requires forall i :: 0 <= i < |was| && was[i].nonOcpEnd != STOPPED ==> was[i].band == Band5
    ensures Nested(tables, was)
  {
    forall i, j, w: Width, v: Width |
      0 <= i < |was| && 0 <= j < |was| && was[i].band == was[j].band
      && was[i].nonOcpEnd != STOPPED && was[j].nonOcpEnd != STOPPED
      ensures NestedPair(tables, was[i], w, was[j], v)
    {
      GroupsNest(was[i].num, w, was[j].num, v);
    }
  }

  /** The channel is in its group at the width, and that group has wholly expired. */
  ghost predicate ExpiredAt(was: seq<Channel>, now: int, c: Channel, w: Width) {
    c.num in Group(c.num, w) && AllExpired(was, now, Band5, Group(c.num, w))
  }

  /**
    With the driver's tables every expired channel is named at the widest bandwidth at
    which its group has wholly expired, and at no other.
   */
  lemma ReportedAtWidest(tables: Tables, was: seq<Channel>, now: int, offset0: Offset, j: nat, w: Width)
    requires Unique(was) && ShippedTables(tables) && j < |was| && was[j].nonOcpEnd != STOPPED
    requires forall i :: 0 <= i < |was| && was[i].nonOcpEnd != STOPPED ==> was[i].band == Band5
    requires ExpiredAt(was, now, was[j], w)
    requires forall v: Width :: HalfWidth(v) > HalfWidth(w) ==> !ExpiredAt(was, now, was[j], v)
    ensures NamedAt(WholePass(tables, now, was, offset0).events, was[j], w)
  {
    var c := was[j];
    ShippedTablesNest(tables, was);
    GroupMembers(c.num, w, 0);
    assert Reportable(tables, was, now, c, w);
    forall v: Width | HalfWidth(v) > HalfWidth(w) ensures !WhollyExpired(tables, was, now, c, v) {
      assert !ExpiredAt(was, now, c, v);
    }
    NamedAtWidest(tables, was, now, offset0, j, w);
  }
}
