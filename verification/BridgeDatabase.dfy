/**
  The address database in memory: sixteen chains of entries with `next` and
  `pprev` links.  A ghost image holds what every field should contain; the
  reasoning about chains and about the table is done on the image, and the heap
  only has to mirror it.
 */
module BridgeDatabase {

  import opened Basics
  import opened BridgeTable

  /** The link that points at an entry: a bucket head or the next field of an entry. */
  datatype Slot = Nowhere | Bucket(h: nat) | NextOf(e: Entry)

  class Entry {
    const addr: Addr
    var next: Entry?
    var pprev: Slot
    var use: int
    var mac: Mac
    var age: int

    constructor (addr: Addr, mac: Mac, now: int)
      ensures this.addr == addr && this.mac == mac && age == now && use == 1
      ensures next == null && pprev == Nowhere
    {
      this.addr, this.mac, this.age, this.use := addr, mac, now, 1;
      next, pprev := null, Nowhere;
    }
  }

  // ---------------------------------------------------------------------------
  // The image
  // ---------------------------------------------------------------------------

  datatype Links = Links(next: Entry?, pprev: Slot)

  datatype Image = Image(
    chains: seq<seq<Entry>>,
    heads: seq<Entry?>,
    links: map<Entry, Links>,
    rows: map<Entry, Rec>,
    table: Table)

  ghost function First(c: seq<Entry>): Entry? {
    if c == [] then null else c[0]
  }

  ghost function NextIn(c: seq<Entry>, k: nat): Entry? {
    if k + 1 < |c| then c[k + 1] else null
  }

  ghost function SlotIn(h: nat, c: seq<Entry>, k: nat): Slot
    requires k < |c|
  {
    if k == 0 then Bucket(h) else NextOf(c[k - 1])
  }

  /** The entries of bucket h, linked both ways. */
  ghost predicate Linked(h: nat, c: seq<Entry>, links: map<Entry, Links>) {
    && (forall e :: e in c ==> e in links)
    && (forall k {:trigger links[c[k]]} :: 0 <= k < |c| ==> links[c[k]] == Links(NextIn(c, k), SlotIn(h, c, k)))
  }

  /** Each entry is in the bucket of its hash, and no address occurs twice. */
  ghost predicate Keyed(hash: Addr -> nat, h: nat, c: seq<Entry>) {
    && (forall e :: e in c ==> hash(e.addr) == h)
    && (forall j, k :: 0 <= j < k < |c| ==> c[j].addr != c[k].addr)
  }

  ghost predicate ChainOk(hash: Addr -> nat, m: Image, h: nat)
    requires h < |m.chains| == |m.heads|
  {
    m.heads[h] == First(m.chains[h]) && Linked(h, m.chains[h], m.links) && Keyed(hash, h, m.chains[h])
  }

  ghost predicate ShapeOk(hash: Addr -> nat, m: Image) {
    && |m.chains| == |m.heads| == HASH_SIZE
    && m.rows.Keys == m.links.Keys
    && (forall a :: hash(a) < HASH_SIZE)
    && (forall h :: 0 <= h < HASH_SIZE ==> ChainOk(hash, m, h))
  }

  /** The linked entries, entry x aside, are the rows of the table. */
  ghost predicate TiedBut(hash: Addr -> nat, m: Image, x: Entry?)
    requires ShapeOk(hash, m)
  {
    && (forall h, e :: 0 <= h < HASH_SIZE && e in m.chains[h] ==>
          e.addr in m.table && e in m.rows && (e != x ==> m.rows[e] == m.table[e.addr] && m.rows[e].use >= 1))
    && (forall a :: a in m.table ==> exists e :: e in m.chains[hash(a)] && e.addr == a)
  }

  /** The invariant of the image.  It stays folded until somebody mentions `Unfold`. */
  ghost predicate ImageOk(hash: Addr -> nat, m: Image) {
    forall b {:trigger Unfold(b)} :: Unfold(b) ==> ShapeOk(hash, m) && TiedBut(hash, m, null)
  }

  lemma OpenImage(hash: Addr -> nat, m: Image)
    requires ImageOk(hash, m)
    ensures ShapeOk(hash, m) && TiedBut(hash, m, null)
  {
    assert Unfold(true);
  }

  /** An image in which everything but the row of x is in order. */
  ghost predicate ImageOkBut(hash: Addr -> nat, m: Image, x: Entry) {
    forall b {:trigger Unfold(b)} :: Unfold(b) ==> ShapeOk(hash, m) && TiedBut(hash, m, x)
  }

  lemma ForgetRow(hash: Addr -> nat, m: Image, x: Entry, r: Rec)
    requires ImageOk(hash, m) && x in m.rows
    ensures ImageOkBut(hash, m.(rows := m.rows[x := r]), x)
  {
    OpenImage(hash, m);
    var u := m.(rows := m.rows[x := r]);
    assert u.rows.Keys == m.rows.Keys;
    forall h | 0 <= h < HASH_SIZE ensures ChainOk(hash, u, h) {
      assert ChainOk(hash, m, h);
    }
  }

  ghost function Without(c: seq<Entry>, k: nat): seq<Entry>
    requires k < |c|
  {
    c[..k] + c[k + 1..]
  }

  // One pointer assignment each.

  ghost function SetHead(m: Image, h: nat, e: Entry?): Image
    requires h < |m.heads|
  {
    m.(heads := m.heads[h := e])
  }

  ghost function SetNext(m: Image, e: Entry, next: Entry?): Image
    requires e in m.links
  {
    m.(links := m.links[e := m.links[e].(next := next)])
  }

  ghost function SetPprev(m: Image, e: Entry, pprev: Slot): Image
    requires e in m.links
  {
    m.(links := m.links[e := m.links[e].(pprev := pprev)])
  }

  /** The image after `__network_hash_link`, assignment by assignment; e has been allocated. */
  ghost function LinkedIn(m: Image, e: Entry, h: nat): Image
    requires h < |m.heads| && e in m.links && (m.heads[h] != null ==> m.heads[h] in m.links)
  {
    var next := m.heads[h];
    var m1 := SetNext(m, e, next);
    var m2 := if next != null then SetPprev(m1, next, NextOf(e)) else m1;
    SetPprev(SetHead(m2, h, e), e, Bucket(h))
  }

  /** The image after `__network_hash_unlink`, assignment by assignment. */
  ghost function Unlinked(m: Image, f: Entry): Image
    requires Linking(m, f)
  {
    var Links(next, pprev) := m.links[f];
    var m1 := if pprev.NextOf? then SetNext(m, pprev.e, next) else SetHead(m, pprev.h, next);
    var m2 := if next != null then SetPprev(m1, next, pprev) else m1;
    SetPprev(SetNext(m2, f, null), f, Nowhere)
  }

  /** f is linked, and its links lead to links of the image. */
  ghost predicate Linking(m: Image, f: Entry) {
    && f in m.links && m.links[f].pprev != Nowhere
    && (m.links[f].pprev.Bucket? ==> m.links[f].pprev.h < |m.heads|)
    && (m.links[f].pprev.NextOf? ==> m.links[f].pprev.e in m.links)
    && (m.links[f].next != null ==> m.links[f].next in m.links)
  }

  /** An entry of its own, not linked yet. */
  ghost function Allocated(m: Image, e: Entry, l: Links, r: Rec): Image {
    m.(links := m.links[e := l], rows := m.rows[e := r])
  }

  /** The image with e at the head of bucket h. */
  ghost function Pushed(m: Image, e: Entry, h: nat, l: Links, r: Rec): Image
    requires h < |m.chains| == |m.heads| && (m.heads[h] != null ==> m.heads[h] in m.links)
  {
    LinkedIn(Allocated(m, e, l, r), e, h).(chains := m.chains[h := [e] + m.chains[h]])
  }

  lemma PushedShape(hash: Addr -> nat, m: Image, e: Entry, h: nat, l: Links, r: Rec)
    requires ShapeOk(hash, m) && h < HASH_SIZE && hash(e.addr) == h && e !in m.links
    requires forall x :: x in m.chains[h] ==> x.addr != e.addr
    requires m.heads[h] != null ==> m.heads[h] in m.links
    ensures Pushed(m, e, h, l, r).links.Keys == m.links.Keys + {e}
    ensures forall j :: 0 <= j < HASH_SIZE ==> ChainOk(hash, Pushed(m, e, h, l, r), j)
  {
    var u, c := Pushed(m, e, h, l, r), m.chains[h];
    assert ChainOk(hash, m, h);
    forall j | 0 <= j < HASH_SIZE ensures ChainOk(hash, u, j) {
      assert ChainOk(hash, m, j);
      if j == h {
        var d := u.chains[h];
        assert forall k :: 0 < k < |d| ==> d[k] == c[k - 1];
      } else {
        assert c != [] ==> hash(c[0].addr) == h;
      }
    }
  }

  /** The image with position k of bucket h unlinked. */
  ghost function Removed(m: Image, f: Entry, h: nat, k: nat): Image
    requires Placed(m, f, h, k)
  {
    Unlinked(m, f).(chains := m.chains[h := Without(m.chains[h], k)])
  }

  /** The position of f, spelled out. */
  ghost predicate Placed(m: Image, f: Entry, h: nat, k: nat) {
    && h < |m.chains| == |m.heads| && k < |m.chains[h]| && m.chains[h][k] == f
    && f in m.links && m.links[f] == Links(NextIn(m.chains[h], k), SlotIn(h, m.chains[h], k))
    && (m.links[f].pprev.NextOf? ==> m.links[f].pprev.e in m.links)
    && (m.links[f].next != null ==> m.links[f].next in m.links)
  }

  lemma PlacedAt(hash: Addr -> nat, m: Image, h: nat, k: nat)
    requires ShapeOk(hash, m) && h < HASH_SIZE && k < |m.chains[h]|
    ensures Placed(m, m.chains[h][k], h, k) && hash(m.chains[h][k].addr) == h
  {
    assert ChainOk(hash, m, h);
  }

  /** Neighbours in a chain without position k, in terms of the full chain. */
  lemma WithoutLinks(h: nat, c: seq<Entry>, k: nat, i: nat)
    requires k < |c| && i < |c| - 1
    ensures var d, o := Without(c, k), if i < k then i else i + 1;
            && d[i] == c[o]
            && NextIn(d, i) == (if i + 1 == k then NextIn(c, k) else NextIn(c, o))
            && SlotIn(h, d, i) == (if i == k then SlotIn(h, c, k) else SlotIn(h, c, o))
  {
    var d := Without(c, k);
    assert forall j :: 0 <= j < k ==> d[j] == c[j];
    assert forall j :: k <= j < |d| ==> d[j] == c[j + 1];
  }

  lemma RemovedLinks(m: Image, f: Entry, h: nat, k: nat, o: nat)
    requires Placed(m, f, h, k) && o < |m.chains[h]| && o != k
    requires forall i, j :: 0 <= i < j < |m.chains[h]| ==> m.chains[h][i].addr != m.chains[h][j].addr
    requires m.chains[h][o] in m.links
    ensures var c := m.chains[h];
            var u := Removed(m, f, h, k).links;
            c[o] in u && u[c[o]] == Links(if o + 1 == k then NextIn(c, k) else m.links[c[o]].next,
                                          if o == k + 1 then SlotIn(h, c, k) else m.links[c[o]].pprev)
  {
  }

  lemma RemovedOwn(hash: Addr -> nat, m: Image, f: Entry, h: nat, k: nat)
    requires Placed(m, f, h, k) && ChainOk(hash, m, h)
    ensures ChainOk(hash, Removed(m, f, h, k), h)
  {
    var u, c := Removed(m, f, h, k), m.chains[h];
    var d := u.chains[h];
    assert u.links.Keys == m.links.Keys;
    forall i | 0 <= i < |d| ensures u.links[d[i]] == Links(NextIn(d, i), SlotIn(h, d, i)) && d[i] in c {
      var o := if i < k then i else i + 1;
      assert m.links[c[o]] == Links(NextIn(c, o), SlotIn(h, c, o));
      WithoutLinks(h, c, k, i);
      RemovedLinks(m, f, h, k, o);
    }
    assert Keyed(hash, h, d) by { KeyedWithout(hash, h, c, k); }
    assert u.heads[h] == First(d);
  }

  lemma KeyedWithout(hash: Addr -> nat, h: nat, c: seq<Entry>, k: nat)
    requires Keyed(hash, h, c) && k < |c|
    ensures Keyed(hash, h, Without(c, k))
  {
  }

  lemma RemovedOther(hash: Addr -> nat, m: Image, f: Entry, h: nat, k: nat, j: nat)
    requires Placed(m, f, h, k) && ChainOk(hash, m, h) && j < |m.heads| && j != h && ChainOk(hash, m, j)
    ensures ChainOk(hash, Removed(m, f, h, k), j)
  {
    var u := Removed(m, f, h, k);
    assert u.links.Keys == m.links.Keys;
    forall x | x in m.chains[j] ensures u.links[x] == m.links[x] {
      assert hash(x.addr) == j;
    }
  }

  lemma RemovedShape(hash: Addr -> nat, m: Image, f: Entry, h: nat, k: nat)
    requires ShapeOk(hash, m) && Placed(m, f, h, k)
    ensures ShapeOk(hash, Removed(m, f, h, k))
  {
    var u := Removed(m, f, h, k);
    assert u.links.Keys == m.links.Keys;
    forall j | 0 <= j < HASH_SIZE ensures ChainOk(hash, u, j) {
      assert ChainOk(hash, m, h) && ChainOk(hash, m, j);
      if j == h {
        RemovedOwn(hash, m, f, h, k);
      } else {
        RemovedOther(hash, m, f, h, k, j);
      }
    }
  }

  lemma WithoutOne(c: seq<Entry>, k: nat)
    requires k < |c| && forall i, j :: 0 <= i < j < |c| ==> c[i].addr != c[j].addr
    ensures forall x :: x in Without(c, k) <==> x in c && x != c[k]
  {
    forall x | x in c && x != c[k] ensures x in Without(c, k) {
      var i :| 0 <= i < |c| && c[i] == x;
      assert if i < k then Without(c, k)[i] == x else Without(c, k)[i - 1] == x;
    }
  }

  /** An address names one linked entry. */
  lemma SameAddr(hash: Addr -> nat, m: Image, x: Entry, e: Entry, h: nat, j: nat)
    requires ShapeOk(hash, m) && h < HASH_SIZE && j < HASH_SIZE
    requires x in m.chains[h] && e in m.chains[j] && x.addr == e.addr
    ensures x == e && h == hash(x.addr)
  {
    assert ChainOk(hash, m, h) && ChainOk(hash, m, j);
  }

  /** The table catches up with the row of e. */
  lemma UpdatedTies(hash: Addr -> nat, m: Image, e: Entry, h: nat)
    requires ImageOkBut(hash, m, e) && h < |m.chains| && e in m.chains[h] && e in m.rows && m.rows[e].use >= 1
    ensures ImageOk(hash, m.(table := m.table[e.addr := m.rows[e]]))
  {
    var u := m.(table := m.table[e.addr := m.rows[e]]);
    assert Unfold(true);
    forall j | 0 <= j < HASH_SIZE ensures ChainOk(hash, u, j) {
      assert ChainOk(hash, m, j);
    }
    forall j, x | 0 <= j < HASH_SIZE && x in u.chains[j]
      ensures x.addr in u.table && x in u.rows && u.rows[x] == u.table[x.addr] && u.rows[x].use >= 1
    {
      if x.addr == e.addr {
        SameAddr(hash, m, x, e, j, h);
      }
    }
  }

  /** Ties and shape of two images that differ in links and heads only. */
  lemma PushedTies(hash: Addr -> nat, m: Image, u: Image, e: Entry, r: Rec)
    requires ShapeOk(hash, m) && TiedBut(hash, m, null) && ShapeOk(hash, u)
    requires e.addr !in m.table && r.use >= 1
    requires u.chains == m.chains[hash(e.addr) := [e] + m.chains[hash(e.addr)]]
    requires u.rows == m.rows[e := r] && u.table == m.table[e.addr := r]
    ensures ImageOk(hash, u)
  {
    var h := hash(e.addr);
    forall j, x | 0 <= j < HASH_SIZE && x in u.chains[j]
      ensures x.addr in u.table && x in u.rows && u.rows[x] == u.table[x.addr] && u.rows[x].use >= 1
    {
      if x != e {
        assert x in m.chains[j];
      }
    }
    forall a | a in u.table ensures exists x :: x in u.chains[hash(a)] && x.addr == a {
      if a != e.addr {
        var x :| x in m.chains[hash(a)] && x.addr == a;
        assert x in u.chains[hash(a)];
      } else {
        assert e in u.chains[h];
      }
    }
  }

  /** The image once entry e is linked into bucket h with row r. */
  lemma PushImage(hash: Addr -> nat, m: Image, e: Entry, h: nat, l: Links, r: Rec) returns (u: Image)
    requires ImageOk(hash, m) && e !in m.links && e.addr !in m.table && r.use >= 1 && h == hash(e.addr)
    requires h < |m.chains| == |m.heads| && (m.heads[h] != null ==> m.heads[h] in m.links)
    ensures ImageOk(hash, u) && |u.chains| == |m.chains|
    ensures u == LinkedIn(Allocated(m, e, l, r), e, h).(chains := u.chains, table := u.table)
    ensures u.chains == m.chains[h := [e] + m.chains[h]] && u.links.Keys == m.links.Keys + {e}
    ensures u.rows == m.rows[e := r] && u.table == m.table[e.addr := r]
  {
    OpenImage(hash, m);
    var p := Pushed(m, e, h, l, r);
    u := p.(table := m.table[e.addr := r]);
    PushedShape(hash, m, e, h, l, r);
    forall j | 0 <= j < HASH_SIZE ensures ChainOk(hash, u, j) {
      assert ChainOk(hash, p, j);
    }
    PushedTies(hash, m, u, e, r);
  }

  lemma RemovedMembers(hash: Addr -> nat, m: Image, f: Entry, h: nat, k: nat, j: nat)
    requires ShapeOk(hash, m) && h < HASH_SIZE && k < |m.chains[h]| && m.chains[h][k] == f && j < HASH_SIZE
    ensures forall x :: x in m.chains[h := Without(m.chains[h], k)][j] <==> x in m.chains[j] && x != f
    ensures forall x :: x in m.chains[j] && x != f ==> x.addr != f.addr
  {
    assert ChainOk(hash, m, h) && ChainOk(hash, m, j);
    WithoutOne(m.chains[h], k);
    forall x | x in m.chains[j] && x.addr == f.addr ensures x == f {
      SameAddr(hash, m, x, f, j, h);
    }
    if j != h && f in m.chains[j] {
      SameAddr(hash, m, f, f, j, h);
    }
  }

  /** The row of an unlinked entry goes. */
  lemma RemovedTies(hash: Addr -> nat, m: Image, u: Image, f: Entry, h: nat, k: nat)
    requires ShapeOk(hash, m) && ShapeOk(hash, u) && TiedBut(hash, m, f)
    requires h < HASH_SIZE && k < |m.chains[h]| && m.chains[h][k] == f && hash(f.addr) == h
    requires u.chains == m.chains[h := Without(m.chains[h], k)]
    requires u.rows == m.rows && u.table == m.table - {f.addr}
    ensures TiedBut(hash, u, null)
  {
    forall j, x | 0 <= j < HASH_SIZE && x in u.chains[j]
      ensures x.addr in u.table && x in u.rows && u.rows[x] == u.table[x.addr] && u.rows[x].use >= 1
    {
      RemovedMembers(hash, m, f, h, k, j);
      assert x in m.chains[j];
    }
    forall a | a in u.table ensures exists x :: x in u.chains[hash(a)] && x.addr == a {
      RemovedMembers(hash, m, f, h, k, hash(a));
      var x :| x in m.chains[hash(a)] && x.addr == a;
      assert x in u.chains[hash(a)];
    }
  }

  /** The image once position k of bucket h is unlinked and its row gone. */
  lemma RemoveImage(hash: Addr -> nat, m: Image, f: Entry, h: nat, k: nat) returns (u: Image)
    requires ImageOkBut(hash, m, f) && Placed(m, f, h, k) && hash(f.addr) == h
    ensures ImageOk(hash, u) && |u.chains| == |m.chains|
    ensures u.chains == m.chains[h := Without(m.chains[h], k)]
    ensures u.rows == m.rows && u.table == m.table - {f.addr}
    ensures Linking(m, f) && u == Unlinked(m, f).(chains := u.chains, table := u.table)
    ensures u.links.Keys == m.links.Keys
    ensures forall j, x :: 0 <= j < |m.chains| && x != f ==> (x in u.chains[j] <==> x in m.chains[j])
  {
    assert Unfold(true);
    var p := Removed(m, f, h, k);
    u := p.(table := m.table - {f.addr});
    RemovedShape(hash, m, f, h, k);
    RemovedAll(hash, m, p, u, f, h, k);
  }

  lemma RemovedAll(hash: Addr -> nat, m: Image, p: Image, u: Image, f: Entry, h: nat, k: nat)
    requires ShapeOk(hash, m) && TiedBut(hash, m, f) && ShapeOk(hash, p)
    requires h < HASH_SIZE && k < |m.chains[h]| && m.chains[h][k] == f && hash(f.addr) == h
    requires p.chains == m.chains[h := Without(m.chains[h], k)] && p.rows == m.rows
    requires u == p.(table := m.table - {f.addr})
    ensures ImageOk(hash, u)
    ensures forall j, x :: 0 <= j < |m.chains| && x != f ==> (x in u.chains[j] <==> x in m.chains[j])
  {
    forall j | 0 <= j < HASH_SIZE ensures ChainOk(hash, u, j) {
      assert ChainOk(hash, p, j);
    }
    RemovedTies(hash, m, u, f, h, k);
    forall j, x | 0 <= j < |m.chains| && x != f ensures x in u.chains[j] <==> x in m.chains[j] {
      RemovedMembers(hash, m, f, h, k, j);
    }
  }

  // ---------------------------------------------------------------------------
  // The heap
  // ---------------------------------------------------------------------------

  ghost function RecOf(e: Entry): Rec
    reads e`mac, e`age, e`use
  {
    Rec(e.mac, e.age, e.use)
  }

  ghost function LinksOf(e: Entry): Links
    reads e`next, e`pprev
  {
    Links(e.next, e.pprev)
  }

  /** Every field contains what the image says. */
  ghost predicate Held(nethash: array<Entry?>, m: Image)
    reads nethash, m.links.Keys
  {
    && nethash[..] == m.heads
    && m.rows.Keys == m.links.Keys
    && forall e :: e in m.links ==> LinksOf(e) == m.links[e] && RecOf(e) == m.rows[e]
  }

  class Nat25 {
    const hash: Addr -> nat
    const nethash: array<Entry?>
    var scdb: Entry?
    ghost var m: Image

    ghost function Repr(): set<Entry>
      reads `m
    {
      m.links.Keys
    }

    ghost predicate Mirrors()
      reads `m, nethash, Repr()
    {
      Held(nethash, m)
    }

    ghost predicate ShortcutOk()
      reads `m, `scdb
    {
      scdb != null ==> hash(scdb.addr) < |m.chains| && scdb in m.chains[hash(scdb.addr)]
    }

    ghost predicate Valid()
      reads this, nethash, Repr()
    {
      Mirrors() && ImageOk(hash, m) && ShortcutOk()
    }

    ghost function View(): Db
      reads this
    {
      Db(m.table, if scdb == null then None else Some(scdb.addr))
    }

    constructor (hash: Addr -> nat)
      requires forall a :: hash(a) < HASH_SIZE
      ensures Valid() && this.hash == hash && fresh(nethash) && View() == Db(map[], None)
    {
      this.hash := hash;
      nethash := new Entry?[HASH_SIZE](i => null);
      scdb := null;
      m := Image(seq(HASH_SIZE, i => []), seq(HASH_SIZE, i => null), map[], map[], map[]);
      new;
      assert nethash[..] == m.heads;
    }

    /** A linked entry: known to the image, tied to the table, with its place in the chain. */
    lemma LinkedEntry(e: Entry, h: nat)
      requires Valid() && h < |m.chains| && e in m.chains[h]
      ensures e in Repr() && h == hash(e.addr) && e.addr in m.table && RecOf(e) == m.table[e.addr] && e.use >= 1
    {
      OpenImage(hash, m);
      assert ChainOk(hash, m, h);
    }

    lemma HeadKnown(a: Addr)
      requires Valid()
      ensures var h := hash(a);
              h < HASH_SIZE == |m.chains| == |m.heads|
              && m.heads[h] == First(m.chains[h]) && (m.heads[h] != null ==> m.heads[h] in m.links)
              && (a in m.table ==> exists e :: e in m.chains[h] && e.addr == a)
    {
      OpenImage(hash, m);
      assert ChainOk(hash, m, hash(a));
    }

    lemma BucketKnown(h: nat)
      requires Valid() && h < nethash.Length
      ensures h < HASH_SIZE == |m.chains| == |m.heads| && m.heads[h] == First(m.chains[h])
      ensures forall e :: e in m.chains[h] ==> hash(e.addr) == h
    {
      OpenImage(hash, m);
      assert ChainOk(hash, m, h);
    }

    lemma Apart(h: nat)
      requires Valid() && h < |m.chains|
      ensures forall i, j :: 0 <= i < j < |m.chains[h]| ==> m.chains[h][i].addr != m.chains[h][j].addr
    {
      OpenImage(hash, m);
      assert ChainOk(hash, m, h);
    }

    /** A position in a chain, as the fields of its entry have it. */
    lemma Place(h: nat, k: nat)
      requires Valid() && h < |m.chains| && k < |m.chains[h]|
      ensures h < HASH_SIZE == |m.chains| == |m.heads| && Placed(m, m.chains[h][k], h, k) && hash(m.chains[h][k].addr) == h
    {
      OpenImage(hash, m);
      PlacedAt(hash, m, h, k);
    }

    /** Walks the bucket of an address. */
    method Find(a: Addr) returns (db: Entry?)
      requires Valid()
      ensures db == null <==> a !in m.table
      ensures db != null ==> hash(a) < |m.chains| && db in m.chains[hash(a)] && db.addr == a && db in Repr() && RecOf(db) == m.table[a]
    {
      HeadKnown(a);
      ghost var c := m.chains[hash(a)];
      ghost var i := 0;
      db := nethash[hash(a)];
      while db != null
        invariant 0 <= i <= |c|
        invariant db == (if i < |c| then c[i] else null)
        invariant forall j :: 0 <= j < i ==> c[j].addr != a
        decreases |c| - i
      {
        LinkedEntry(db, hash(a));
        if db.addr == a {
          return;
        }
        Place(hash(a), i);
        db := db.next;
        i := i + 1;
      }
    }

    /** The data of one linked entry changes, and its row in the table with it. */
    method SetData(e: Entry, mac: Mac, age: int, use: int)
      requires Valid() && hash(e.addr) < |m.chains| && e in m.chains[hash(e.addr)] && use >= 1
      modifies e`mac, e`age, e`use, `m
      ensures Valid() && m == old(m).(rows := m.rows, table := old(m).table[e.addr := Rec(mac, age, use)])
      ensures Repr() == old(Repr())
    {
      LinkedEntry(e, hash(e.addr));
      ForgetRow(hash, m, e, Rec(mac, age, use));
      UpdatedTies(hash, m.(rows := m.rows[e := Rec(mac, age, use)]), e, hash(e.addr));
      e.mac, e.age, e.use := mac, age, use;
      m := m.(rows := m.rows[e := Rec(mac, age, use)], table := m.table[e.addr := Rec(mac, age, use)]);
    }

    /** `__nat25_db_network_lookup_and_replace`. */
    method LookupAndReplace(a: Addr, now: int) returns (found: bool, replaced: Option<Mac>)
      requires Valid()
      modifies this, Repr()
      ensures Valid() && Repr() == old(Repr())
      ensures View() == Apply(old(View()), DoLookup(a), now)
      ensures (found <==> a in old(View()).table) && replaced == Replacement(old(View()).table, a, now)
    {
      var db := Find(a);
      if db == null {
        return false, None;
      }
      if db.age <= now - AGEING {
        return true, None;
      }
      LinkedEntry(db, hash(a));
      replaced := Some(db.mac);
      SetData(db, db.mac, db.age, db.use + 1);
      found := true;
    }

    /** The pointer assignments, and the image with them. */
    method LinkInto(e: Entry, h: nat, ghost u: Image)
      requires Mirrors() && e !in Repr() && h < nethash.Length
      requires m.heads[h] != null ==> m.heads[h] in m.links
      requires u == LinkedIn(Allocated(m, e, LinksOf(e), RecOf(e)), e, h).(chains := u.chains, table := u.table)
      modifies nethash, e`next, e`pprev, Repr()`pprev, `m
      ensures Mirrors() && m == u && Repr() == old(Repr()) + {e}
    {
      ghost var was := m;
      m := u;
      LinkFields(nethash, e, h, was, u);
    }

    /** `__network_hash_link`, and the new row. */
    method Link(e: Entry)
      requires Valid() && e !in Repr() && e.addr !in m.table && e.use >= 1
      modifies nethash, e`next, e`pprev, Repr()`pprev, `m
      ensures Valid() && Repr() == old(Repr()) + {e}
      ensures m.table == old(m).table[e.addr := old(RecOf(e))]
    {
      var h := hash(e.addr);
      HeadKnown(e.addr);
      ghost var u := PushImage(hash, m, e, h, LinksOf(e), RecOf(e));
      assert forall j, x :: 0 <= j < |m.chains| && x in m.chains[j] ==> x in u.chains[j];
      LinkInto(e, h, u);
    }

    /** `__nat25_db_network_insert`; `memory` says whether the allocation succeeds. */
    method DbInsert(mac: Mac, a: Addr, now: int, memory: bool)
      requires Valid()
      modifies this, nethash, Repr()
      ensures Valid() && fresh(Repr() - old(Repr()))
      ensures View() == Apply(old(View()), DoInsert(a, mac, memory), now)
    {
      var db := Find(a);
      if db != null {
        LinkedEntry(db, hash(a));
        SetData(db, mac, now, db.use);
        return;
      }
      if !memory {
        return;
      }
      db := new Entry(a, mac, now);
      Link(db);
    }

    /** `scdb_findEntry`, its assignment to `scdb_entry`, and the refresh that follows a hit. */
    method FindShortcut(a: Addr, now: int)
      requires Valid()
      modifies this, Repr()
      ensures Valid() && Repr() == old(Repr())
      ensures View() == Apply(old(View()), DoFindShortcut(a), now)
    {
      var db := Find(a);
      scdb := db;
      if db != null {
        LinkedEntry(db, hash(a));
        SetData(db, db.mac, now, db.use);
      }
    }

    /** A frame takes the shortcut: its entry is refreshed without a search. */
    method UseShortcut(now: int)
      requires Valid()
      modifies this, Repr()
      ensures Valid() && Repr() == old(Repr())
      ensures View() == Apply(old(View()), DoUseShortcut, now)
    {
      if scdb != null {
        LinkedEntry(scdb, hash(scdb.addr));
        SetData(scdb, scdb.mac, now, scdb.use);
      }
    }

    /** `__network_hash_unlink`, and the end of the row. */
    method Unlink(f: Entry, ghost h: nat, ghost k: nat)
      requires Mirrors() && ImageOkBut(hash, m, f) && Placed(m, f, h, k) && hash(f.addr) == h
      modifies nethash, Repr()`next, Repr()`pprev, `m
      ensures Mirrors() && ImageOk(hash, m) && Repr() == old(Repr()) && |m.chains| == |old(m).chains|
      ensures m.chains == old(m).chains[h := Without(old(m).chains[h], k)] && m.table == old(m).table - {f.addr}
      ensures forall j, x :: 0 <= j < |m.chains| && x != f ==> (x in m.chains[j] <==> x in old(m).chains[j])
    {
      ghost var u := RemoveImage(hash, m, f, h, k);
      ghost var unlinked := UnlinkFields(nethash, f, m);
      m := u;
    }

    /** Clears the shortcut if it is f, and unlinks f. */
    method Drop(f: Entry, ghost h: nat, ghost k: nat)
      requires Mirrors() && ImageOkBut(hash, m, f) && ShortcutOk() && Placed(m, f, h, k) && hash(f.addr) == h
      modifies nethash, Repr()`next, Repr()`pprev, `m, `scdb
      ensures Valid() && Repr() == old(Repr()) && |m.chains| == |old(m).chains|
      ensures m.chains == old(m).chains[h := Without(old(m).chains[h], k)] && m.table == old(m).table - {f.addr}
      ensures scdb == if old(scdb) == f then null else old(scdb)
    {
      if scdb == f {
        scdb := null;
      }
      Unlink(f, h, k);
    }

    /** `atomic_dec` on the use count; the table does not know yet. */
    method Spend(f: Entry, ghost h: nat, ghost k: nat)
      requires Valid() && h < |m.chains| && k < |m.chains[h]| && m.chains[h][k] == f
      modifies f`use, `m
      ensures Mirrors() && ImageOkBut(hash, m, f) && ShortcutOk() && Placed(m, f, h, k) && hash(f.addr) == h
      ensures m == old(m).(rows := m.rows) && f in Repr() && Repr() == old(Repr()) && f.addr in m.table
      ensures RecOf(f) == m.table[f.addr].(use := m.table[f.addr].use - 1) && f.use >= 0
    {
      LinkedEntry(f, h);
      Place(h, k);
      ghost var r := RecOf(f).(use := f.use - 1);
      ForgetRow(hash, m, f, r);
      m := m.(rows := m.rows[f := r]);
      f.use := f.use - 1;
    }

    /** One entry in an expiry pass. */
    method ExpireEntry(f: Entry, now: int, ghost h: nat, ghost k: nat) returns (dropped: bool)
      requires Valid() && h < |m.chains| && k < |m.chains[h]| && m.chains[h][k] == f && f.addr in m.table
      modifies this, nethash, Repr()
      ensures Valid() && Repr() == old(Repr()) && |m.chains| == |old(m).chains|
      ensures dropped == ExpireRec(old(m).table[f.addr], now).None?
      ensures if dropped
              then m.chains == old(m).chains[h := Without(old(m).chains[h], k)] && m.table == old(m).table - {f.addr}
              else m.chains == old(m).chains && m.table == old(m).table[f.addr := ExpireRec(old(m).table[f.addr], now).value]
      ensures scdb == if dropped && old(scdb) == f then null else old(scdb)
    {
      LinkedEntry(f, h);
      if f.age > now - AGEING {
        return false;
      }
      Spend(f, h, k);
      dropped := DropSpent(f, h, k);
    }

    /** An entry whose use count has just gone down goes with the last use. */
    method DropSpent(f: Entry, ghost h: nat, ghost k: nat) returns (dropped: bool)
      requires Mirrors() && ImageOkBut(hash, m, f) && ShortcutOk() && Placed(m, f, h, k) && hash(f.addr) == h
      requires f in Repr() && f.use >= 0
      modifies nethash, Repr()`next, Repr()`pprev, `m, `scdb
      ensures Valid() && Repr() == old(Repr()) && |m.chains| == |old(m).chains|
      ensures dropped == (old(f.use) == 0)
      ensures if dropped
              then m.chains == old(m).chains[h := Without(old(m).chains[h], k)] && m.table == old(m).table - {f.addr}
              else m.chains == old(m).chains && m.table == old(m).table[f.addr := old(RecOf(f))]
      ensures scdb == if dropped && old(scdb) == f then null else old(scdb)
    {
      if f.use == 0 {
        Drop(f, h, k);
        return true;
      }
      CatchUp(f, h);
      dropped := false;
    }

    /** The table catches up with the entry. */
    ghost method CatchUp(f: Entry, h: nat)
      requires Mirrors() && ImageOkBut(hash, m, f) && ShortcutOk() && h < |m.chains| && f in m.chains[h]
      requires f in Repr() && f.use >= 1
      modifies `m
      ensures Valid() && m == old(m).(table := old(m).table[f.addr := RecOf(f)])
    {
      UpdatedTies(hash, m, f, h);
      m := m.(table := m.table[f.addr := RecOf(f)]);
    }

    /** What a pass that has got to the addresses in p leaves of the database it began with. */
    ghost predicate PassedOver(d: Db, p: set<Addr>, now: int)
      reads this
    {
      && m.table == ExpireOnly(d.table, p, now)
      && (if d.shortcut.Some? && d.shortcut.value in m.table then scdb != null && scdb.addr == d.shortcut.value
          else scdb == null)
    }

    /** The loop body of `nat25_db_expire` at position k of bucket h. */
    method PassEntry(f: Entry, now: int, ghost d: Db, ghost p: set<Addr>, ghost h: nat, ghost k: nat)
      returns (g: Entry?, ghost k': nat)
      requires Valid() && PassedOver(d, p, now)
      requires h < |m.chains| && k < |m.chains[h]| && m.chains[h][k] == f && Passed(m.chains[h], k, p)
      modifies this, nethash, Repr()
      ensures Valid() && Repr() == old(Repr()) && PassedOver(d, p + {f.addr}, now)
      ensures |m.chains| == |old(m).chains| && h < |m.chains|
      ensures k' <= |m.chains[h]| && Passed(m.chains[h], k', p + {f.addr})
      ensures g == (if k' < |m.chains[h]| then m.chains[h][k'] else null)
      ensures |m.chains[h]| - k' == |old(m).chains[h]| - k - 1
    {
      Place(h, k);
      LinkedEntry(f, h);
      Apart(h);
      ExpireNext(d.table, p, now, f.addr);
      PassedOn(m.chains[h], k, p);
      g := f.next;
      if scdb != null && scdb.addr == f.addr {
        OneEntry(scdb, f, h);
      }
      var dropped := ExpireEntry(f, now, h, k);
      k' := if dropped then k else k + 1;
    }

    lemma OneEntry(e: Entry, f: Entry, h: nat)
      requires Valid() && h < |m.chains| && f in m.chains[h]
      requires hash(e.addr) < |m.chains| && e in m.chains[hash(e.addr)] && e.addr == f.addr
      ensures e == f
    {
      OpenImage(hash, m);
      SameAddr(hash, m, e, f, hash(e.addr), h);
    }

    /** The inner loop of `nat25_db_expire`. */
    method ExpireBucket(h: nat, now: int, ghost d: Db, ghost p0: set<Addr>) returns (ghost p: set<Addr>)
      requires Valid() && h < nethash.Length && PassedOver(d, p0, now)
      requires forall a :: a in p0 ==> hash(a) < h
      modifies this, nethash, Repr()
      ensures Valid() && Repr() == old(Repr()) && PassedOver(d, p, now)
      ensures p0 <= p && (forall a :: a in p ==> hash(a) <= h)
      ensures forall a :: a in d.table && hash(a) == h ==> a in p
    {
      p := p0;
      BucketKnown(h);
      ghost var k: nat := 0;
      var f := nethash[h];
      while f != null
        invariant Valid() && Repr() == old(Repr()) && PassedOver(d, p, now)
        invariant p0 <= p && (forall a :: a in p ==> hash(a) <= h)
        invariant h < |m.chains| && k <= |m.chains[h]| && Passed(m.chains[h], k, p)
        invariant f == (if k < |m.chains[h]| then m.chains[h][k] else null)
        decreases |m.chains[h]| - k
      {
        LinkedEntry(f, h);
        ghost var a := f.addr;
        f, k := PassEntry(f, now, d, p, h, k);
        p := p + {a};
      }
      forall a | a in d.table && hash(a) == h ensures a in p {
        HeadKnown(a);
      }
    }

    lemma BucketCount()
      requires Valid()
      ensures nethash.Length == HASH_SIZE && forall a :: hash(a) < HASH_SIZE
    {
      OpenImage(hash, m);
    }

    lemma ShortcutKnown()
      requires Valid() && scdb != null
      ensures scdb.addr in m.table
    {
      LinkedEntry(scdb, hash(scdb.addr));
    }

    /** `nat25_db_expire`. */
    method DbExpire(now: int)
      requires Valid()
      modifies this, nethash, Repr()
      ensures Valid() && Repr() == old(Repr())
      ensures View() == Apply(old(View()), DoExpire, now)
    {
      ghost var d := View();
      ghost var p: set<Addr> := {};
      if scdb != null {
        ShortcutKnown();
      }
      BucketCount();
      assert ExpireOnly(d.table, p, now) == d.table;
      for h := 0 to nethash.Length
        invariant Valid() && Repr() == old(Repr()) && PassedOver(d, p, now)
        invariant forall a :: a in p ==> hash(a) < h
        invariant forall a :: a in d.table && hash(a) < h ==> a in p
      {
        p := ExpireBucket(h, now, d, p);
      }
      assert d.table.Keys <= p;
      ExpireDone(d.table, p, now);
    }

    /** The inner loop of `nat25_db_cleanup`. */
    method CleanBucket(h: nat)
      requires Valid() && h < nethash.Length
      modifies this, nethash, Repr()
      ensures Valid() && Repr() == old(Repr())
      ensures m.table.Keys <= old(m).table.Keys && (forall a :: a in m.table ==> hash(a) != h)
      ensures scdb == null || scdb == old(scdb)
    {
      BucketKnown(h);
      var f := nethash[h];
      while f != null
        invariant Valid() && Repr() == old(Repr()) && h < |m.chains|
        invariant f == First(m.chains[h])
        invariant m.table.Keys <= old(m).table.Keys
        invariant scdb == null || scdb == old(scdb)
        decreases |m.chains[h]|
      {
        Place(h, 0);
        LinkedEntry(f, h);
        ForgetRow(hash, m, f, RecOf(f));
        assert m.(rows := m.rows[f := RecOf(f)]) == m;
        var g := f.next;
        Drop(f, h, 0);
        f := g;
      }
      forall a | a in m.table ensures hash(a) != h {
        HeadKnown(a);
      }
    }

    /** `nat25_db_cleanup`. */
    method DbCleanup(now: int)
      requires Valid()
      modifies this, nethash, Repr()
      ensures Valid() && Repr() == old(Repr())
      ensures View() == Apply(old(View()), DoCleanup, now)
    {
      if scdb != null {
        ShortcutKnown();
      }
      BucketCount();
      for h := 0 to nethash.Length
        invariant Valid() && Repr() == old(Repr())
        invariant forall a :: a in m.table ==> hash(a) >= h
        invariant scdb == null || scdb == old(scdb)
      {
        CleanBucket(h);
      }
      BucketCount();
      assert m.table == map[];
      if scdb != null {
        ShortcutKnown();
      }
    }
  }

  /** The first k entries of a chain are those whose addresses are in p. */
  ghost predicate Passed(c: seq<Entry>, k: nat, p: set<Addr>) {
    forall j :: 0 <= j < |c| ==> (j < k <==> c[j].addr in p)
  }

  lemma PassedOn(c: seq<Entry>, k: nat, p: set<Addr>)
    requires k < |c| && Passed(c, k, p)
    requires forall i, j :: 0 <= i < j < |c| ==> c[i].addr != c[j].addr
    ensures Passed(c, k + 1, p + {c[k].addr})
    ensures Passed(Without(c, k), k, p + {c[k].addr})
    ensures k < |Without(c, k)| ==> Without(c, k)[k] == c[k + 1]
  {
    var d := Without(c, k);
    assert forall j :: 0 <= j < k ==> d[j] == c[j];
    assert forall j :: k <= j < |d| ==> d[j] == c[j + 1];
  }

  // Each assignment through a pointer keeps the image.

  method WriteHead(nethash: array<Entry?>, h: nat, e: Entry?, ghost m: Image)
    requires Held(nethash, m) && h < nethash.Length
    modifies nethash
    ensures Held(nethash, SetHead(m, h, e))
  {
    nethash[h] := e;
  }

  method WriteNext(nethash: array<Entry?>, e: Entry, next: Entry?, ghost m: Image)
    requires Held(nethash, m) && e in m.links
    modifies e`next
    ensures Held(nethash, SetNext(m, e, next)) && e.next == next
  {
    e.next := next;
  }

  method WritePprev(nethash: array<Entry?>, e: Entry, pprev: Slot, ghost m: Image)
    requires Held(nethash, m) && e in m.links
    modifies e`pprev
    ensures Held(nethash, SetPprev(m, e, pprev))
  {
    e.pprev := pprev;
  }

  /** `__network_hash_link`. */
  method LinkFields(nethash: array<Entry?>, e: Entry, h: nat, ghost m: Image, ghost u: Image)
    requires Held(nethash, m) && h < nethash.Length && e !in m.links
    requires m.heads[h] != null ==> m.heads[h] in m.links
    requires u == LinkedIn(Allocated(m, e, LinksOf(e), RecOf(e)), e, h).(chains := u.chains, table := u.table)
    modifies nethash, e`next, e`pprev, m.links.Keys`pprev
    ensures Held(nethash, u)
  {
    ghost var w := Allocated(m, e, LinksOf(e), RecOf(e));
    var next := nethash[h];
    WriteNext(nethash, e, next, w);
    w := SetNext(w, e, next);
    if next != null {
      WritePprev(nethash, next, NextOf(e), w);
      w := SetPprev(w, next, NextOf(e));
    }
    LinkHead(nethash, e, h, w);
  }

  method LinkHead(nethash: array<Entry?>, e: Entry, h: nat, ghost m: Image)
    requires Held(nethash, m) && h < nethash.Length && e in m.links
    modifies nethash, e`pprev
    ensures h < |m.heads| && Held(nethash, SetPprev(SetHead(m, h, e), e, Bucket(h)))
  {
    WriteHead(nethash, h, e, m);
    WritePprev(nethash, e, Bucket(h), SetHead(m, h, e));
  }

  /** `__network_hash_unlink`. */
  method UnlinkFields(nethash: array<Entry?>, f: Entry, ghost m: Image) returns (ghost u: Image)
    requires Held(nethash, m) && Linking(m, f)
    modifies nethash, m.links.Keys`next, m.links.Keys`pprev
    ensures u == Unlinked(m, f) && Held(nethash, u)
  {
    u := m;
    var next, pprev := f.next, f.pprev;
    match pprev {
      case Bucket(b) =>
        WriteHead(nethash, b, next, u);
        u := SetHead(u, b, next);
      case NextOf(p) =>
        WriteNext(nethash, p, next, u);
        u := SetNext(u, p, next);
    }
    if next != null {
      WritePprev(nethash, next, pprev, u);
      u := SetPprev(u, next, pprev);
    }
    WriteNext(nethash, f, null, u);
    u := SetNext(u, f, null);
    WritePprev(nethash, f, Nowhere, u);
    u := SetPprev(u, f, Nowhere);
  }

  /** The database of the driver, with its own hash. */
  method NewDatabase() returns (n: Nat25)
    ensures n.Valid() && fresh(n) && n.hash == Hash && n.View() == Db(map[], None)
  {
    n := new Nat25(Hash);
  }
}
