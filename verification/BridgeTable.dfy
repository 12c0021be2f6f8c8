/** The NAT2.5 address database as a plain map, and what holds over every run of it. */
module BridgeTable {

  import opened Basics

  const ADDR_LEN := 11

  /** A network address record: type octet, then IPv4 address or PPPoE session. */
  type Addr = a: seq<bv8> | |a| == ADDR_LEN witness [0, 0, 0, 0, 0, 0, 0, 0, 0, 0, 0]
  type Mac = seq<bv8>

  const HASH_SIZE: nat := 16
  const AGEING: nat := 300000   // NAT25_AGEING_TIME in ms

  const IPV4: bv8 := 1
  const PPPOE: bv8 := 5

  /** `__nat25_network_hash`. */
  function Hash(a: Addr): (h: nat)
    ensures h < HASH_SIZE
  {
    var x: bv8 :=
      if a[0] == IPV4 then a[7] ^ a[8] ^ a[9] ^ a[10]
      else if a[0] == PPPOE then a[0] ^ a[1] ^ a[2] ^ a[3] ^ a[4] ^ a[5] ^ a[6] ^ a[7] ^ a[8]
      else a[0] ^ a[1] ^ a[2] ^ a[3] ^ a[4] ^ a[5] ^ a[6] ^ a[7] ^ a[8] ^ a[9] ^ a[10];
    (x as int) % HASH_SIZE
  }

  datatype Rec = Rec(mac: Mac, age: int, use: int)
  /** `__nat25_has_expired`. */
  predicate Expired(r: Rec, now: int) {
    r.age <= now - AGEING
  }

  // ---------------------------------------------------------------------------
  // Operations
  // ---------------------------------------------------------------------------

  type Table = map<Addr, Rec>

  /** `__nat25_db_network_insert`; a new entry needs memory. */
  function Insert(t: Table, a: Addr, mac: Mac, now: int, memory: bool): Table {
    if a in t then t[a := t[a].(mac := mac, age := now)]
    else if memory then t[a := Rec(mac, now, 1)]
    else t
  }

  /** `__nat25_db_network_lookup_and_replace`: a hit on a fresh entry counts as a use. */
  function Lookup(t: Table, a: Addr, now: int): Table {
    if a in t && !Expired(t[a], now) then t[a := t[a].(use := t[a].use + 1)] else t
  }

  /** The MAC written into the frame by a look-up, if any. */
  function Replacement(t: Table, a: Addr, now: int): Option<Mac> {
    if a in t && !Expired(t[a], now) then Some(t[a].mac) else None
  }

  function ExpireRec(r: Rec, now: int): Option<Rec> {
    if !Expired(r, now) then Some(r)
    else if r.use - 1 == 0 then None
    else Some(r.(use := r.use - 1))
  }

  /** `nat25_db_expire`. */
  function Expire(t: Table, now: int): Table {
    map a | a in t && ExpireRec(t[a], now).Some? :: ExpireRec(t[a], now).value
  }

  /** An expiry pass that has got to the addresses in p so far. */
  function ExpireOnly(t: Table, p: set<Addr>, now: int): Table {
    map a | a in t && (a in p ==> ExpireRec(t[a], now).Some?) :: if a in p then ExpireRec(t[a], now).value else t[a]
  }

  lemma ExpireNext(t: Table, p: set<Addr>, now: int, a: Addr)
    requires a in t && a !in p
    ensures var u := ExpireOnly(t, p, now);
            && a in u && u[a] == t[a]
            && ExpireOnly(t, p + {a}, now)
            == match ExpireRec(t[a], now) { case None => u - {a} case Some(r) => u[a := r] }
  {
  }

  lemma ExpireDone(t: Table, p: set<Addr>, now: int)
    requires t.Keys <= p
    ensures ExpireOnly(t, p, now) == Expire(t, now)
  {
  }

  // ---------------------------------------------------------------------------
  // Runs, with the shortcut entry
  // ---------------------------------------------------------------------------

  datatype Op =
    | DoInsert(a: Addr, mac: Mac, memory: bool)
    | DoLookup(a: Addr)
    | DoExpire
    | DoCleanup
    | DoFindShortcut(a: Addr)   // scdb_entry = scdb_findEntry(...), and its refresh
    | DoUseShortcut             // scdb_entry->ageing_timer = jiffies

  datatype Db = Db(table: Table, shortcut: Option<Addr>)

  function Refresh(t: Table, a: Addr, now: int): Table
    requires a in t
  {
    t[a := t[a].(age := now)]
  }

  function Apply(d: Db, op: Op, now: int): Db {
    match op
    case DoInsert(a, mac, memory) => d.(table := Insert(d.table, a, mac, now, memory))
    case DoLookup(a) => d.(table := Lookup(d.table, a, now))
    case DoExpire =>
      var t := Expire(d.table, now);
      Db(t, if d.shortcut.Some? && d.shortcut.value !in t then None else d.shortcut)
    case DoCleanup => Db(map[], if d.shortcut.Some? && d.shortcut.value in d.table then None else d.shortcut)
    case DoFindShortcut(a) =>
      if a in d.table then Db(Refresh(d.table, a, now), Some(a)) else d.(shortcut := None)
    case DoUseShortcut =>
      if d.shortcut.Some? && d.shortcut.value in d.table then d.(table := Refresh(d.table, d.shortcut.value, now)) else d
  }

  datatype Timed = Timed(op: Op, now: int)

  function Run(d: Db, ops: seq<Timed>): Db {
    if ops == [] then d
    else Apply(Run(d, ops[..|ops| - 1]), ops[|ops| - 1].op, ops[|ops| - 1].now)
  }

  /** Uses stay positive, and the shortcut never names an entry that is gone. */
  ghost predicate Sound(d: Db) {
    && (forall a :: a in d.table ==> d.table[a].use >= 1)
    && (d.shortcut.Some? ==> d.shortcut.value in d.table)
  }

  lemma {:induction false} RunIsSound(ops: seq<Timed>)
    ensures Sound(Run(Db(map[], None), ops))
  {
    if ops != [] {
      RunIsSound(ops[..|ops| - 1]);
    }
  }

  /** The operation gives entry a a new lease: an insert, or a use through the shortcut. */
  predicate Refreshes(d: Db, op: Op, a: Addr) {
    match op
    case DoInsert(b, _, _) => a == b
    case DoFindShortcut(b) => a == b
    case DoUseShortcut => d.shortcut == Some(a)
    case DoCleanup => true
    case _ => false
  }

  ghost predicate Unrefreshed(d: Db, ops: seq<Timed>, a: Addr) {
    forall k :: 0 <= k < |ops| ==> !Refreshes(Run(d, ops[..k]), ops[k].op, a)
  }

  ghost predicate NotBefore(ops: seq<Timed>, now: int) {
    forall k :: 0 <= k < |ops| ==> ops[k].now >= now
  }

  function Passes(ops: seq<Timed>): nat {
    if ops == [] then 0
    else Passes(ops[..|ops| - 1]) + if ops[|ops| - 1].op.DoExpire? then 1 else 0
  }

  /** One operation that gives a no new lease, on an entry that has expired or is gone. */
  lemma OneOp(d: Db, op: Op, now: int, a: Addr)
    requires !Refreshes(d, op, a) && (a in d.table ==> Expired(d.table[a], now))
    ensures var t := Apply(d, op, now).table;
            && (a !in d.table ==> a !in t)
            && (a in d.table && !op.DoExpire? ==> a in t && t[a] == d.table[a])
            && (a in d.table && op.DoExpire? && d.table[a].use != 1 ==> a in t && t[a] == d.table[a].(use := d.table[a].use - 1))
            && (a in d.table && op.DoExpire? && d.table[a].use == 1 ==> a !in t)
  {
  }

  /**
    An expired entry that nobody refreshes loses one use per expiry pass, whatever
    else happens, and is gone after exactly as many passes as it had uses.
   */
  lemma {:induction false} ExpiredEntryDies(d: Db, a: Addr, now: int, ops: seq<Timed>)
    requires Sound(d) && a in d.table && Expired(d.table[a], now)
    requires NotBefore(ops, now) && Unrefreshed(d, ops, a)
    ensures var n, e := d.table[a].use, Run(d, ops).table;
            if Passes(ops) < n then a in e && e[a] == d.table[a].(use := n - Passes(ops)) else a !in e
  {
    if ops != [] {
      var front := ops[..|ops| - 1];
      assert forall k :: 0 <= k < |front| ==> front[..k] == ops[..k] && front[k] == ops[k];
      ExpiredEntryDies(d, a, now, front);
      assert !Refreshes(Run(d, front), ops[|ops| - 1].op, a);
      OneOp(Run(d, front), ops[|ops| - 1].op, ops[|ops| - 1].now, a);
    }
  }

  // ---------------------------------------------------------------------------
  // What a look-up finds
  // ---------------------------------------------------------------------------

  /** An insert that succeeds is found for the next 300 seconds, and not a moment longer. */
  lemma InsertIsFound(t: Table, a: Addr, mac: Mac, now: int, memory: bool, later: int)
    requires now <= later && (a in t || memory)
    ensures Replacement(Insert(t, a, mac, now, memory), a, later) == if later < now + 300000 then Some(mac) else None
  {
  }

  /** An insert without memory for a new address changes nothing; other addresses never notice one. */
  lemma InsertElsewhere(t: Table, a: Addr, mac: Mac, now: int, memory: bool, b: Addr)
    requires b != a || (a !in t && !memory)
    ensures var u := Insert(t, a, mac, now, memory); (b in u <==> b in t) && (b in t ==> u[b] == t[b])
  {
  }

  /** A hit adds a use to its own entry, and neither a hit nor a miss changes anything else. */
  lemma LookupCounts(t: Table, a: Addr, now: int)
    ensures var u := Lookup(t, a, now);
            && u.Keys == t.Keys
            && (forall b :: b in t ==> u[b].mac == t[b].mac && u[b].age == t[b].age)
            && (forall b :: b in t && b != a ==> u[b] == t[b])
            && (a in t ==> u[a].use == t[a].use + if Replacement(t, a, now).Some? then 1 else 0)
  {
  }

  /** The operation stores a MAC for the address. */
  ghost predicate Stores(d: Db, op: Op, a: Addr, mac: Mac) {
    op.DoInsert? && op.a == a && op.mac == mac && (a in d.table || op.memory)
  }

  /** One operation: an address that is in the table afterwards has the MAC just stored, or the one it had. */
  lemma OneOpStores(d: Db, op: Op, now: int, a: Addr)
    ensures var t := Apply(d, op, now).table;
            a in t ==> Stores(d, op, a, t[a].mac)
                       || (a in d.table && t[a].mac == d.table[a].mac && !(op.DoInsert? && op.a == a))
  {
  }

  /** The address has been in the table after every operation from the k-th on. */
  ghost predicate InTableSince(ops: seq<Timed>, k: nat, a: Addr)
    requires k < |ops|
  {
    forall j :: k < j <= |ops| ==> a in Run(Db(map[], None), ops[..j]).table
  }

  /** The k-th operation stored the MAC, and it was the last insert for the address. */
  ghost predicate LastStore(ops: seq<Timed>, k: nat, a: Addr, mac: Mac)
    requires k < |ops|
  {
    && Stores(Run(Db(map[], None), ops[..k]), ops[k].op, a, mac)
    && forall j :: k < j < |ops| ==> !(ops[j].op.DoInsert? && ops[j].op.a == a)
  }

  /**
    Over any operations: an entry holds the MAC of the last insert for its address, and
    has been there ever since.
   */
  lemma {:induction false} EntryIsLastInsert(ops: seq<Timed>, a: Addr) returns (k: nat)
    requires a in Run(Db(map[], None), ops).table
    ensures k < |ops| && LastStore(ops, k, a, Run(Db(map[], None), ops).table[a].mac) && InTableSince(ops, k, a)
  {
    var front, last := ops[..|ops| - 1], ops[|ops| - 1];
    var d := Run(Db(map[], None), front);
    OneOpStores(d, last.op, last.now, a);
    assert ops[..|ops|] == ops;
    if Stores(d, last.op, a, Run(Db(map[], None), ops).table[a].mac) {
      k := |ops| - 1;
    } else {
      k := EntryIsLastInsert(front, a);
      assert forall j :: 0 <= j <= |front| ==> ops[..j] == front[..j];
    }
  }

  /** So a hit writes the MAC of the last insert for the address. */
  lemma HitIsLastInsert(ops: seq<Timed>, a: Addr, now: int) returns (k: nat)
    requires Replacement(Run(Db(map[], None), ops).table, a, now).Some?
    ensures k < |ops| && LastStore(ops, k, a, Replacement(Run(Db(map[], None), ops).table, a, now).value)
    ensures InTableSince(ops, k, a)
  {
    k := EntryIsLastInsert(ops, a);
  }

  /** After a cleanup nothing is found. */
  lemma CleanupForgets(d: Db, now: int, a: Addr, later: int)
    ensures Replacement(Apply(d, DoCleanup, now).table, a, later) == None
  {
  }

  /** A use of the shortcut, like the search for it, gives its entry another 300 seconds. */
  lemma ShortcutRenews(d: Db, now: int, a: Addr, later: int)
    requires a in d.table && now <= later
    ensures var mac := if later < now + 300000 then Some(d.table[a].mac) else None;
            && Replacement(Apply(d, DoFindShortcut(a), now).table, a, later) == mac
            && Apply(d, DoFindShortcut(a), now).shortcut == Some(a)
            && (d.shortcut == Some(a) ==> Replacement(Apply(d, DoUseShortcut, now).table, a, later) == mac)
  {
  }

  /** A shortcut that finds no entry is cleared, and nothing else happens. */
  lemma ShortcutMisses(d: Db, now: int, a: Addr)
    requires a !in d.table
    ensures Apply(d, DoFindShortcut(a), now) == Db(d.table, None)
  {
  }

  /** An expiry pass leaves an entry that has not expired as it is. */
  lemma FreshSurvives(d: Db, now: int, a: Addr)
    requires a in d.table && now < d.table[a].age + 300000
    ensures var u := Apply(d, DoExpire, now);
            && a in u.table && u.table[a] == d.table[a]
            && (d.shortcut == Some(a) ==> u.shortcut == Some(a))
  {
  }

  // ---------------------------------------------------------------------------
  // The uses of an entry
  // ---------------------------------------------------------------------------

  /** What one operation does to the uses of an address that stays or comes. */
  ghost function UsesAfter(d: Db, op: Op, now: int, a: Addr, uses: int): int {
    match op
    case DoInsert(b, _, _) => if b == a && a !in d.table then 1 else uses
    case DoLookup(b) => if b == a && Replacement(d.table, a, now).Some? then uses + 1 else uses
    case DoExpire => if a in d.table && Replacement(d.table, a, now) == None then uses - 1 else uses
    case _ => uses
  }

  /** The entry's first use, one for each hit since, and less one for each pass that found it expired. */
  ghost function Uses(ops: seq<Timed>, a: Addr): int {
    if ops == [] then 0
    else
      var front, last := ops[..|ops| - 1], ops[|ops| - 1];
      UsesAfter(Run(Db(map[], None), front), last.op, last.now, a, Uses(front, a))
  }

  /** After any operations an entry has that many uses. */
  lemma {:induction false} UsesAreCounted(ops: seq<Timed>, a: Addr)
    requires a in Run(Db(map[], None), ops).table
    ensures Run(Db(map[], None), ops).table[a].use == Uses(ops, a)
  {
    var front, last := ops[..|ops| - 1], ops[|ops| - 1];
    var d := Run(Db(map[], None), front);
    if a in d.table {
      UsesAreCounted(front, a);
    }
  }
}
