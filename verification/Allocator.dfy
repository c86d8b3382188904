/**
 The loopback address allocator: linear probing on a ring of 253 octets, with a deletion that
 moves nothing. The hash is a parameter: every theorem holds for any function from keys to
 32-bit values.

 `Allocator` is the object with its mutable table; `AllocateSpec` and `ReleaseSpec` say what its
 methods compute, and the theorems at the end of the file are about any history of those two.
*/
module IPAllocator {
  import opened Wrappers

  const MIN_OCTET := 2
  const MAX_OCTET := 254
  const RANGE_SIZE := MAX_OCTET - MIN_OCTET + 1

  type Byte = x: int | 0 <= x < 0x100
  type Uint32 = x: int | 0 <= x < 0x1_0000_0000
  type Hash = string -> Uint32

  /** The allocator's state: octet to the key that owns it. */
  type Table = map<Byte, string>

  datatype AllocError = RangeExhausted | ProbeWrapped

  type AllocResult = Result<Byte, AllocError>

  predicate InRange(o: int) {
    MIN_OCTET <= o <= MAX_OCTET
  }

  function HashToOctet(h: Hash, key: string): Byte {
    h(key) % RANGE_SIZE + MIN_OCTET
  }

  /** The octet of a key is the one octet of the range that is congruent to its hash. */
  lemma HashMeaning(h: Hash, key: string, o: Byte)
    requires InRange(o)
    ensures HashToOctet(h, key) == o <==> (h(key) - (o - MIN_OCTET)) % RANGE_SIZE == 0
  {
  }

  function NextOctet(o: Byte): Byte {
    if o >= MAX_OCTET then MIN_OCTET else o + 1
  }

  /** How many steps of `NextOctet` lead from a to b. */
  function Dist(a: int, b: int): int {
    if b >= a then b - a else b - a + RANGE_SIZE
  }

  ghost predicate ValidTable(t: Table) {
    && (forall o :: o in t ==> InRange(o))
    && (forall o, p :: o in t && p in t && t[o] == t[p] ==> o == p)
  }

  /** The octet that a key owns. */
  ghost function OctetOf(t: Table, key: string): (o: Byte)
    requires key in t.Values
    ensures o in t && t[o] == key
  {
    var o :| o in t && t[o] == key;
    o
  }

  /** Every octet met before `o` on the way from `start` is taken. */
  ghost predicate TakenBefore(t: Table, start: Byte, o: Byte) {
    forall p: Byte :: InRange(p) && Dist(start, p) < Dist(start, o) ==> p in t
  }

  /** `o` is the first free octet from `start`. */
  ghost predicate IsFirstFree(t: Table, start: Byte, o: Byte) {
    InRange(o) && o !in t && TakenBefore(t, start, o)
  }

  lemma TakenBeforeNext(t: Table, start: Byte, o: Byte)
    requires InRange(start) && InRange(o) && o in t && TakenBefore(t, start, o)
    ensures NextOctet(o) != start ==> TakenBefore(t, start, NextOctet(o))
    ensures NextOctet(o) == start ==> forall p: Byte :: InRange(p) ==> p in t
  {
  }

  lemma FirstFreeUnique(t: Table, start: Byte, o: Byte, p: Byte)
    requires InRange(start) && IsFirstFree(t, start, o) && IsFirstFree(t, start, p)
    ensures o == p
  {
  }

  /** What `Allocate` does to the table and what it answers. */
  ghost function AllocateSpec(t: Table, h: Hash, key: string): (Table, AllocResult) {
    if key in t.Values then
      (t, Ok(OctetOf(t, key)))
    else if |t| >= RANGE_SIZE then
      (t, Err(RangeExhausted))
    else if exists o :: IsFirstFree(t, HashToOctet(h, key), o) then
      var o :| IsFirstFree(t, HashToOctet(h, key), o);
      (t[o := key], Ok(o))
    else
      (t, Err(ProbeWrapped))
  }

  ghost function ReleaseSpec(t: Table, key: string): Table {
    map o | o in t && t[o] != key :: t[o]
  }

  function Ring(n: nat): (s: set<Byte>)
    requires n <= RANGE_SIZE
    ensures |s| == n
    ensures forall o: Byte :: o in s <==> MIN_OCTET <= o < MIN_OCTET + n
  {
    if n == 0 then {} else Ring(n - 1) + {MIN_OCTET + n - 1}
  }

  lemma SubsetSize<T>(a: set<T>, b: set<T>)
    requires a <= b
    ensures |a| <= |b|
    ensures |a| == |b| ==> a == b
  {
    assert b == a + (b - a);
  }

  /** A valid table holds at most 253 octets, and exactly 253 when none is free. */
  lemma TableSize(t: Table)
    requires ValidTable(t)
    ensures |t| <= RANGE_SIZE
    ensures |t| == RANGE_SIZE <==> forall o: Byte :: InRange(o) ==> o in t
  {
    var ring := Ring(RANGE_SIZE);
    SubsetSize(t.Keys, ring);
    if forall o: Byte :: InRange(o) ==> o in t {
      SubsetSize(ring, t.Keys);
    }
  }

  /** With a free octet somewhere, walking the ring from any start meets a first one. */
  lemma FirstFreeExists(t: Table, start: Byte, o: Byte) returns (first: Byte)
    requires ValidTable(t) && InRange(start) && InRange(o) && o !in t
    ensures IsFirstFree(t, start, first)
    decreases Dist(start, o)
  {
    if p: Byte :| InRange(p) && Dist(start, p) < Dist(start, o) && p !in t {
      first := FirstFreeExists(t, start, p);
    } else {
      first := o;
    }
  }

  lemma FirstFreeFrom(t: Table, start: Byte) returns (first: Byte)
    requires ValidTable(t) && InRange(start) && |t| < RANGE_SIZE
    ensures IsFirstFree(t, start, first)
  {
    TableSize(t);
    var o: Byte :| InRange(o) && o !in t;
    first := FirstFreeExists(t, start, o);
  }

  lemma AllocatesFirstFree(t: Table, h: Hash, key: string, o: Byte)
    requires ValidTable(t) && key !in t.Values && |t| < RANGE_SIZE && IsFirstFree(t, HashToOctet(h, key), o)
    ensures AllocateSpec(t, h, key) == (t[o := key], Ok(o)) && ValidTable(t[o := key])
  {
    var p := AllocateSpec(t, h, key).1.value;
    FirstFreeUnique(t, HashToOctet(h, key), o, p);
  }

  /** `Allocate` succeeds exactly when the key owns an octet or fewer than 253 are assigned; a new
      key gets the first free octet from its hash; the wrapped-around error never happens. */
  lemma AllocateMeaning(t: Table, h: Hash, key: string)
    requires ValidTable(t)
    ensures var (t', r) := AllocateSpec(t, h, key);
      && ValidTable(t')
      && (r.Ok? <==> key in t.Values || |t| < RANGE_SIZE)
      && (r.Err? ==> r.error == RangeExhausted && t' == t)
      && (r.Ok? ==> InRange(r.value) && r.value in t' && t'[r.value] == key && t'.Values == t.Values + {key})
      && (r.Ok? && key in t.Values ==> t' == t)
      && (r.Ok? && key !in t.Values ==> IsFirstFree(t, HashToOctet(h, key), r.value) && t' == t[r.value := key])
  {
    if key !in t.Values && |t| < RANGE_SIZE {
      var o := FirstFreeFrom(t, HashToOctet(h, key));
      AllocatesFirstFree(t, h, key, o);
      ValuesGrow(t, o, key);
    }
  }

  lemma ValuesGrow(t: Table, o: Byte, key: string)
    requires o !in t
    ensures t[o := key].Values == t.Values + {key}
  {
    forall k | k in t.Values
      ensures k in t[o := key].Values
    {
      assert t[o := key][OctetOf(t, k)] == k;
    }
    assert t[o := key][o] == key;
  }

  /** The allocator object. The mutex is left out: each method is one critical section. */
  class Allocator {
    const hash: Hash
    var owners: Table

    constructor (hash: Hash)
      ensures owners == map[] && this.hash == hash
    {
      this.hash := hash;
      owners := map[];
    }

    ghost predicate Valid()
      reads this
    {
      ValidTable(owners)
    }

    /** The first loop of `Allocate` and the loop of `Release`: the map is visited in any order. */
    method FindOwned(key: string) returns (found: Option<Byte>)
      requires Valid()
      ensures found.None? ==> key !in owners.Values
      ensures found.Some? ==> found.value in owners && owners[found.value] == key
    {
      var rest := owners.Keys;
      while rest != {}
        invariant rest <= owners.Keys
        invariant forall o :: o in owners.Keys - rest ==> owners[o] != key
      {
        var octet :| octet in rest;
        if owners[octet] == key {
          return Some(octet);
        }
        rest := rest - {octet};
      }
      found := None;
    }

    method Allocate(key: string) returns (r: AllocResult)
      requires Valid()
      modifies this
      ensures Valid()
      ensures (owners, r) == AllocateSpec(old(owners), hash, key)
    {
      var owned := FindOwned(key);
      if owned.Some? {
        return Ok(owned.value);
      }
      if |owners| >= RANGE_SIZE {
        return Err(RangeExhausted);
      }
      var start := HashToOctet(hash, key);
      var octet := start;
      ghost var free := FirstFreeFrom(owners, start);
      while true
        invariant InRange(octet) && owners == old(owners)
        invariant TakenBefore(owners, start, octet)
        decreases Dist(octet, free)
      {
        if octet !in owners {
          AllocatesFirstFree(owners, hash, key, octet);
          owners := owners[octet := key];
          return Ok(octet);
        }
        TakenBeforeNext(owners, start, octet);
        octet := NextOctet(octet);
        if octet == start {
          return Err(ProbeWrapped);
        }
      }
    }

    method Release(key: string)
      requires Valid()
      modifies this
      ensures Valid()
      ensures owners == ReleaseSpec(old(owners), key)
    {
      var owned := FindOwned(key);
      if owned.Some? {
        owners := owners - {owned.value};
      }
      assert owners == ReleaseSpec(old(owners), key);
    }
  }

  // ----- Histories -----

  datatype Op = Alloc(key: string) | Free(key: string)

  ghost function Apply(t: Table, h: Hash, op: Op): Table {
    match op
    case Alloc(key) => AllocateSpec(t, h, key).0
    case Free(key) => ReleaseSpec(t, key)
  }

  ghost function RunOps(t: Table, h: Hash, ops: seq<Op>): Table {
    if ops == [] then t else Apply(RunOps(t, h, ops[..|ops| - 1]), h, ops[|ops| - 1])
  }

  /** Allocates the listed keys one after the other on a fresh allocator. */
  ghost function LoadAll(h: Hash, keys: seq<string>): Table {
    RunOps(map[], h, seq(|keys|, i requires 0 <= i < |keys| => Alloc(keys[i])))
  }

  ghost predicate OnlyKeys(ops: seq<Op>, keys: set<string>) {
    forall op :: op in ops ==> op.key in keys
  }

  lemma ReleaseMeaning(t: Table, key: string)
    requires ValidTable(t)
    ensures var t' := ReleaseSpec(t, key);
      && ValidTable(t') && t'.Keys <= t.Keys && t'.Values == t.Values - {key}
      && forall k :: k in t'.Values ==> OctetOf(t', k) == OctetOf(t, k)
  {
    var t' := ReleaseSpec(t, key);
    forall k | k in t.Values - {key}
      ensures k in t'.Values
    {
      assert t'[OctetOf(t, k)] == k;
    }
  }

  lemma {:induction false} RunOpsValid(t: Table, h: Hash, ops: seq<Op>, keys: set<string>)
    requires ValidTable(t) && t.Values <= keys && OnlyKeys(ops, keys)
    ensures ValidTable(RunOps(t, h, ops)) && RunOps(t, h, ops).Values <= keys
  {
    if ops != [] {
      var before := ops[..|ops| - 1];
      var op := ops[|ops| - 1];
      RunOpsValid(t, h, before, keys);
      var t1 := RunOps(t, h, before);
      assert op in ops;
      match op {
        case Alloc(key) => AllocateMeaning(t1, h, key);
        case Free(key) => ReleaseMeaning(t1, key);
      }
    }
  }

  // ----- Counting probes that pass an octet -----

  /** The probe that placed `key` passed over octet `j`. */
  ghost predicate Passed(t: Table, h: Hash, key: string, j: Byte)
    requires key in t.Values
  {
    Dist(HashToOctet(h, key), j) < Dist(HashToOctet(h, key), OctetOf(t, key))
  }

  ghost function Passers(t: Table, h: Hash, j: Byte): set<string> {
    set key | key in t.Values && Passed(t, h, key, j)
  }

  ghost function Starters(t: Table, h: Hash, j: Byte): set<string> {
    set key | key in t.Values && HashToOctet(h, key) == j
  }

  ghost function Load(t: Table, j: Byte): nat {
    if j in t then 1 else 0
  }

  function PrevOctet(o: Byte): Byte
    requires InRange(o)
  {
    if o == MIN_OCTET then MAX_OCTET else o - 1
  }

  /** The keys that own octet j: one or none. */
  ghost function Owners(t: Table, j: Byte): set<string> {
    set key | key in t.Values && OctetOf(t, key) == j
  }

  lemma OwnerOfOctet(t: Table, j: Byte)
    requires ValidTable(t)
    ensures |Owners(t, j)| == Load(t, j)
  {
    assert Owners(t, j) == if j in t then {t[j]} else {};
  }

  /** A key that probes octet j stays there or passes on; and it starts there or passed the octet before it. */
  lemma ProbesOf(t: Table, h: Hash, j: Byte, key: string)
    requires ValidTable(t) && InRange(j) && key in t.Values
    ensures key in Passers(t, h, j) + Owners(t, j) <==> key in Starters(t, h, j) + Passers(t, h, PrevOctet(j))
    ensures !(key in Passers(t, h, j) && key in Owners(t, j))
    ensures !(key in Starters(t, h, j) && key in Passers(t, h, PrevOctet(j)))
  {
  }

  lemma SameUnion<T>(a: set<T>, b: set<T>, c: set<T>, d: set<T>)
    requires a + b == c + d && a !! b && c !! d
    ensures |a| + |b| == |c| + |d|
  {
  }

  /** Whoever probes octet j starts there or passed the octet before it; and either stays or passes on. */
  lemma PasserBalance(t: Table, h: Hash, j: Byte)
    requires ValidTable(t) && InRange(j)
    ensures |Passers(t, h, j)| + Load(t, j) == |Starters(t, h, j)| + |Passers(t, h, PrevOctet(j))|
  {
    OwnerOfOctet(t, j);
    forall key | key in t.Values
      ensures key in Passers(t, h, j) + Owners(t, j) <==> key in Starters(t, h, j) + Passers(t, h, PrevOctet(j))
      ensures !(key in Passers(t, h, j) && key in Owners(t, j))
      ensures !(key in Starters(t, h, j) && key in Passers(t, h, PrevOctet(j)))
    {
      ProbesOf(t, h, j, key);
    }
    SameUnion(Passers(t, h, j), Owners(t, j), Starters(t, h, j), Passers(t, h, PrevOctet(j)));
  }

  /** No probe in the table passed over a free octet: what loading without releasing gives. */
  ghost predicate NoHoles(t: Table, h: Hash) {
    forall key, j: Byte :: key in t.Values && InRange(j) && Passed(t, h, key, j) ==> j in t
  }

  lemma AllocateKeepsOctets(t: Table, h: Hash, key: string)
    requires ValidTable(t)
    ensures var t' := AllocateSpec(t, h, key).0;
      forall k :: k in t.Values ==> k in t'.Values && OctetOf(t', k) == OctetOf(t, k)
  {
    AllocateMeaning(t, h, key);
    var t' := AllocateSpec(t, h, key).0;
    forall k | k in t.Values
      ensures k in t'.Values && OctetOf(t', k) == OctetOf(t, k)
    {
      var o := OctetOf(t, k);
      assert o in t' && t'[o] == k;
    }
  }

  lemma AllocateKeepsNoHoles(t: Table, h: Hash, key: string)
    requires ValidTable(t) && NoHoles(t, h)
    ensures NoHoles(AllocateSpec(t, h, key).0, h)
  {
    AllocateMeaning(t, h, key);
    AllocateKeepsOctets(t, h, key);
    var t' := AllocateSpec(t, h, key).0;
    forall k, j: Byte | k in t'.Values && InRange(j) && Passed(t', h, k, j)
      ensures j in t'
    {
      if k in t.Values {
        assert Passed(t, h, k, j);
      } else {
        assert k == key;
      }
    }
  }

  /** A table that holds every key of `keys`, with no holes: what `setup` computes. */
  ghost predicate FullyLoaded(t: Table, h: Hash, keys: set<string>) {
    ValidTable(t) && NoHoles(t, h) && t.Values == keys
  }

  lemma ValuesSize(t: Table)
    requires ValidTable(t)
    ensures |t.Values| == |t|
    decreases |t|
  {
    if t.Keys != {} {
      var o :| o in t;
      var t' := ReleaseSpec(t, t[o]);
      ReleaseMeaning(t, t[o]);
      assert t'.Keys == t.Keys - {o};
      assert |t'.Keys| == |t'| && |t.Keys| == |t|;
      ValuesSize(t');
    } else {
      assert t.Values == {};
    }
  }

  /** Loading every key of a set of at most 253, in any order and with repetitions, succeeds. */
  lemma {:induction false} LoadAllFull(h: Hash, keys: seq<string>)
    requires |(set k | k in keys)| <= RANGE_SIZE
    ensures FullyLoaded(LoadAll(h, keys), h, set k | k in keys)
    decreases |keys|
  {
    if keys == [] {
      assert (set k | k in keys) == {};
    } else {
      var (init, last) := (keys[..|keys| - 1], keys[|keys| - 1]);
      var initSet, all := set k | k in init, set k | k in keys;
      assert keys == init + [last];
      assert all == initSet + {last};
      SubsetSize(initSet, all);
      LoadAllFull(h, init);
      var t := LoadAll(h, init);
      LoadAllStep(h, keys);
      AllocateMeaning(t, h, last);
      AllocateKeepsNoHoles(t, h, last);
      ValuesSize(t);
      if last !in initSet {
        assert |all| == |initSet| + 1;
      }
    }
  }

  lemma LoadAllStep(h: Hash, keys: seq<string>)
    requires keys != []
    ensures LoadAll(h, keys) == AllocateSpec(LoadAll(h, keys[..|keys| - 1]), h, keys[|keys| - 1]).0
  {
    var ops := seq(|keys|, i requires 0 <= i < |keys| => Alloc(keys[i]));
    var init := keys[..|keys| - 1];
    assert ops[..|ops| - 1] == seq(|init|, i requires 0 <= i < |init| => Alloc(init[i]));
  }

  // ----- The daemon stays inside the octets that setup loaded -----

  /** Every octet in use in `t` is in use in `full`, and no octet was passed by more probes. */
  ghost predicate Dominated(t: Table, full: Table, h: Hash) {
    && t.Keys <= full.Keys
    && forall j: Byte :: InRange(j) ==> |Passers(t, h, j)| <= |Passers(full, h, j)|
  }

  /** In a table without holes, an octet that somebody probed is taken. */
  lemma NoHolesTaken(full: Table, h: Hash, j: Byte)
    requires ValidTable(full) && NoHoles(full, h) && InRange(j)
    ensures j in full <==> Starters(full, h, j) != {} || Passers(full, h, PrevOctet(j)) != {}
  {
    PasserBalance(full, h, j);
    if Passers(full, h, j) != {} {
      var key :| key in Passers(full, h, j);
      assert j in full;
    }
  }

  /** One step along the ring of the induction that bounds the passers. */
  lemma PassersStep(t: Table, full: Table, h: Hash, j: Byte)
    requires ValidTable(t) && ValidTable(full) && NoHoles(full, h) && t.Values <= full.Values && InRange(j)
    requires |Passers(t, h, PrevOctet(j))| <= |Passers(full, h, PrevOctet(j))|
    requires j in t || |Passers(t, h, j)| <= |Passers(full, h, j)|
    ensures |Passers(t, h, j)| <= |Passers(full, h, j)|
    ensures j in t ==> j in full
  {
    PasserBalance(t, h, j);
    PasserBalance(full, h, j);
    NoHolesTaken(full, h, j);
    SubsetSize(Starters(t, h, j), Starters(full, h, j));
  }

  function Around(e: Byte, n: nat): Byte
    requires InRange(e) && n < RANGE_SIZE
  {
    if e + n <= MAX_OCTET then e + n else e + n - RANGE_SIZE
  }

  /** The induction along the ring, from an octet `e` that the full table leaves free: it is enough
      to bound the passers of `e` and of the octets that are free in `t`. */
  lemma {:induction false} DominatedAlongRing(t: Table, full: Table, h: Hash, e: Byte, n: nat)
    requires ValidTable(t) && ValidTable(full) && NoHoles(full, h) && t.Values <= full.Values
    requires InRange(e) && |Passers(t, h, e)| <= |Passers(full, h, e)| && n < RANGE_SIZE
    requires forall j: Byte :: InRange(j) ==> j in t || |Passers(t, h, j)| <= |Passers(full, h, j)|
    ensures |Passers(t, h, Around(e, n))| <= |Passers(full, h, Around(e, n))|
    ensures n > 0 ==> (Around(e, n) in t ==> Around(e, n) in full)
  {
    if n > 0 {
      DominatedAlongRing(t, full, h, e, n - 1);
      assert PrevOctet(Around(e, n)) == Around(e, n - 1);
      PassersStep(t, full, h, Around(e, n));
    }
  }

  /** The probe of a new key passes only octets that are taken. */
  lemma NewPassers(t: Table, h: Hash, key: string, j: Byte)
    requires ValidTable(t) && InRange(j) && j !in t
    ensures Passers(AllocateSpec(t, h, key).0, h, j) == Passers(t, h, j)
  {
    AllocateMeaning(t, h, key);
    AllocateKeepsOctets(t, h, key);
    var t' := AllocateSpec(t, h, key).0;
    forall k | k in t'.Values && k !in t.Values
      ensures !Passed(t', h, k, j)
    {
      assert k == key;
    }
  }

  /** Nobody ever reaches an octet that the full table leaves free. */
  lemma FreeStaysFree(t: Table, full: Table, h: Hash, e: Byte)
    requires ValidTable(t) && ValidTable(full) && NoHoles(full, h) && t.Values <= full.Values
    requires InRange(e) && e !in full
    requires |Passers(t, h, PrevOctet(e))| <= |Passers(full, h, PrevOctet(e))|
    ensures e !in t
  {
    NoHolesTaken(full, h, e);
    PasserBalance(t, h, e);
    SubsetSize(Starters(t, h, e), Starters(full, h, e));
  }

  lemma {:induction false} AllocateKeepsDominated(t: Table, full: Table, h: Hash, key: string, e: Byte)
    requires ValidTable(t) && ValidTable(full) && NoHoles(full, h)
    requires t.Values <= full.Values && key in full.Values && Dominated(t, full, h)
    requires InRange(e) && e !in full
    ensures Dominated(AllocateSpec(t, h, key).0, full, h)
  {
    AllocateMeaning(t, h, key);
    var t' := AllocateSpec(t, h, key).0;
    forall j: Byte | InRange(j) && j !in t
      ensures |Passers(t', h, j)| <= |Passers(full, h, j)|
    {
      NewPassers(t, h, key, j);
    }
    RingDominates(t', full, h, e);
  }

  lemma RingDominates(t: Table, full: Table, h: Hash, e: Byte)
    requires ValidTable(t) && ValidTable(full) && NoHoles(full, h) && t.Values <= full.Values
    requires InRange(e) && e !in full && |Passers(t, h, e)| <= |Passers(full, h, e)|
    requires forall j: Byte :: InRange(j) ==> j in t || |Passers(t, h, j)| <= |Passers(full, h, j)|
    ensures Dominated(t, full, h)
  {
    forall j: Byte | InRange(j)
      ensures |Passers(t, h, j)| <= |Passers(full, h, j)|
      ensures j != e && j in t ==> j in full
    {
      assert j == Around(e, Dist(e, j));
      DominatedAlongRing(t, full, h, e, Dist(e, j));
    }
    FreeStaysFree(t, full, h, e);
  }

  lemma ReleaseKeepsDominated(t: Table, full: Table, h: Hash, key: string)
    requires ValidTable(t) && Dominated(t, full, h)
    ensures Dominated(ReleaseSpec(t, key), full, h)
  {
    ReleaseMeaning(t, key);
    forall j: Byte | InRange(j)
      ensures |Passers(ReleaseSpec(t, key), h, j)| <= |Passers(full, h, j)|
    {
      SubsetSize(Passers(ReleaseSpec(t, key), h, j), Passers(t, h, j));
    }
  }

  lemma {:induction false} HistoryDominated(full: Table, h: Hash, ops: seq<Op>, e: Byte)
    requires ValidTable(full) && NoHoles(full, h) && OnlyKeys(ops, full.Values)
    requires InRange(e) && e !in full
    ensures Dominated(RunOps(map[], h, ops), full, h)
  {
    if ops == [] {
      assert forall j: Byte :: Passers(map[], h, j) == {};
    } else {
      var before := ops[..|ops| - 1];
      var op := ops[|ops| - 1];
      RunOpsValid(map[], h, before, full.Values);
      HistoryDominated(full, h, before, e);
      assert op in ops;
      match op {
        case Alloc(key) => AllocateKeepsDominated(RunOps(map[], h, before), full, h, key, e);
        case Free(key) => ReleaseKeepsDominated(RunOps(map[], h, before), full, h, key);
      }
    }
  }

  /** Every octet in use after any history of allocations and releases on some keys is in use in
      any table that loaded all those keys. */
  lemma {:induction false} HistoryStaysInside(full: Table, h: Hash, keys: set<string>, ops: seq<Op>)
    requires FullyLoaded(full, h, keys) && OnlyKeys(ops, keys)
    ensures RunOps(map[], h, ops).Keys <= full.Keys
  {
    RunOpsValid(map[], h, ops, keys);
    TableSize(full);
    if e: Byte :| InRange(e) && e !in full {
      HistoryDominated(full, h, ops, e);
    }
  }

  /** The set of octets that loading a set of keys takes does not depend on the order. */
  lemma LoadOrderIrrelevant(h: Hash, ks: seq<string>, ls: seq<string>)
    requires (set k | k in ks) == (set k | k in ls) && |(set k | k in ks)| <= RANGE_SIZE
    ensures LoadAll(h, ks).Keys == LoadAll(h, ls).Keys
  {
    LoadAllFull(h, ks);
    LoadAllFull(h, ls);
    HistoryStaysInside(LoadAll(h, ls), h, set k | k in ls, seq(|ks|, i requires 0 <= i < |ks| => Alloc(ks[i])));
    HistoryStaysInside(LoadAll(h, ks), h, set k | k in ks, seq(|ls|, i requires 0 <= i < |ls| => Alloc(ls[i])));
  }

  /** The daemon after any history on configured keys: allocating one more configured key always
      succeeds, and the address is one that `setup` loaded, whatever order `setup` used. */
  lemma {:induction false} DaemonStaysInsideSetup(h: Hash, configured: seq<string>, keys: set<string>, ops: seq<Op>,
                                                  key: string)
    requires keys == (set k | k in configured) && |keys| <= RANGE_SIZE
    requires OnlyKeys(ops, keys) && key in keys
    ensures var t := RunOps(map[], h, ops);
      var r := AllocateSpec(t, h, key).1;
      r.Ok? && r.value in LoadAll(h, configured)
  {
    var t := RunOps(map[], h, ops);
    LoadAllFull(h, configured);
    RunOpsValid(map[], h, ops, keys);
    AllocateMeaning(t, h, key);
    if key !in t.Values {
      ValuesSize(t);
      SubsetSize(t.Values + {key}, keys);
    }
    var more := ops + [Alloc(key)];
    assert more[..|more| - 1] == ops;
    HistoryStaysInside(LoadAll(h, configured), h, keys, more);
  }
}
