/** The compiled-module cache: a bounded least-recently-used list with expiry, statistics and a byte total. */
module ModuleCache {
  import opened Common

  /** Compiled code. */
  datatype Module = Module(code: Bytes)

  datatype Entry = Entry(key: string, compiled: Module, cachedAt: nat, hitCount: nat, wasmBytes: nat)

  /** Entries from least to most recently used. */
  type Lru = seq<Entry>

  datatype Cache = Cache(
    cap: nat,
    ttl: nat,
    lru: Lru,
    hits: nat,
    misses: nat,
    evictions: nat,
    totalWasmBytes: nat)

  datatype LookupResult = Hit(compiled: Module) | Expired | Miss

  function Empty(maxSize: nat, ttl: nat): Cache
  {
    Cache(if maxSize > 1 then maxSize else 1, ttl, [], 0, 0, 0, 0)
  }

  // --- The list -----------------------------------------------------------------------------

  /** The position of `key`, or the length of the list. */
  function IndexOf(lru: Lru, key: string): (i: nat)
    ensures i <= |lru| && (i < |lru| ==> lru[i].key == key)
    ensures forall j | 0 <= j < i :: lru[j].key != key
  {
    if lru == [] || lru[0].key == key then 0 else 1 + IndexOf(lru[1..], key)
  }

  predicate Has(lru: Lru, key: string)
  {
    IndexOf(lru, key) < |lru|
  }

  function Find(lru: Lru, key: string): (e: Entry)
    requires Has(lru, key)
    ensures e in lru && e.key == key
  {
    lru[IndexOf(lru, key)]
  }

  function Pop(lru: Lru, key: string): Lru
  {
    var i := IndexOf(lru, key);
    if i < |lru| then lru[..i] + lru[i + 1..] else lru
  }

  ghost predicate UniqueKeys(lru: Lru)
  {
    forall i, j | 0 <= i < j < |lru| :: lru[i].key != lru[j].key
  }

  ghost predicate Valid(c: Cache)
  {
    c.cap >= 1 && |c.lru| <= c.cap && UniqueKeys(c.lru)
  }

  // --- The operations -----------------------------------------------------------------------

  predicate Fresh(c: Cache, e: Entry, now: nat)
  {
    SaturatingSub(now, e.cachedAt) < c.ttl
  }

  function Lookup(c: Cache, key: string, now: nat): LookupResult
  {
    if !Has(c.lru, key) then Miss
    else if Fresh(c, Find(c.lru, key), now) then Hit(Find(c.lru, key).compiled)
    else Expired
  }

  /** A lookup promotes a live entry and drops an expired one. */
  function AfterLookup(c: Cache, key: string, now: nat): Cache
  {
    match Lookup(c, key, now)
    case Miss => c
    case Hit(_) =>
      var e := Find(c.lru, key);
      c.(lru := Pop(c.lru, key) + [e.(hitCount := e.hitCount + 1)], hits := c.hits + 1)
    case Expired =>
      c.(lru := Pop(c.lru, key),
         totalWasmBytes := SaturatingSub(c.totalWasmBytes, Find(c.lru, key).wasmBytes),
         evictions := c.evictions + 1)
  }

  /** The first critical section of `get_or_compile`. */
  function AfterBegin(c: Cache, key: string, now: nat): Cache
  {
    var d := AfterLookup(c, key, now);
    if Lookup(c, key, now).Hit? then d else d.(misses := d.misses + 1)
  }

  predicate AtCap(c: Cache)
  {
    |c.lru| == c.cap
  }

  /** The second critical section of `get_or_compile`. */
  function AfterInsert(c: Cache, key: string, compiled: Module, size: nat, now: nat): Cache
  {
    var evictedBytes := if AtCap(c) && c.lru != [] then c.lru[0].wasmBytes else 0;
    c.(lru := Put(c, Entry(key, compiled, now, 0, size)),
       evictions := c.evictions + Bit(AtCap(c)),
       totalWasmBytes := SaturatingSub(c.totalWasmBytes, evictedBytes) + size)
  }

  /** `LruCache::put`: replace in place and promote, or push, dropping the least recent entry of a full list. */
  function Put(c: Cache, e: Entry): Lru
  {
    if Has(c.lru, e.key) then Pop(c.lru, e.key) + [e]
    else if AtCap(c) && c.lru != [] then c.lru[1..] + [e]
    else c.lru + [e]
  }

  function AfterInvalidate(c: Cache, key: string): Cache
  {
    c.(lru := Pop(c.lru, key))
  }

  class CompiledModuleCache {
    const cap: nat
    const ttl: nat
    var lru: Lru
    var hits: nat
    var misses: nat
    var evictions: nat
    var totalWasmBytes: nat

    function View(): Cache
      reads this
    {
      Cache(cap, ttl, lru, hits, misses, evictions, totalWasmBytes)
    }

    constructor (maxSize: nat, ttl: nat)
      ensures View() == Empty(maxSize, ttl) && Valid(View())
    {
      cap := if maxSize > 1 then maxSize else 1;
      this.ttl := ttl;
      lru, hits, misses, evictions, totalWasmBytes := [], 0, 0, 0, 0;
    }

    method GetCached(key: string, now: nat) returns (compiled: Option<Module>)
      modifies this
      ensures View() == AfterLookup(old(View()), key, now)
      ensures compiled == match Lookup(old(View()), key, now) case Hit(m) => Some(m) case _ => None
    {
      var i := IndexOf(lru, key);
      if i == |lru| {
        return None;
      }
      var entry := lru[i];
      lru := lru[..i] + lru[i + 1..];
      if SaturatingSub(now, entry.cachedAt) < ttl {
        lru := lru + [entry.(hitCount := entry.hitCount + 1)];
        hits := hits + 1;
        return Some(entry.compiled);
      }
      totalWasmBytes := SaturatingSub(totalWasmBytes, entry.wasmBytes);
      evictions := evictions + 1;
      return None;
    }

    /** Up to the point where the lock is dropped for compilation. */
    method BeginGetOrCompile(key: string, now: nat) returns (compiled: Option<Module>)
      modifies this
      ensures View() == AfterBegin(old(View()), key, now)
      ensures compiled == match Lookup(old(View()), key, now) case Hit(m) => Some(m) case _ => None
    {
      compiled := GetCached(key, now);
      if compiled.None? {
        misses := misses + 1;
      }
    }

    /** After compilation, under the lock again. */
    method FinishGetOrCompile(key: string, wasmBytes: Bytes, compiled: Module, now: nat)
      requires Valid(View())
      modifies this
      ensures View() == AfterInsert(old(View()), key, compiled, |wasmBytes|, now)
    {
      if |lru| == cap {
        totalWasmBytes := SaturatingSub(totalWasmBytes, lru[0].wasmBytes);
        evictions := evictions + 1;
      }
      var entry := Entry(key, compiled, now, 0, |wasmBytes|);
      var i := IndexOf(lru, key);
      if i < |lru| {
        lru := lru[..i] + lru[i + 1..] + [entry];
      } else {
        lru := (if |lru| == cap then lru[1..] else lru) + [entry];
      }
      totalWasmBytes := totalWasmBytes + |wasmBytes|;
    }

    method Invalidate(key: string)
      modifies this
      ensures View() == AfterInvalidate(old(View()), key)
    {
      lru := Pop(lru, key);
    }
  }

  // --- What the operations keep -------------------------------------------------------------

  /** Popping a present key drops exactly that entry and keeps the order of the others. */
  lemma {:induction false} PopExact(lru: Lru, key: string)
    requires UniqueKeys(lru)
    ensures UniqueKeys(Pop(lru, key)) && !Has(Pop(lru, key), key)
    ensures |Pop(lru, key)| == |lru| - Bit(Has(lru, key))
    ensures forall e :: e in Pop(lru, key) <==> e in lru && e.key != key
  {
    var i := IndexOf(lru, key);
    if i < |lru| {
      var popped := Pop(lru, key);
      assert forall j | 0 <= j < |popped| :: popped[j] == lru[if j < i then j else j + 1];
      forall e | e in lru && e.key != key
        ensures e in popped
      {
        var j :| 0 <= j < |lru| && lru[j] == e;
        assert popped[if j < i then j else j - 1] == e;
      }
    }
  }

  lemma PushUnique(lru: Lru, e: Entry)
    requires UniqueKeys(lru) && !Has(lru, e.key)
    ensures UniqueKeys(lru + [e])
  {
  }

  lemma LookupKeepsValid(c: Cache, key: string, now: nat)
    requires Valid(c)
    ensures Valid(AfterLookup(c, key, now)) && Valid(AfterBegin(c, key, now))
    ensures !Lookup(c, key, now).Hit? ==> !Has(AfterBegin(c, key, now).lru, key)
  {
    PopExact(c.lru, key);
    if Has(c.lru, key) {
      var e := Find(c.lru, key);
      PushUnique(Pop(c.lru, key), e.(hitCount := e.hitCount + 1));
    }
  }

  lemma InsertKeepsValid(c: Cache, key: string, compiled: Module, size: nat, now: nat)
    requires Valid(c)
    ensures Valid(AfterInsert(c, key, compiled, size, now))
  {
  }

  lemma InvalidateKeepsValid(c: Cache, key: string)
    requires Valid(c)
    ensures Valid(AfterInvalidate(c, key))
  {
  }

  /** A lookup moves an entry out of the list only into the eviction count. */
  lemma LookupCounts(c: Cache, key: string, now: nat)
    requires Valid(c)
    ensures var d := AfterLookup(c, key, now);
      |d.lru| + d.evictions == |c.lru| + c.evictions && d.misses == c.misses && d.hits == c.hits + Bit(Lookup(c, key, now).Hit?)
  {
  }

  // --- Bytes --------------------------------------------------------------------------------

  function Sum(lru: Lru): nat
  {
    if lru == [] then 0 else Sum(lru[..|lru| - 1]) + lru[|lru| - 1].wasmBytes
  }

  lemma {:induction false} SumConcat(a: Lru, b: Lru)
    ensures Sum(a + b) == Sum(a) + Sum(b)
  {
    if b == [] {
      assert a + b == a;
    } else {
      SumConcat(a, b[..|b| - 1]);
      assert (a + b)[..|a + b| - 1] == a + b[..|b| - 1];
    }
  }

  lemma SumOne(e: Entry)
    ensures Sum([e]) == e.wasmBytes
  {
  }

  lemma SumPush(lru: Lru, e: Entry)
    ensures Sum(lru + [e]) == Sum(lru) + e.wasmBytes
  {
  }

  /** The bytes an entry for `key` occupies, zero when there is none. */
  function BytesOf(lru: Lru, key: string): nat
  {
    if Has(lru, key) then Find(lru, key).wasmBytes else 0
  }

  lemma SumPop(lru: Lru, key: string)
    ensures Sum(Pop(lru, key)) == Sum(lru) - BytesOf(lru, key)
  {
    var i := IndexOf(lru, key);
    if i < |lru| {
      assert lru == lru[..i] + ([lru[i]] + lru[i + 1..]);
      SumConcat(lru[..i], [lru[i]] + lru[i + 1..]);
      SumConcat([lru[i]], lru[i + 1..]);
      SumOne(lru[i]);
      SumConcat(lru[..i], lru[i + 1..]);
    }
  }

  lemma SumTail(lru: Lru)
    requires lru != []
    ensures Sum(lru[1..]) == Sum(lru) - lru[0].wasmBytes
  {
    assert lru == [lru[0]] + lru[1..];
    SumConcat([lru[0]], lru[1..]);
    SumOne(lru[0]);
  }

  lemma LookupBytes(c: Cache, key: string, now: nat)
    ensures Sum(AfterLookup(c, key, now).lru) == Sum(c.lru) - if Lookup(c, key, now).Expired? then BytesOf(c.lru, key) else 0
  {
    SumPop(c.lru, key);
    if Lookup(c, key, now).Hit? {
      var e := Find(c.lru, key);
      SumPush(Pop(c.lru, key), e.(hitCount := e.hitCount + 1));
    }
  }

  lemma InsertBytes(c: Cache, key: string, compiled: Module, size: nat, now: nat)
    requires Valid(c)
    ensures Sum(AfterInsert(c, key, compiled, size, now).lru) == Sum(c.lru) + size -
      if Has(c.lru, key) then BytesOf(c.lru, key) else if AtCap(c) then c.lru[0].wasmBytes else 0
  {
    var e := Entry(key, compiled, now, 0, size);
    if Has(c.lru, key) {
      SumPop(c.lru, key);
      SumPush(Pop(c.lru, key), e);
    } else if AtCap(c) {
      SumTail(c.lru);
      SumPush(c.lru[1..], e);
    } else {
      SumPush(c.lru, e);
    }
  }
}
