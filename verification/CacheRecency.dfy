/** The cache list is ordered by last touch and holds what was last inserted: recency and expiry told from the run. */
module CacheRecency {
  import opened Common
  import opened ModuleCache
  import opened CacheRuns

  // --- Lists ordered by a stamp -------------------------------------------------------------

  type Stamp = string -> nat

  ghost predicate OrderedBy(lru: Lru, stamp: Stamp)
  {
    forall i, j | 0 <= i < j < |lru| :: stamp(lru[i].key) < stamp(lru[j].key)
  }

  lemma OrderedPop(lru: Lru, key: string, stamp: Stamp)
    requires OrderedBy(lru, stamp)
    ensures OrderedBy(Pop(lru, key), stamp)
  {
  }

  ghost predicate Below(lru: Lru, stamp: Stamp, bound: nat)
  {
    forall i | 0 <= i < |lru| :: stamp(lru[i].key) < bound
  }

  /** Stamping one key afresh keeps a list that does not hold it in order, with or without that key pushed last. */
  lemma OrderedRestamp(lru: Lru, stamp: Stamp, stamp': Stamp, e: Entry)
    requires OrderedBy(lru, stamp) && Below(lru, stamp, stamp'(e.key)) && !Has(lru, e.key)
    requires forall k | k != e.key :: stamp'(k) == stamp(k)
    ensures OrderedBy(lru, stamp') && OrderedBy(lru + [e], stamp')
  {
  }

  // --- Last touches -------------------------------------------------------------------------

  /** A lookup (even one that finds the entry expired) or an insert touches its key. */
  predicate Touches(w: World, e: Event, key: string)
  {
    || ((e.Looked? || e.Began?) && e.key == key)
    || (e.Finished? && e.id in w.calls && w.calls[e.id].key == key)
  }

  function Length(r: CacheRun): nat
  {
    if r.Start? then 0 else Length(r.before) + 1
  }

  /** The position in the run of the event that last touched `key`. */
  function LastTouch(maxSize: nat, ttl: nat, r: CacheRun, key: string): nat
  {
    if r.Start? then 0
    else if Touches(At(maxSize, ttl, r.before), r.event, key) then Length(r)
    else LastTouch(maxSize, ttl, r.before, key)
  }

  lemma {:induction false} TouchedByNow(maxSize: nat, ttl: nat, r: CacheRun, key: string)
    ensures LastTouch(maxSize, ttl, r, key) <= Length(r)
  {
    if r.Then? { TouchedByNow(maxSize, ttl, r.before, key); }
  }

  ghost function TouchStamp(maxSize: nat, ttl: nat, r: CacheRun): Stamp
  {
    (k: string) => LastTouch(maxSize, ttl, r, k)
  }

  /** One event's effect on the order: at most one key is restamped, to the latest position, and goes last or away. */
  lemma StepOrdered(w: World, e: Event, stamp: Stamp, stamp': Stamp, now: nat)
    requires Valid(w.cache) && Enabled(w, e) && OrderedBy(w.cache.lru, stamp) && Below(w.cache.lru, stamp, now)
    requires forall k :: stamp'(k) == if Touches(w, e, k) then now else stamp(k)
    ensures OrderedBy(Next(w, e).cache.lru, stamp')
  {
    var lru := w.cache.lru;
    match e {
      case Looked(k) => LookupOrdered(w.cache, k, w.clock, stamp, stamp', now);
      case Began(_, k, _) => LookupOrdered(w.cache, k, w.clock, stamp, stamp', now);
      case Finished(id, m) => InsertOrdered(w.cache, w.calls[id].key, m, |w.calls[id].bytes|, w.clock, stamp, stamp', now);
      case Invalidated(k) => OrderedPop(lru, k, stamp);
      case _ =>
    }
  }

  lemma PopBelow(lru: Lru, key: string, stamp: Stamp, bound: nat)
    requires UniqueKeys(lru) && Below(lru, stamp, bound)
    ensures Below(Pop(lru, key), stamp, bound)
  {
  }

  lemma LookupOrdered(c: Cache, key: string, clock: nat, stamp: Stamp, stamp': Stamp, now: nat)
    requires Valid(c) && OrderedBy(c.lru, stamp) && Below(c.lru, stamp, now)
    requires forall k :: stamp'(k) == if k == key then now else stamp(k)
    ensures OrderedBy(AfterLookup(c, key, clock).lru, stamp')
  {
    OrderedPop(c.lru, key, stamp);
    PopExact(c.lru, key);
    PopBelow(c.lru, key, stamp, now);
    if Has(c.lru, key) {
      var e := Find(c.lru, key);
      OrderedRestamp(Pop(c.lru, key), stamp, stamp', e.(hitCount := e.hitCount + 1));
    } else {
      OrderedRestamp(c.lru, stamp, stamp', Entry(key, Module([]), 0, 0, 0));
    }
  }

  lemma InsertOrdered(c: Cache, key: string, m: Module, size: nat, clock: nat, stamp: Stamp, stamp': Stamp, now: nat)
    requires Valid(c) && OrderedBy(c.lru, stamp) && Below(c.lru, stamp, now)
    requires forall k :: stamp'(k) == if k == key then now else stamp(k)
    ensures OrderedBy(AfterInsert(c, key, m, size, clock).lru, stamp')
  {
  }

  /** In every run the list is in order of last touch. */
  lemma {:induction false} ListIsRecencyOrder(maxSize: nat, ttl: nat, r: CacheRun)
    requires Possible(maxSize, ttl, r)
    ensures OrderedBy(At(maxSize, ttl, r).cache.lru, TouchStamp(maxSize, ttl, r))
  {
    if r.Then? {
      ListIsRecencyOrder(maxSize, ttl, r.before);
      BoundedAndUnique(maxSize, ttl, r.before);
      forall k
        ensures LastTouch(maxSize, ttl, r.before, k) < Length(r)
      {
        TouchedByNow(maxSize, ttl, r.before, k);
      }
      StepOrdered(At(maxSize, ttl, r.before), r.event,
        TouchStamp(maxSize, ttl, r.before), TouchStamp(maxSize, ttl, r), Length(r));
    }
  }

  // --- Evictions ----------------------------------------------------------------------------

  /** `key` is cached and was touched longer ago than every other cached key. */
  ghost predicate LeastRecentlyTouched(maxSize: nat, ttl: nat, r: CacheRun, key: string)
  {
    var lru := At(maxSize, ttl, r).cache.lru;
    && Has(lru, key)
    && forall k | Has(lru, k) && k != key :: LastTouch(maxSize, ttl, r, key) < LastTouch(maxSize, ttl, r, k)
  }

  lemma HasIndex(lru: Lru, i: nat)
    requires i < |lru|
    ensures Has(lru, lru[i].key)
  {
  }

  lemma HeadIsOldest(maxSize: nat, ttl: nat, r: CacheRun)
    requires Possible(maxSize, ttl, r) && At(maxSize, ttl, r).cache.lru != []
    ensures LeastRecentlyTouched(maxSize, ttl, r, At(maxSize, ttl, r).cache.lru[0].key)
  {
    ListIsRecencyOrder(maxSize, ttl, r);
    var lru := At(maxSize, ttl, r).cache.lru;
    HasIndex(lru, 0);
    forall k | Has(lru, k) && k != lru[0].key
      ensures LastTouch(maxSize, ttl, r, lru[0].key) < LastTouch(maxSize, ttl, r, k)
    {
      var j := IndexOf(lru, k);
      assert TouchStamp(maxSize, ttl, r)(lru[0].key) < TouchStamp(maxSize, ttl, r)(lru[j].key);
    }
  }

  lemma HasIffMember(lru: Lru, key: string)
    ensures Has(lru, key) <==> exists e :: e in lru && e.key == key
  {
  }

  lemma LookupLoses(c: Cache, key: string, now: nat, k: string)
    requires Valid(c) && Has(c.lru, k)
    ensures Has(AfterLookup(c, key, now).lru, k) <==> !(k == key && Lookup(c, key, now).Expired?)
  {
    PopExact(c.lru, key);
    HasIffMember(c.lru, k);
    HasIffMember(Pop(c.lru, key), k);
    HasIffMember(AfterLookup(c, key, now).lru, k);
  }

  lemma InsertLoses(c: Cache, key: string, m: Module, size: nat, now: nat, k: string)
    requires Valid(c) && Has(c.lru, k)
    ensures Has(AfterInsert(c, key, m, size, now).lru, k) <==> !(AtCap(c) && !Has(c.lru, key) && k == c.lru[0].key)
  {
    PopExact(c.lru, key);
    HasIffMember(c.lru, k);
    HasIffMember(Pop(c.lru, key), k);
    HasIffMember(AfterInsert(c, key, m, size, now).lru, k);
    if AtCap(c) && !Has(c.lru, key) {
      assert c.lru == [c.lru[0]] + c.lru[1..];
      assert forall i | 1 <= i < |c.lru| :: c.lru[i].key != c.lru[0].key;
    }
  }

  /** A key leaves the cache in exactly three ways: its own expired lookup, its invalidation, or an insert of an absent
      key into a full cache when it is the least recently touched of all. */
  lemma {:induction false} WhatLeaves(maxSize: nat, ttl: nat, r: CacheRun, e: Event, k: string)
    requires Possible(maxSize, ttl, Then(r, e)) && Has(At(maxSize, ttl, r).cache.lru, k)
    ensures var w := At(maxSize, ttl, r);
      !Has(At(maxSize, ttl, Then(r, e)).cache.lru, k) <==>
        || ((e.Looked? || e.Began?) && e.key == k && Lookup(w.cache, k, w.clock).Expired?)
        || e == Invalidated(k)
        || (e.Finished? && AtCap(w.cache) && !Has(w.cache.lru, w.calls[e.id].key) && LeastRecentlyTouched(maxSize, ttl, r, k))
  {
    var w := At(maxSize, ttl, r);
    BoundedAndUnique(maxSize, ttl, r);
    match e {
      case Looked(key) => LookupLoses(w.cache, key, w.clock, k);
      case Began(_, key, _) => LookupLoses(w.cache, key, w.clock, k);
      case Invalidated(key) =>
        PopExact(w.cache.lru, key);
        HasIffMember(w.cache.lru, k);
        HasIffMember(Pop(w.cache.lru, key), k);
      case Finished(id, m) =>
        InsertLoses(w.cache, w.calls[id].key, m, |w.calls[id].bytes|, w.clock, k);
        HeadIsOldest(maxSize, ttl, r);
      case _ =>
    }
  }

  // --- Expiry -------------------------------------------------------------------------------

  datatype Insert = Insert(at: nat, compiled: Module, size: nat)

  /** The latest insert of `key` in the run. */
  function Inserted(maxSize: nat, ttl: nat, r: CacheRun, key: string): Option<Insert>
  {
    if r.Start? then None
    else
      var w, e := At(maxSize, ttl, r.before), r.event;
      if e.Finished? && e.id in w.calls && w.calls[e.id].key == key then Some(Insert(w.clock, e.compiled, |w.calls[e.id].bytes|))
      else Inserted(maxSize, ttl, r.before, key)
  }

  /** The event is a lookup of `key` that hits. */
  predicate Hits(w: World, e: Event, key: string)
  {
    (e.Looked? || e.Began?) && e.key == key && Lookup(w.cache, key, w.clock).Hit?
  }

  /** Hits on `key` since its latest insert. */
  function HitsSinceInsert(maxSize: nat, ttl: nat, r: CacheRun, key: string): nat
  {
    if r.Start? then 0
    else
      var w, e := At(maxSize, ttl, r.before), r.event;
      if e.Finished? && e.id in w.calls && w.calls[e.id].key == key then 0
      else HitsSinceInsert(maxSize, ttl, r.before, key) + Bit(Hits(w, e, key))
  }

  /** Every cached entry is its key's latest insert, whatever touched it since, and counts the hits since then. */
  lemma {:induction false} EntriesAreInserts(maxSize: nat, ttl: nat, r: CacheRun, entry: Entry)
    requires Possible(maxSize, ttl, r) && entry in At(maxSize, ttl, r).cache.lru
    ensures Inserted(maxSize, ttl, r, entry.key) == Some(Insert(entry.cachedAt, entry.compiled, entry.wasmBytes))
    ensures entry.cachedAt <= At(maxSize, ttl, r).clock
    ensures entry.hitCount == HitsSinceInsert(maxSize, ttl, r, entry.key)
  {
    if r.Then? {
      var w, e := At(maxSize, ttl, r.before), r.event;
      BoundedAndUnique(maxSize, ttl, r.before);
      var old' := EntryOrigin(w, e, entry);
      if old'.Some? { EntriesAreInserts(maxSize, ttl, r.before, old'.value); }
    }
  }

  /** An entry after an event is the one just inserted, or an earlier entry of its key, a hit counted. */
  lemma EntryOrigin(w: World, e: Event, entry: Entry) returns (before: Option<Entry>)
    requires Valid(w.cache) && Enabled(w, e) && entry in Next(w, e).cache.lru
    ensures match before
      case None => e.Finished? && entry == Entry(w.calls[e.id].key, e.compiled, w.clock, 0, |w.calls[e.id].bytes|)
      case Some(b) =>
        && b in w.cache.lru && entry == b.(hitCount := b.hitCount + Bit(Hits(w, e, b.key)))
        && !(e.Finished? && w.calls[e.id].key == b.key)
  {
    var c := w.cache;
    match e {
      case Looked(k) => before := LookupOrigin(c, k, w.clock, entry);
      case Began(_, k, _) => before := LookupOrigin(c, k, w.clock, entry);
      case Invalidated(k) =>
        PopExact(c.lru, k);
        before := Some(entry);
      case Finished(id, m) =>
        var k := w.calls[id].key;
        PopExact(c.lru, k);
        HasIffMember(c.lru, k);
        before := if entry.key == k then None else Some(entry);
      case _ => before := Some(entry);
    }
  }

  lemma LookupOrigin(c: Cache, key: string, now: nat, entry: Entry) returns (before: Option<Entry>)
    requires Valid(c) && entry in AfterLookup(c, key, now).lru
    ensures before.Some? && before.value in c.lru
    ensures entry == before.value.(
      hitCount := before.value.hitCount + Bit(before.value.key == key && Lookup(c, key, now).Hit?))
  {
    PopExact(c.lru, key);
    before := Some(if entry.key == key && Lookup(c, key, now).Hit? then Find(c.lru, key) else entry);
  }

  /** A hit returns the module of the latest insert, made less than `ttl` ago; a cached key is expired exactly when that
      insert is `ttl` old. Touching an entry does not count. */
  lemma {:induction false} LookupByAge(maxSize: nat, ttl: nat, r: CacheRun, key: string)
    requires Possible(maxSize, ttl, r) && Has(At(maxSize, ttl, r).cache.lru, key)
    ensures var w := At(maxSize, ttl, r);
      var last := Inserted(maxSize, ttl, r, key);
      && last.Some? && last.value.at <= w.clock
      && Lookup(w.cache, key, w.clock) == if w.clock - last.value.at < ttl then Hit(last.value.compiled) else Expired
  {
    var w := At(maxSize, ttl, r);
    BoundedAndUnique(maxSize, ttl, r);
    EntriesAreInserts(maxSize, ttl, r, Find(w.cache.lru, key));
  }
}
