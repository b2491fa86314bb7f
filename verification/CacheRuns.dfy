/** The cache under overlapping calls: `get_or_compile` lets go of its lock while it compiles. */
module CacheRuns {
  import opened Common
  import opened ModuleCache

  /** A compilation in flight. */
  datatype Call = Call(key: string, bytes: Bytes)

  datatype World = World(cache: Cache, clock: nat, calls: map<nat, Call>)

  datatype Event =
    | Tick(ms: nat)
    | Looked(key: string)
    | Began(id: nat, key: string, bytes: Bytes)
    | Failed(id: nat)
    | Finished(id: nat, compiled: Module)
    | Invalidated(key: string)

  type CacheRun = Run<Event>

  function Genesis(maxSize: nat, ttl: nat): World
  {
    World(Empty(maxSize, ttl), 0, map[])
  }

  predicate Enabled(w: World, e: Event)
  {
    match e
    case Began(id, _, _) => id !in w.calls
    case Failed(id) => id in w.calls
    case Finished(id, _) => id in w.calls
    case _ => true
  }

  function Next(w: World, e: Event): World
  {
    match e
    case Tick(ms) => w.(clock := w.clock + ms)
    case Looked(k) => w.(cache := AfterLookup(w.cache, k, w.clock))
    case Began(id, k, bytes) =>
      w.(cache := AfterBegin(w.cache, k, w.clock),
         calls := if Lookup(w.cache, k, w.clock).Hit? then w.calls else w.calls[id := Call(k, bytes)])
    case Failed(id) => w.(calls := w.calls - {id})
    case Finished(id, m) =>
      if id !in w.calls then w
      else
        var call := w.calls[id];
        w.(cache := AfterInsert(w.cache, call.key, m, |call.bytes|, w.clock), calls := w.calls - {id})
    case Invalidated(k) => w.(cache := AfterInvalidate(w.cache, k))
  }

  function At(maxSize: nat, ttl: nat, r: CacheRun): World
  {
    match r
    case Start => Genesis(maxSize, ttl)
    case Then(p, e) => Next(At(maxSize, ttl, p), e)
  }

  predicate Possible(maxSize: nat, ttl: nat, r: CacheRun)
  {
    r.Then? ==> Possible(maxSize, ttl, r.before) && Enabled(At(maxSize, ttl, r.before), r.event)
  }

  // --- Size and keys ------------------------------------------------------------------------

  lemma StepValid(w: World, e: Event)
    requires Valid(w.cache)
    ensures Valid(Next(w, e).cache)
    ensures Next(w, e).cache.cap == w.cache.cap && Next(w, e).cache.ttl == w.cache.ttl
  {
    match e {
      case Looked(k) => LookupKeepsValid(w.cache, k, w.clock);
      case Began(_, k, _) => LookupKeepsValid(w.cache, k, w.clock);
      case Finished(id, m) =>
        if id in w.calls { InsertKeepsValid(w.cache, w.calls[id].key, m, |w.calls[id].bytes|, w.clock); }
      case Invalidated(k) => InvalidateKeepsValid(w.cache, k);
      case _ =>
    }
  }

  /** The cache never outgrows max(max_size, 1), and no key is ever cached twice. */
  lemma {:induction false} BoundedAndUnique(maxSize: nat, ttl: nat, r: CacheRun)
    ensures var c := At(maxSize, ttl, r).cache;
      Valid(c) && c.ttl == ttl && |c.lru| <= c.cap == if maxSize > 1 then maxSize else 1
  {
    if r.Then? {
      BoundedAndUnique(maxSize, ttl, r.before);
      StepValid(At(maxSize, ttl, r.before), r.event);
    }
  }

  // --- Conservation -------------------------------------------------------------------------

  /** Inserts that found their key already cached. */
  predicate Overwrites(w: World, e: Event)
  {
    e.Finished? && e.id in w.calls && Has(w.cache.lru, w.calls[e.id].key)
  }

  predicate Drops(w: World, e: Event)
  {
    e.Invalidated? && Has(w.cache.lru, e.key)
  }

  datatype Tally = Tally(dropped: nat, replacedBelowCap: nat, failed: nat, hits: nat, begun: nat)

  function Tallied(t: Tally, w: World, e: Event): Tally
  {
    var hit := (e.Looked? || e.Began?) && Lookup(w.cache, e.key, w.clock).Hit?;
    Tally(
      t.dropped + Bit(Drops(w, e)),
      t.replacedBelowCap + Bit(Overwrites(w, e) && !AtCap(w.cache)),
      t.failed + Bit(e.Failed?),
      t.hits + Bit(hit),
      t.begun + Bit(e.Began? && !hit))
  }

  /** Read off the run: entries dropped by `invalidate`, inserts that replaced a key below capacity, failed compiles,
      lookups that hit, and `get_or_compile` calls that went on to compile. */
  function TallyOf(maxSize: nat, ttl: nat, r: CacheRun): Tally
  {
    if r.Start? then Tally(0, 0, 0, 0, 0)
    else Tallied(TallyOf(maxSize, ttl, r.before), At(maxSize, ttl, r.before), r.event)
  }

  ghost predicate Balanced(w: World, t: Tally)
  {
    && w.cache.misses == |w.cache.lru| + w.cache.evictions + t.dropped + t.replacedBelowCap + |w.calls| + t.failed
    && w.cache.hits == t.hits
    && w.cache.misses == t.begun
  }

  lemma MapWithout<K, V>(m: map<K, V>, k: K)
    requires k in m
    ensures |m - {k}| == |m| - 1
  {
  }

  lemma LookBalanced(w: World, e: Event, t: Tally)
    requires Valid(w.cache) && Enabled(w, e) && Balanced(w, t) && (e.Looked? || e.Began?)
    ensures Balanced(Next(w, e), Tallied(t, w, e))
  {
    LookupCounts(w.cache, e.key, w.clock);
  }

  lemma FinishBalanced(w: World, e: Event, t: Tally)
    requires Valid(w.cache) && Enabled(w, e) && Balanced(w, t) && e.Finished?
    ensures Balanced(Next(w, e), Tallied(t, w, e))
  {
  }

  lemma StepBalanced(w: World, e: Event, t: Tally)
    requires Valid(w.cache) && Enabled(w, e) && Balanced(w, t)
    ensures Balanced(Next(w, e), Tallied(t, w, e))
  {
    match e {
      case Looked(_) => LookBalanced(w, e, t);
      case Began(_, _, _) => LookBalanced(w, e, t);
      case Failed(id) => MapWithout(w.calls, id);
      case Finished(_, _) => FinishBalanced(w, e, t);
      case Invalidated(k) => PopExact(w.cache.lru, k);
      case _ =>
    }
  }

  /** Conservation over all interleavings: every miss is still cached, was evicted, invalidated or replaced, is being
      compiled, or failed to compile. */
  lemma {:induction false} CacheConservation(maxSize: nat, ttl: nat, r: CacheRun)
    requires Possible(maxSize, ttl, r)
    ensures Balanced(At(maxSize, ttl, r), TallyOf(maxSize, ttl, r))
  {
    if r.Then? {
      CacheConservation(maxSize, ttl, r.before);
      BoundedAndUnique(maxSize, ttl, r.before);
      StepBalanced(At(maxSize, ttl, r.before), r.event, TallyOf(maxSize, ttl, r.before));
    }
  }

  // --- Sequential runs ----------------------------------------------------------------------

  /** While a compilation is in flight, nothing else touches the cache; nothing is ever invalidated. */
  predicate Sequential(maxSize: nat, ttl: nat, r: CacheRun)
  {
    r.Then? ==>
      && Sequential(maxSize, ttl, r.before)
      && !r.event.Invalidated?
      && (At(maxSize, ttl, r.before).calls != map[] ==> r.event.Tick? || r.event.Failed? || r.event.Finished?)
  }

  /** Every insert finds its key absent, and `invalidate` removes nothing. */
  predicate Clean(maxSize: nat, ttl: nat, r: CacheRun)
  {
    r.Then? ==>
      && Clean(maxSize, ttl, r.before)
      && !Overwrites(At(maxSize, ttl, r.before), r.event)
      && !Drops(At(maxSize, ttl, r.before), r.event)
  }

  /** At most one compilation is in flight, and its key is not cached. */
  ghost predicate OneInFlight(w: World)
  {
    |w.calls| <= 1 && forall id | id in w.calls :: !Has(w.cache.lru, w.calls[id].key)
  }

  lemma LastCall(calls: map<nat, Call>, id: nat)
    requires |calls| <= 1 && id in calls
    ensures calls - {id} == map[]
  {
    MapWithout(calls, id);
    assert |(calls - {id}).Keys| == 0;
  }

  lemma StepOneInFlight(w: World, e: Event)
    requires Valid(w.cache) && OneInFlight(w) && Enabled(w, e) && !e.Invalidated?
    requires w.calls != map[] ==> e.Tick? || e.Failed? || e.Finished?
    ensures OneInFlight(Next(w, e))
  {
    match e {
      case Began(_, k, _) => LookupKeepsValid(w.cache, k, w.clock);
      case Finished(id, _) => LastCall(w.calls, id);
      case Failed(id) => LastCall(w.calls, id);
      case _ =>
    }
  }

  lemma {:induction false} SequentialInFlight(maxSize: nat, ttl: nat, r: CacheRun)
    requires Possible(maxSize, ttl, r) && Sequential(maxSize, ttl, r)
    ensures OneInFlight(At(maxSize, ttl, r))
  {
    if r.Then? {
      SequentialInFlight(maxSize, ttl, r.before);
      BoundedAndUnique(maxSize, ttl, r.before);
      StepOneInFlight(At(maxSize, ttl, r.before), r.event);
    }
  }

  /** Every sequential run without `invalidate` is clean. */
  lemma {:induction false} SequentialIsClean(maxSize: nat, ttl: nat, r: CacheRun)
    requires Possible(maxSize, ttl, r) && Sequential(maxSize, ttl, r)
    ensures Clean(maxSize, ttl, r)
  {
    if r.Then? {
      SequentialIsClean(maxSize, ttl, r.before);
      SequentialInFlight(maxSize, ttl, r.before);
    }
  }

  lemma {:induction false} CleanTally(maxSize: nat, ttl: nat, r: CacheRun)
    requires Clean(maxSize, ttl, r)
    ensures TallyOf(maxSize, ttl, r).dropped == 0 && TallyOf(maxSize, ttl, r).replacedBelowCap == 0
  {
    if r.Then? { CleanTally(maxSize, ttl, r.before); }
  }

  /** Between calls of a sequential run, misses = size + evictions + failed compiles. */
  lemma SequentialConservation(maxSize: nat, ttl: nat, r: CacheRun)
    requires Possible(maxSize, ttl, r) && Sequential(maxSize, ttl, r) && At(maxSize, ttl, r).calls == map[]
    ensures var c := At(maxSize, ttl, r).cache;
      c.misses == |c.lru| + c.evictions + TallyOf(maxSize, ttl, r).failed
  {
    CacheConservation(maxSize, ttl, r);
    SequentialIsClean(maxSize, ttl, r);
    CleanTally(maxSize, ttl, r);
  }

  // --- The byte total -----------------------------------------------------------------------

  /** What an event means to subtract from the running total; the subtraction saturates at zero. */
  function Subtracts(w: World, e: Event): nat
  {
    if (e.Looked? || e.Began?) && Lookup(w.cache, e.key, w.clock).Expired? then BytesOf(w.cache.lru, e.key)
    else if e.Finished? && e.id in w.calls && AtCap(w.cache) && w.cache.lru != [] then w.cache.lru[0].wasmBytes
    else 0
  }

  /** The bytes of the entry that an event takes out of the cache. */
  function Frees(w: World, e: Event): nat
  {
    if Drops(w, e) then BytesOf(w.cache.lru, e.key)
    else if Overwrites(w, e) then BytesOf(w.cache.lru, w.calls[e.id].key)
    else Subtracts(w, e)
  }

  /** How far one event moves the running total away from the cached bytes: `invalidate` forgets to subtract, an
      overwrite subtracts the least recent entry, or nothing, instead of the entry it replaces, and a subtraction
      can saturate. */
  function Strays(w: World, e: Event): int
  {
    var total := w.cache.totalWasmBytes;
    Frees(w, e) - if Subtracts(w, e) <= total then Subtracts(w, e) else total
  }

  predicate NeverSaturates(maxSize: nat, ttl: nat, r: CacheRun)
  {
    r.Then? ==>
      && NeverSaturates(maxSize, ttl, r.before)
      && Subtracts(At(maxSize, ttl, r.before), r.event) <= At(maxSize, ttl, r.before).cache.totalWasmBytes
  }

  function Drift(maxSize: nat, ttl: nat, r: CacheRun): int
  {
    if r.Start? then 0 else Drift(maxSize, ttl, r.before) + Strays(At(maxSize, ttl, r.before), r.event)
  }

  lemma FinishStrays(w: World, e: Event)
    requires Valid(w.cache) && Enabled(w, e) && e.Finished?
    ensures Next(w, e).cache.totalWasmBytes - Sum(Next(w, e).cache.lru) == w.cache.totalWasmBytes - Sum(w.cache.lru) + Strays(w, e)
  {
    InsertBytes(w.cache, w.calls[e.id].key, e.compiled, |w.calls[e.id].bytes|, w.clock);
  }

  lemma LookStrays(w: World, e: Event)
    requires Valid(w.cache) && Enabled(w, e) && (e.Looked? || e.Began?)
    ensures Next(w, e).cache.totalWasmBytes - Sum(Next(w, e).cache.lru) == w.cache.totalWasmBytes - Sum(w.cache.lru) + Strays(w, e)
  {
    LookupBytes(w.cache, e.key, w.clock);
  }

  lemma StepStrays(w: World, e: Event)
    requires Valid(w.cache) && Enabled(w, e)
    ensures Next(w, e).cache.totalWasmBytes - Sum(Next(w, e).cache.lru) == w.cache.totalWasmBytes - Sum(w.cache.lru) + Strays(w, e)
  {
    match e {
      case Looked(_) => LookStrays(w, e);
      case Began(_, _, _) => LookStrays(w, e);
      case Finished(_, _) => FinishStrays(w, e);
      case Invalidated(k) => SumPop(w.cache.lru, k);
      case _ =>
    }
  }

  /** In every run the running total is the cached bytes plus the drift; so it is exact if and only if the drift is
      zero. */
  lemma {:induction false} ByteTotal(maxSize: nat, ttl: nat, r: CacheRun)
    requires Possible(maxSize, ttl, r)
    ensures At(maxSize, ttl, r).cache.totalWasmBytes == Sum(At(maxSize, ttl, r).cache.lru) + Drift(maxSize, ttl, r)
  {
    if r.Then? {
      ByteTotal(maxSize, ttl, r.before);
      BoundedAndUnique(maxSize, ttl, r.before);
      StepStrays(At(maxSize, ttl, r.before), r.event);
    }
  }

  lemma SubtractsWithin(w: World, e: Event)
    requires Valid(w.cache)
    ensures Subtracts(w, e) <= Sum(w.cache.lru)
  {
    if e.Looked? || e.Began? { SumPop(w.cache.lru, e.key); }
    if w.cache.lru != [] { SumTail(w.cache.lru); }
  }

  /** An invalidation forgets bytes, or an overwrite subtracts a different number of bytes than it replaces. */
  predicate Misbooks(w: World, e: Event)
  {
    || (Drops(w, e) && BytesOf(w.cache.lru, e.key) != 0)
    || (Overwrites(w, e) && BytesOf(w.cache.lru, w.calls[e.id].key) != Subtracts(w, e))
  }

  predicate NeverMisbooks(maxSize: nat, ttl: nat, r: CacheRun)
  {
    r.Then? ==> NeverMisbooks(maxSize, ttl, r.before) && !Misbooks(At(maxSize, ttl, r.before), r.event)
  }

  /** The total was the sum of the cached bytes at every point of the run. */
  ghost predicate ExactThroughout(maxSize: nat, ttl: nat, r: CacheRun)
  {
    && At(maxSize, ttl, r).cache.totalWasmBytes == Sum(At(maxSize, ttl, r).cache.lru)
    && (r.Then? ==> ExactThroughout(maxSize, ttl, r.before))
  }

  /** From an exact total an event that does not misbook leads to an exact one without saturating, and one that does not. */
  lemma StepExact(w: World, e: Event)
    requires Valid(w.cache) && Enabled(w, e)
    ensures w.cache.totalWasmBytes == Sum(w.cache.lru) ==>
      && Subtracts(w, e) <= w.cache.totalWasmBytes
      && (Next(w, e).cache.totalWasmBytes == Sum(Next(w, e).cache.lru) <==> !Misbooks(w, e))
  {
    SubtractsWithin(w, e);
    StepStrays(w, e);
  }

  /** The total is exact throughout a run if and only if no event of the run misbooks; and then nothing saturates. */
  lemma {:induction false} ExactIffNeverMisbooked(maxSize: nat, ttl: nat, r: CacheRun)
    requires Possible(maxSize, ttl, r)
    ensures ExactThroughout(maxSize, ttl, r) <==> NeverMisbooks(maxSize, ttl, r)
    ensures NeverMisbooks(maxSize, ttl, r) ==> NeverSaturates(maxSize, ttl, r)
  {
    if r.Then? {
      ExactIffNeverMisbooked(maxSize, ttl, r.before);
      BoundedAndUnique(maxSize, ttl, r.before);
      StepExact(At(maxSize, ttl, r.before), r.event);
    }
  }

  lemma {:induction false} CleanNeverMisbooks(maxSize: nat, ttl: nat, r: CacheRun)
    requires Clean(maxSize, ttl, r)
    ensures NeverMisbooks(maxSize, ttl, r)
  {
    if r.Then? { CleanNeverMisbooks(maxSize, ttl, r.before); }
  }

  /** On a clean run, so on every sequential one without `invalidate`, nothing saturates and the byte total is exact. */
  lemma {:induction false} CleanByteTotal(maxSize: nat, ttl: nat, r: CacheRun)
    requires Possible(maxSize, ttl, r) && Clean(maxSize, ttl, r)
    ensures NeverSaturates(maxSize, ttl, r)
    ensures At(maxSize, ttl, r).cache.totalWasmBytes == Sum(At(maxSize, ttl, r).cache.lru)
  {
    CleanNeverMisbooks(maxSize, ttl, r);
    ExactIffNeverMisbooked(maxSize, ttl, r);
  }

  /** Two overlapping compiles of one key leave the total at twice the cached bytes. */
  lemma OverlapBreaksByteTotal(bytes: Bytes, m: Module)
    requires bytes != []
    ensures var r := Then(Then(Then(Then(Start, Began(1, "k", bytes)), Began(2, "k", bytes)), Finished(1, m)), Finished(2, m));
      && Possible(2, 1, r)
      && Sum(At(2, 1, r).cache.lru) == |bytes|
      && At(2, 1, r).cache.totalWasmBytes == 2 * |bytes|
  {
    var two := Then(Then(Start, Began(1, "k", bytes)), Began(2, "k", bytes));
    var w := World(Empty(2, 1).(misses := 2), 0, map[1 := Call("k", bytes), 2 := Call("k", bytes)]);
    assert At(2, 1, Then(Start, Began(1, "k", bytes))) == World(Empty(2, 1).(misses := 1), 0, map[1 := Call("k", bytes)]);
    assert At(2, 1, two) == w && Possible(2, 1, two);
    OverwriteDoubles(w, bytes, m);
    assert At(2, 1, Then(two, Finished(1, m))) == Next(w, Finished(1, m));
  }

  lemma OverwriteDoubles(w: World, bytes: Bytes, m: Module)
    requires w == World(Empty(2, 1).(misses := 2), 0, map[1 := Call("k", bytes), 2 := Call("k", bytes)])
    ensures var u := Next(Next(w, Finished(1, m)), Finished(2, m));
      Sum(u.cache.lru) == |bytes| && u.cache.totalWasmBytes == 2 * |bytes|
  {
  }
}
