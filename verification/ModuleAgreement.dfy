/** Every module a node runs for a reference is the compilation of the bytes the registry first stored under that pair. */
module ModuleAgreement {
  import opened Common
  import opened ModuleCache
  import opened EdgeNode
  import CR = CacheRuns
  import CacheRecency
  import Registry

  type Store = map<string, Bytes>

  /** Bytes a node may have compiled for `key`: the registered ones, or, when downloads are not trusted, any that pass
      the digest check against them. */
  predicate Acceptable(tools: Tools, honest: bool, registry: Store, key: string, bytes: Bytes)
  {
    && key in registry
    && (bytes == registry[key] || (!honest && HashAccepted(tools, tools.hash(registry[key]), bytes)))
  }

  ghost predicate Agrees(tools: Tools, honest: bool, registry: Store, key: string, m: Module)
  {
    exists bytes :: Acceptable(tools, honest, registry, key, bytes) && tools.compile(bytes) == Some(m)
  }

  ghost predicate CacheSound(tools: Tools, honest: bool, s: Edge)
  {
    && (forall e | e in s.cw.cache.lru :: Agrees(tools, honest, s.registry, e.key, e.compiled))
    && (forall id | id in s.cw.calls :: Acceptable(tools, honest, s.registry, s.cw.calls[id].key, s.cw.calls[id].bytes))
  }

  predicate RequestSound(honest: bool, tools: Tools, s: Edge, id: nat)
    requires id in s.requests
  {
    var q := s.requests[id];
    && (q.source.Ref? ==> KeyOf(q.source) in s.registry && q.source.hash == tools.hash(s.registry[KeyOf(q.source)]))
    && (q.phase.Verifying? && q.source.Ref? && honest ==> q.phase.bytes == s.registry[KeyOf(q.source)])
    && (q.phase.Compiling? ==> q.source.Ref? && id in s.cw.calls && s.cw.calls[id].key == KeyOf(q.source))
    && (q.phase.Running? && q.phase.compiled.Some? ==> q.source.Ref?)
  }

  /** A compilation in flight belongs to a compiling request or to a warm-up, never to both. */
  predicate CallOwned(s: Edge, id: nat)
  {
    && (id in s.cw.calls ==> id in s.warming || (id in s.requests && s.requests[id].phase.Compiling?))
    && (id in s.warming ==> id !in s.requests)
  }

  ghost predicate Sound(tools: Tools, honest: bool, s: Edge)
  {
    && Valid(s.cw.cache)
    && CacheSound(tools, honest, s)
    && (forall id | id in s.requests :: RequestSound(honest, tools, s, id))
    && (forall id :: CallOwned(s, id))
    && (forall id | id in s.requests && s.requests[id].phase.Running? && s.requests[id].phase.compiled.Some? ::
          Agrees(tools, honest, s.registry, KeyOf(s.requests[id].source), s.requests[id].phase.compiled.value))
  }

  // --- Each kind of event keeps soundness ---------------------------------------------------

  /** The cache event inside an edge event, if there is one. */
  function CacheEventOf(tools: Tools, s: Edge, e: Event): Option<CR.Event>
  {
    if !InPhase(s, e) then None
    else
      match e
      case Tick(ms) => Some(CR.Tick(ms))
      case WarmBegan(id, n, v) =>
        if Registry.Key(n, v) in s.registry then Some(CR.Began(id, Registry.Key(n, v), s.registry[Registry.Key(n, v)])) else None
      case WarmEnded(id, m) => Some(CacheEnd(id, m))
      case Resolved(id) => if s.requests[id].source.Ref? then Some(CR.Looked(KeyOf(s.requests[id].source))) else None
      case Verified(id) =>
        if HashAccepted(tools, s.requests[id].source.hash, s.requests[id].phase.bytes)
        then Some(CR.Began(id, KeyOf(s.requests[id].source), s.requests[id].phase.bytes)) else None
      case CompileEnded(id, m) => Some(CacheEnd(id, m))
      case _ => None
  }

  lemma StepCache(tools: Tools, s: Edge, e: Event)
    ensures var ce := CacheEventOf(tools, s, e);
      Next(tools, s, e).cw == if ce.Some? then CR.Next(s.cw, ce.value) else s.cw
  {
  }

  lemma StepRegistry(tools: Tools, s: Edge, e: Event)
    ensures var t := Next(tools, s, e);
      forall k | k in s.registry :: k in t.registry && t.registry[k] == s.registry[k]
  {
  }

  lemma AgreesLater(tools: Tools, honest: bool, registry: Store, later: Store, key: string, m: Module)
    requires Agrees(tools, honest, registry, key, m)
    requires forall k | k in registry :: k in later && later[k] == registry[k]
    ensures Agrees(tools, honest, later, key, m)
  {
  }

  /** The cache events an edge node issues are possible, carry acceptable bytes, and insert their compilation. */
  ghost predicate GoodCacheEvent(tools: Tools, honest: bool, s: Edge, ce: CR.Event)
  {
    && CR.Enabled(s.cw, ce)
    && !ce.Invalidated?
    && (ce.Began? ==> Acceptable(tools, honest, s.registry, ce.key, ce.bytes))
    && (ce.Finished? ==> tools.compile(s.cw.calls[ce.id].bytes) == Some(ce.compiled))
  }

  lemma CacheEventIsGood(tools: Tools, honest: bool, s: Edge, e: Event)
    requires Enabled(tools, honest, s, e) && Sound(tools, honest, s) && CacheEventOf(tools, s, e).Some?
    ensures GoodCacheEvent(tools, honest, s, CacheEventOf(tools, s, e).value)
  {
    if e.Verified? || e.CompileEnded? {
      assert RequestSound(honest, tools, s, e.id) && CallOwned(s, e.id);
    }
  }

  /** A good cache event keeps the cache's entries and compilations true to the registry. */
  lemma CacheStaysSound(tools: Tools, honest: bool, s: Edge, ce: CR.Event)
    requires Valid(s.cw.cache) && CacheSound(tools, honest, s) && GoodCacheEvent(tools, honest, s, ce)
    ensures CacheSound(tools, honest, s.(cw := CR.Next(s.cw, ce))) && Valid(CR.Next(s.cw, ce).cache)
  {
    CR.StepValid(s.cw, ce);
    forall entry | entry in CR.Next(s.cw, ce).cache.lru
      ensures Agrees(tools, honest, s.registry, entry.key, entry.compiled)
    {
      var before := CacheRecency.EntryOrigin(s.cw, ce, entry);
      if before.Some? { assert Agrees(tools, honest, s.registry, before.value.key, before.value.compiled); }
    }
  }

  lemma HitAgrees(tools: Tools, honest: bool, s: Edge, key: string)
    requires CacheSound(tools, honest, s)
    ensures var look := Lookup(s.cw.cache, key, s.cw.clock); look.Hit? ==> Agrees(tools, honest, s.registry, key, look.compiled)
  {
  }

  lemma StepCacheSound(tools: Tools, honest: bool, s: Edge, e: Event)
    requires Enabled(tools, honest, s, e) && Sound(tools, honest, s)
    ensures Valid(Next(tools, s, e).cw.cache) && CacheSound(tools, honest, Next(tools, s, e))
  {
    StepCache(tools, s, e);
    StepRegistry(tools, s, e);
    var t, ce := Next(tools, s, e), CacheEventOf(tools, s, e);
    if ce.Some? {
      CacheEventIsGood(tools, honest, s, e);
      CacheStaysSound(tools, honest, s, ce.value);
    }
    forall entry | entry in t.cw.cache.lru
      ensures Agrees(tools, honest, t.registry, entry.key, entry.compiled)
    {
      AgreesLater(tools, honest, s.registry, t.registry, entry.key, entry.compiled);
    }
  }

  predicate HasId(e: Event)
  {
    !e.Tick? && !e.Uploaded?
  }

  lemma StepTouchesOneRequest(tools: Tools, s: Edge, e: Event, id: nat)
    requires HasId(e) ==> e.id != id
    ensures var t := Next(tools, s, e);
      && (id in t.requests <==> id in s.requests)
      && (id in s.requests ==> t.requests[id] == s.requests[id])
  {
    if e.Resolved? && InPhase(s, e) { ResolveTouchesOne(s, e.id); }
    if e.Verified? && InPhase(s, e) { VerifyTouchesOne(tools, s, e.id); }
  }

  lemma ResolveTouchesOne(s: Edge, id: nat)
    requires id in s.requests
    ensures var t := AfterResolve(s, id); id in t.requests && t.requests == s.requests[id := t.requests[id]] && t.warming == s.warming
  {
  }

  lemma VerifyTouchesOne(tools: Tools, s: Edge, id: nat)
    requires id in s.requests && s.requests[id].source.Ref? && s.requests[id].phase.Verifying?
    ensures var t := AfterVerify(tools, s, id); id in t.requests && t.requests == s.requests[id := t.requests[id]] && t.warming == s.warming
  {
  }

  lemma StepTouchesOneWarming(tools: Tools, s: Edge, e: Event, id: nat)
    requires HasId(e) ==> e.id != id
    ensures id in Next(tools, s, e).warming <==> id in s.warming
  {
  }

  lemma CacheStepTouchesOneCall(w: CR.World, ce: CR.Event, id: nat)
    requires ce.Began? || ce.Failed? || ce.Finished? ==> ce.id != id
    ensures var v := CR.Next(w, ce); (id in v.calls <==> id in w.calls) && (id in w.calls ==> v.calls[id] == w.calls[id])
  {
  }

  /** An event touches only its own request, compilation and warm-up. */
  lemma StepTouchesOne(tools: Tools, s: Edge, e: Event, id: nat)
    requires HasId(e) ==> e.id != id
    ensures var t := Next(tools, s, e);
      && (id in t.requests <==> id in s.requests)
      && (id in s.requests ==> t.requests[id] == s.requests[id])
      && (id in t.cw.calls <==> id in s.cw.calls)
      && (id in s.cw.calls ==> t.cw.calls[id] == s.cw.calls[id])
      && (id in t.warming <==> id in s.warming)
  {
    StepTouchesOneRequest(tools, s, e, id);
    StepTouchesOneWarming(tools, s, e, id);
    StepCache(tools, s, e);
    if CacheEventOf(tools, s, e).Some? { CacheStepTouchesOneCall(s.cw, CacheEventOf(tools, s, e).value, id); }
  }

  lemma OthersStaySound(tools: Tools, honest: bool, s: Edge, e: Event, id: nat)
    requires Enabled(tools, honest, s, e) && Sound(tools, honest, s) && (HasId(e) ==> e.id != id)
    ensures var t := Next(tools, s, e); CallOwned(t, id) && (id in t.requests ==> RequestSound(honest, tools, t, id))
  {
    StepTouchesOne(tools, s, e, id);
    StepRegistry(tools, s, e);
    assert CallOwned(s, id);
    if id in s.requests { assert RequestSound(honest, tools, s, id); }
  }

  lemma OwnCallOwned(tools: Tools, honest: bool, s: Edge, e: Event)
    requires Enabled(tools, honest, s, e) && Sound(tools, honest, s) && HasId(e)
    ensures CallOwned(Next(tools, s, e), e.id)
  {
    assert CallOwned(s, e.id);
    if e.id in s.requests { assert RequestSound(honest, tools, s, e.id); }
  }

  lemma OwnRequestSound(tools: Tools, honest: bool, s: Edge, e: Event)
    requires Enabled(tools, honest, s, e) && Sound(tools, honest, s) && HasId(e)
    ensures var t := Next(tools, s, e); e.id in t.requests ==> RequestSound(honest, tools, t, e.id)
  {
    assert CallOwned(s, e.id);
    if e.id in s.requests { assert RequestSound(honest, tools, s, e.id); }
  }

  /** A request that starts to run a module got it from a hit or from its own compilation, and either agrees. */
  lemma OwnModuleAgrees(tools: Tools, honest: bool, s: Edge, e: Event)
    requires Enabled(tools, honest, s, e) && Sound(tools, honest, s) && HasId(e)
    ensures var t := Next(tools, s, e);
      e.id in t.requests && t.requests[e.id].phase.Running? && t.requests[e.id].phase.compiled.Some? ==>
        && t.requests[e.id].source.Ref?
        && Agrees(tools, honest, s.registry, KeyOf(t.requests[e.id].source), t.requests[e.id].phase.compiled.value)
  {
    if e.id in s.requests {
      assert RequestSound(honest, tools, s, e.id);
      if s.requests[e.id].source.Ref? { HitAgrees(tools, honest, s, KeyOf(s.requests[e.id].source)); }
    }
  }

  lemma StepSound(tools: Tools, honest: bool, s: Edge, e: Event)
    requires Enabled(tools, honest, s, e) && Sound(tools, honest, s)
    ensures Sound(tools, honest, Next(tools, s, e))
  {
    var t := Next(tools, s, e);
    StepCacheSound(tools, honest, s, e);
    StepRegistry(tools, s, e);
    forall id
      ensures CallOwned(t, id) && (id in t.requests ==> RequestSound(honest, tools, t, id))
    {
      if HasId(e) && e.id == id {
        OwnCallOwned(tools, honest, s, e);
        OwnRequestSound(tools, honest, s, e);
      } else {
        OthersStaySound(tools, honest, s, e, id);
      }
    }
    forall id | id in t.requests && t.requests[id].phase.Running? && t.requests[id].phase.compiled.Some?
      ensures Agrees(tools, honest, t.registry, KeyOf(t.requests[id].source), t.requests[id].phase.compiled.value)
    {
      if HasId(e) && e.id == id { OwnModuleAgrees(tools, honest, s, e); } else { StepTouchesOne(tools, s, e, id); }
      AgreesLater(tools, honest, s.registry, t.registry, KeyOf(t.requests[id].source), t.requests[id].phase.compiled.value);
    }
  }

  /** In every run, through any mix of hits, misses, expiries, evictions, warm-ups and overlapping compiles. */
  lemma {:induction false} AlwaysSound(tools: Tools, honest: bool, cfg: Config, r: EdgeRun)
    requires Possible(tools, honest, cfg, r)
    ensures Sound(tools, honest, At(tools, cfg, r))
  {
    if r.Then? {
      AlwaysSound(tools, honest, cfg, r.before);
      StepSound(tools, honest, At(tools, cfg, r.before), r.event);
    }
  }

  // --- From keys to pairs -------------------------------------------------------------------

  /** The bytes of the first upload made under exactly this pair. */
  function FirstUploaded(r: EdgeRun, name: string, version: string): Option<Bytes>
  {
    if r.Start? then None
    else
      var earlier := FirstUploaded(r.before, name, version);
      if earlier.None? && r.event.Uploaded? && r.event.name == name && r.event.version == version then Some(r.event.bytes)
      else earlier
  }

  /** No upload was made under another pair that has this pair's key. */
  predicate KeyUnshared(r: EdgeRun, name: string, version: string)
  {
    r.Then? ==>
      && KeyUnshared(r.before, name, version)
      && (r.event.Uploaded? && Registry.Key(r.event.name, r.event.version) == Registry.Key(name, version) ==>
            r.event.name == name && r.event.version == version)
  }

  /** The write-once registry holds the first upload of each pair whose key is its own. */
  lemma {:induction false} RegistryIsFirstUpload(tools: Tools, cfg: Config, r: EdgeRun, name: string, version: string)
    requires KeyUnshared(r, name, version)
    ensures var registry, key := At(tools, cfg, r).registry, Registry.Key(name, version);
      FirstUploaded(r, name, version) == if key in registry then Some(registry[key]) else None
  {
    if r.Then? {
      RegistryIsFirstUpload(tools, cfg, r.before, name, version);
      StepUpload(tools, At(tools, cfg, r.before), r.event);
    }
  }

  lemma StepUpload(tools: Tools, s: Edge, e: Event)
    ensures Next(tools, s, e).registry ==
      if e.Uploaded? && Registry.Key(e.name, e.version) !in s.registry
      then s.registry[Registry.Key(e.name, e.version) := e.bytes] else s.registry
  {
  }

  /** A module the request runs is the compilation of the bytes first uploaded under the pair. */
  ghost predicate RunsFirstUpload(tools: Tools, r: EdgeRun, q: Request, name: string, version: string)
  {
    var first := FirstUploaded(r, name, version);
    q.phase.Running? && q.phase.compiled.Some? ==> first.Some? && tools.compile(first.value) == q.phase.compiled
  }

  lemma {:induction false} UnsharedKeyAgrees(tools: Tools, cfg: Config, r: EdgeRun, id: nat)
    requires Possible(tools, true, cfg, r) && id in At(tools, cfg, r).requests && At(tools, cfg, r).requests[id].source.Ref?
    requires var src := At(tools, cfg, r).requests[id].source; KeyUnshared(r, src.name, src.version)
    ensures var q := At(tools, cfg, r).requests[id]; RunsFirstUpload(tools, r, q, q.source.name, q.source.version)
  {
    AlwaysSound(tools, true, cfg, r);
    var q := At(tools, cfg, r).requests[id];
    RegistryIsFirstUpload(tools, cfg, r, q.source.name, q.source.version);
  }

  predicate NamesAreColonFree(r: EdgeRun)
  {
    r.Then? ==> NamesAreColonFree(r.before) && (r.event.Uploaded? ==> ':' !in r.event.name)
  }

  lemma {:induction false} ColonFreeUnshared(r: EdgeRun, name: string, version: string)
    requires NamesAreColonFree(r) && ':' !in name
    ensures KeyUnshared(r, name, version)
  {
    if r.Then? {
      ColonFreeUnshared(r.before, name, version);
      if r.event.Uploaded? && Registry.Key(r.event.name, r.event.version) == Registry.Key(name, version) {
        Registry.KeyInjective(r.event.name, r.event.version, name, version);
      }
    }
  }

  /** End to end: with colon-free names and honest downloads, each module executed for a reference is the compilation of
      the bytes first uploaded under that pair. */
  lemma {:induction false} ModuleIsFirstUpload(tools: Tools, cfg: Config, r: EdgeRun, id: nat)
    requires Possible(tools, true, cfg, r) && NamesAreColonFree(r)
    requires id in At(tools, cfg, r).requests
    requires var src := At(tools, cfg, r).requests[id].source; src.Ref? && ':' !in src.name
    ensures var q := At(tools, cfg, r).requests[id]; RunsFirstUpload(tools, r, q, q.source.name, q.source.version)
  {
    var src := At(tools, cfg, r).requests[id].source;
    ColonFreeUnshared(r, src.name, src.version);
    UnsharedKeyAgrees(tools, cfg, r, id);
  }

  /** Whatever the download returned, an executed module is the compilation of bytes with the registered digest. */
  lemma {:induction false} ModuleHasRegisteredDigest(tools: Tools, cfg: Config, r: EdgeRun, id: nat) returns (bytes: Bytes)
    requires Possible(tools, false, cfg, r) && (forall b :: tools.hash(b) != "")
    requires id in At(tools, cfg, r).requests
    requires var q := At(tools, cfg, r).requests[id]; q.phase.Running? && q.phase.compiled.Some?
    ensures var q := At(tools, cfg, r).requests[id];
      && q.source.Ref? && KeyOf(q.source) in At(tools, cfg, r).registry
      && tools.hash(bytes) == tools.hash(At(tools, cfg, r).registry[KeyOf(q.source)])
      && tools.compile(bytes) == q.phase.compiled
  {
    AlwaysSound(tools, false, cfg, r);
    var s := At(tools, cfg, r);
    var q := s.requests[id];
    assert RequestSound(false, tools, s, id);
    bytes :| Acceptable(tools, false, s.registry, KeyOf(q.source), bytes) && tools.compile(bytes) == q.phase.compiled;
  }

  // --- The node's cache is a cache run ------------------------------------------------------

  function CacheOf(tools: Tools, cfg: Config, r: EdgeRun): CR.CacheRun
  {
    if r.Start? then Start
    else
      var earlier, ce := CacheOf(tools, cfg, r.before), CacheEventOf(tools, At(tools, cfg, r.before), r.event);
      if ce.Some? then Then(earlier, ce.value) else earlier
  }

  /** Seen alone, the cache of a node goes through a possible cache run, so its conservation, recency, expiry and byte
      results hold on the node. */
  lemma {:induction false} CacheProjection(tools: Tools, honest: bool, cfg: Config, r: EdgeRun)
    requires Possible(tools, honest, cfg, r)
    ensures CR.Possible(cfg.maxSize, cfg.ttl, CacheOf(tools, cfg, r))
    ensures CR.At(cfg.maxSize, cfg.ttl, CacheOf(tools, cfg, r)) == At(tools, cfg, r).cw
  {
    if r.Then? {
      CacheProjection(tools, honest, cfg, r.before);
      AlwaysSound(tools, honest, cfg, r.before);
      StepCache(tools, At(tools, cfg, r.before), r.event);
      if CacheEventOf(tools, At(tools, cfg, r.before), r.event).Some? {
        CacheEventIsGood(tools, honest, At(tools, cfg, r.before), r.event);
      }
    }
  }

  // --- Exactly which pairs are safe ---------------------------------------------------------

  /** The run ends in `s`, and nobody uploaded the pair. */
  ghost predicate Ends(tools: Tools, cfg: Config, r: EdgeRun, src: Source, s: Edge)
    requires src.Ref?
  {
    Possible(tools, true, cfg, r) && At(tools, cfg, r) == s && FirstUploaded(r, src.name, src.version) == None
  }

  /** Some run does. */
  ghost predicate Reaches(tools: Tools, cfg: Config, src: Source, s: Edge)
    requires src.Ref?
  {
    exists r :: Ends(tools, cfg, r, src, s)
  }

  lemma Step(tools: Tools, cfg: Config, src: Source, s: Edge, e: Event)
    requires src.Ref? && !e.Uploaded? && Reaches(tools, cfg, src, s) && Enabled(tools, true, s, e)
    ensures Reaches(tools, cfg, src, Next(tools, s, e))
  {
    var r :| Ends(tools, cfg, r, src, s);
    assert Ends(tools, cfg, Then(r, e), src, Next(tools, s, e));
  }

  /** The node holds one request, for `src`, and has cached nothing, yet the pair's key holds `x`. */
  ghost predicate Serving(tools: Tools, s: Edge, src: Source, p: Phase, x: Bytes)
  {
    && src.Ref? && src.hash == tools.hash(x)
    && s.requests == map[0 := Request(src, p)]
    && s.registry == map[KeyOf(src) := x]
    && s.cw.calls == map[] && s.cw.cache.lru == []
  }

  lemma Publish(tools: Tools, cfg: Config, x: Bytes, src: Source, name: string, version: string)
    requires src.Ref? && Registry.Key(name, version) == KeyOf(src) && (name != src.name || version != src.version)
    ensures Reaches(tools, cfg, src, Genesis(cfg).(registry := map[KeyOf(src) := x]))
  {
    var e := Uploaded(name, version, x);
    var r := Then(Start, e);
    assert FirstUploaded(r.before, src.name, src.version) == None;
    assert Possible(tools, true, cfg, r.before) && At(tools, cfg, r) == Next(tools, Genesis(cfg), e);
    assert Ends(tools, cfg, r, src, Genesis(cfg).(registry := map[KeyOf(src) := x]));
  }

  lemma Admit(tools: Tools, cfg: Config, s: Edge, src: Source, x: Bytes) returns (s': Edge)
    requires src.Ref? && src.hash == tools.hash(x) && s == Genesis(cfg).(registry := map[KeyOf(src) := x]) && cfg.capacity > 0
    requires Reaches(tools, cfg, src, s)
    ensures Serving(tools, s', src, Resolving, x) && Reaches(tools, cfg, src, s')
  {
    s' := Next(tools, s, Arrived(0, src));
    Step(tools, cfg, src, s, Arrived(0, src));
    assert s'.requests == map[0 := Request(src, Arriving)];
    Step(tools, cfg, src, s', Acquired(0));
    s' := Next(tools, s', Acquired(0));
    Step(tools, cfg, src, s', Counted(0));
    s' := Next(tools, s', Counted(0));
  }

  lemma Fetch(tools: Tools, cfg: Config, s: Edge, src: Source, x: Bytes) returns (s': Edge)
    requires Serving(tools, s, src, Resolving, x) && Reaches(tools, cfg, src, s)
    ensures Serving(tools, s', src, Verifying(x), x) && Reaches(tools, cfg, src, s')
  {
    s' := Next(tools, s, Resolved(0));
    Step(tools, cfg, src, s, Resolved(0));
    assert Serving(tools, s', src, Downloading, x);
    Step(tools, cfg, src, s', Downloaded(0, Some(x)));
    s' := Next(tools, s', Downloaded(0, Some(x)));
  }

  /** Two pairs with one key: uploading the other pair alone makes a node run its module for this one. */
  lemma {:induction false} SharedKeyDisagrees(tools: Tools, cfg: Config, x: Bytes, m: Module, src: Source, name: string, version: string)
    requires cfg.capacity > 0 && tools.compile(x) == Some(m) && src.Ref? && src.hash == tools.hash(x)
    requires Registry.Key(name, version) == KeyOf(src) && (name != src.name || version != src.version)
    ensures exists r, s :: Ends(tools, cfg, r, src, s) && 0 in s.requests && s.requests[0] == Request(src, Running(Some(m)))
  {
    Publish(tools, cfg, x, src, name, version);
    var s := Admit(tools, cfg, Genesis(cfg).(registry := map[KeyOf(src) := x]), src, x);
    s := Fetch(tools, cfg, s, src, x);
    Step(tools, cfg, src, s, Verified(0));
    s := Next(tools, s, Verified(0));
    assert s.cw.calls[0] == CR.Call(KeyOf(src), x);
    Step(tools, cfg, src, s, CompileEnded(0, Some(m)));
    s := Next(tools, s, CompileEnded(0, Some(m)));
    var r :| Ends(tools, cfg, r, src, s);
  }

  /** In every run with honest downloads, whatever else is uploaded, a reference to this pair runs the pair's first upload. */
  ghost predicate AlwaysAgrees(tools: Tools, cfg: Config, name: string, version: string)
  {
    forall r, id | Possible(tools, true, cfg, r) && id in At(tools, cfg, r).requests ::
      var q := At(tools, cfg, r).requests[id];
      q.source.Ref? && q.source.name == name && q.source.version == version ==> RunsFirstUpload(tools, r, q, name, version)
  }

  lemma {:induction false} UnambiguousUnshared(r: EdgeRun, name: string, version: string)
    requires forall n, v | Registry.Key(n, v) == Registry.Key(name, version) :: n == name && v == version
    ensures KeyUnshared(r, name, version)
  {
    if r.Then? { UnambiguousUnshared(r.before, name, version); }
  }

  /** A pair is safe against every other upload if and only if neither its name nor its version holds a colon. */
  lemma {:induction false} AgreesIffColonFree(tools: Tools, cfg: Config, name: string, version: string, x: Bytes)
    requires cfg.capacity > 0 && tools.compile(x).Some?
    ensures AlwaysAgrees(tools, cfg, name, version) <==> ':' !in name && ':' !in version
  {
    Registry.KeyUnambiguous(name, version);
    if ':' !in name && ':' !in version {
      forall r, id | Possible(tools, true, cfg, r) && id in At(tools, cfg, r).requests
        ensures var q := At(tools, cfg, r).requests[id];
          q.source.Ref? && q.source.name == name && q.source.version == version ==> RunsFirstUpload(tools, r, q, name, version)
      {
        var src := At(tools, cfg, r).requests[id].source;
        if src.Ref? && src.name == name && src.version == version {
          UnambiguousUnshared(r, name, version);
          UnsharedKeyAgrees(tools, cfg, r, id);
        }
      }
    } else {
      var n, v :| Registry.Key(n, v) == Registry.Key(name, version) && !(n == name && v == version);
      var src := Ref(name, version, tools.hash(x));
      var m := tools.compile(x).value;
      SharedKeyDisagrees(tools, cfg, x, m, src, n, v);
      var r, s :| Ends(tools, cfg, r, src, s) && 0 in s.requests && s.requests[0] == Request(src, Running(Some(m)));
      assert !RunsFirstUpload(tools, r, At(tools, cfg, r).requests[0], name, version);
    }
  }
}
