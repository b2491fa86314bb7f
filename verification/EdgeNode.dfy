/** One edge node serving any number of overlapping requests: admission, accounting, and module resolution through the
    node's cache and the control-plane's registry. Calls are not cancelled. */
module EdgeNode {
  import opened Common
  import opened ModuleCache
  import CR = CacheRuns
  import Registry

  /** The foreign functions: Wasmtime compilation and the SHA-256 digest. */
  datatype Tools = Tools(compile: Bytes -> Option<Module>, hash: Bytes -> string)

  datatype Source = Inline(bytes: Bytes) | Ref(name: string, version: string, hash: string) | Unset

  /** How a counted request ended. A download or compile error returns without the decrement. */
  datatype End = Executed | ExecutionError | BadHash | NoSource | DownloadError | CompileError

  datatype Phase =
    | Arriving
    | Rejected
    | Admitted
    | Resolving
    | Downloading
    | Verifying(bytes: Bytes)
    | Compiling
    | Running(compiled: Option<Module>)
    | Leaving(end: End)
    | Left(end: End)

  datatype Request = Request(source: Source, phase: Phase)

  datatype Edge = Edge(
    permits: nat,
    active: nat,
    executed: nat,
    failed: nat,
    requests: map<nat, Request>,
    cw: CR.World,
    registry: map<string, Bytes>,
    warming: set<nat>)

  datatype Event =
    | Tick(ms: nat)
    | Uploaded(name: string, version: string, bytes: Bytes)
    | WarmBegan(id: nat, name: string, version: string)
    | WarmEnded(id: nat, compiled: Option<Module>)
    | Arrived(id: nat, source: Source)
    | Acquired(id: nat)
    | Counted(id: nat)
    | Resolved(id: nat)
    | Downloaded(id: nat, reply: Option<Bytes>)
    | Verified(id: nat)
    | CompileEnded(id: nat, compiled: Option<Module>)
    | Ran(id: nat, ok: bool)
    | Released(id: nat)

  type EdgeRun = Run<Event>

  datatype Config = Config(capacity: nat, maxSize: nat, ttl: nat)

  function Genesis(cfg: Config): Edge
  {
    Edge(cfg.capacity, 0, 0, 0, map[], CR.Genesis(cfg.maxSize, cfg.ttl), map[], {})
  }

  function KeyOf(src: Source): string
    requires src.Ref?
  {
    Registry.Key(src.name, src.version)
  }

  /** The request's next phase is the one this event ends. */
  predicate InPhase(s: Edge, e: Event)
  {
    match e
    case Acquired(id) => id in s.requests && s.requests[id].phase.Arriving?
    case Counted(id) => id in s.requests && s.requests[id].phase.Admitted?
    case Resolved(id) => id in s.requests && s.requests[id].phase.Resolving?
    case Downloaded(id, _) => id in s.requests && s.requests[id].phase.Downloading? && s.requests[id].source.Ref?
    case Verified(id) => id in s.requests && s.requests[id].phase.Verifying? && s.requests[id].source.Ref?
    case CompileEnded(id, _) => id in s.requests && s.requests[id].phase.Compiling? && id in s.cw.calls
    case Ran(id, _) => id in s.requests && s.requests[id].phase.Running?
    case Released(id) => id in s.requests && s.requests[id].phase.Leaving?
    case _ => true
  }

  predicate Unused(s: Edge, id: nat)
  {
    id !in s.requests && id !in s.warming && id !in s.cw.calls
  }

  /** `honest` restricts downloads to the registry's own bytes. Requests and warm-ups come from the control-plane: a
      reference carries the digest of the registered bytes, and a warm-up carries those bytes. */
  predicate Enabled(tools: Tools, honest: bool, s: Edge, e: Event)
  {
    && InPhase(s, e)
    && match e
       case Arrived(id, src) =>
         && Unused(s, id)
         && (src.Ref? ==> KeyOf(src) in s.registry && src.hash == tools.hash(s.registry[KeyOf(src)]))
       case WarmBegan(id, n, v) => Unused(s, id) && Registry.Key(n, v) in s.registry
       case WarmEnded(id, m) =>
         && id in s.warming && id in s.cw.calls
         && (m.Some? ==> tools.compile(s.cw.calls[id].bytes) == m)
       case Downloaded(id, reply) =>
         var key := KeyOf(s.requests[id].source);
         reply.Some? && honest && key in s.registry ==> reply.value == s.registry[key]
       case CompileEnded(id, m) => m.Some? ==> tools.compile(s.cw.calls[id].bytes) == m
       case _ => true
  }

  function Move(s: Edge, id: nat, p: Phase): Edge
    requires id in s.requests
  {
    s.(requests := s.requests[id := s.requests[id].(phase := p)])
  }

  /** `active_tasks.saturating_sub(1)`, with the matching total. */
  function Settle(s: Edge, end: End): Edge
  {
    s.(active := SaturatingSub(s.active, 1),
       executed := s.executed + Bit(end == Executed),
       failed := s.failed + Bit(end != Executed))
  }

  function AfterAcquire(s: Edge, id: nat): Edge
    requires id in s.requests
  {
    if s.permits == 0 then Move(s, id, Rejected) else Move(s.(permits := s.permits - 1), id, Admitted)
  }

  function AfterResolve(s: Edge, id: nat): Edge
    requires id in s.requests
  {
    match s.requests[id].source
    case Inline(_) => Move(s, id, Running(None))
    case Unset => Move(Settle(s, NoSource), id, Leaving(NoSource))
    case Ref(n, v, _) =>
      var key := Registry.Key(n, v);
      var t := s.(cw := CR.Next(s.cw, CR.Looked(key)));
      match Lookup(s.cw.cache, key, s.cw.clock)
      case Hit(m) => Move(t, id, Running(Some(m)))
      case _ => Move(t, id, Downloading)
  }

  predicate HashAccepted(tools: Tools, expected: string, bytes: Bytes)
  {
    expected == "" || tools.hash(bytes) == expected
  }

  function AfterVerify(tools: Tools, s: Edge, id: nat): Edge
    requires id in s.requests && s.requests[id].source.Ref? && s.requests[id].phase.Verifying?
  {
    var src, bytes := s.requests[id].source, s.requests[id].phase.bytes;
    if !HashAccepted(tools, src.hash, bytes) then Move(Settle(s, BadHash), id, Leaving(BadHash))
    else
      var t := s.(cw := CR.Next(s.cw, CR.Began(id, KeyOf(src), bytes)));
      match Lookup(s.cw.cache, KeyOf(src), s.cw.clock)
      case Hit(m) => Move(t, id, Running(Some(m)))
      case _ => Move(t, id, Compiling)
  }

  function CacheEnd(id: nat, m: Option<Module>): CR.Event
  {
    match m
    case Some(c) => CR.Finished(id, c)
    case None => CR.Failed(id)
  }

  function Next(tools: Tools, s: Edge, e: Event): Edge
  {
    if !InPhase(s, e) then s
    else
      match e
      case Tick(ms) => s.(cw := CR.Next(s.cw, CR.Tick(ms)))
      case Uploaded(n, v, bytes) =>
        if Registry.Key(n, v) in s.registry then s else s.(registry := s.registry[Registry.Key(n, v) := bytes])
      case WarmBegan(id, n, v) =>
        var key := Registry.Key(n, v);
        if key !in s.registry then s
        else s.(cw := CR.Next(s.cw, CR.Began(id, key, s.registry[key])), warming := s.warming + {id})
      case WarmEnded(id, m) => s.(cw := CR.Next(s.cw, CacheEnd(id, m)), warming := s.warming - {id})
      case Arrived(id, src) => s.(requests := s.requests[id := Request(src, Arriving)])
      case Acquired(id) => AfterAcquire(s, id)
      case Counted(id) => Move(s.(active := s.active + 1), id, Resolving)
      case Resolved(id) => AfterResolve(s, id)
      case Downloaded(id, reply) => Move(s, id, if reply.Some? then Verifying(reply.value) else Leaving(DownloadError))
      case Verified(id) => AfterVerify(tools, s, id)
      case CompileEnded(id, m) =>
        Move(s.(cw := CR.Next(s.cw, CacheEnd(id, m))), id, if m.Some? then Running(m) else Leaving(CompileError))
      case Ran(id, ok) =>
        var end := if ok then Executed else ExecutionError;
        Move(Settle(s, end), id, Leaving(end))
      case Released(id) => Move(s.(permits := s.permits + 1), id, Left(s.requests[id].phase.end))
  }

  function At(tools: Tools, cfg: Config, r: EdgeRun): Edge
  {
    match r
    case Start => Genesis(cfg)
    case Then(p, e) => Next(tools, At(tools, cfg, p), e)
  }

  predicate Possible(tools: Tools, honest: bool, cfg: Config, r: EdgeRun)
  {
    r.Then? ==> Possible(tools, honest, cfg, r.before) && Enabled(tools, honest, At(tools, cfg, r.before), r.event)
  }

  // --- Accounting ---------------------------------------------------------------------------

  /** Past the increment and before the decrement. */
  predicate Busy(q: Request)
  {
    var p := q.phase;
    p.Resolving? || p.Downloading? || p.Verifying? || p.Compiling? || p.Running?
  }

  predicate EndedIn(q: Request, end: End)
  {
    (q.phase.Leaving? || q.phase.Left?) && q.phase.end == end
  }

  predicate HasLeaked(q: Request)
  {
    EndedIn(q, DownloadError) || EndedIn(q, CompileError)
  }

  predicate Succeeded(q: Request)
  {
    EndedIn(q, Executed)
  }

  predicate CountedFailed(q: Request)
  {
    EndedIn(q, ExecutionError) || EndedIn(q, BadHash) || EndedIn(q, NoSource)
  }

  predicate HoldsPermit(q: Request)
  {
    q.phase.Admitted? || Busy(q) || q.phase.Leaving?
  }

  ghost predicate Accounted(cfg: Config, s: Edge)
  {
    && s.active == Count(s.requests, Busy) + Count(s.requests, HasLeaked)
    && s.permits + Count(s.requests, HoldsPermit) == cfg.capacity
    && s.executed == Count(s.requests, Succeeded)
    && s.failed == Count(s.requests, CountedFailed)
  }

  /** What an event does to the counters and to at most one request. */
  ghost predicate CountersFollow(s: Edge, t: Edge, id: nat, q: Request)
  {
    && t.requests == s.requests[id := q]
    && t.active == s.active + Bit(Busy(q) || HasLeaked(q)) - Bit(id in s.requests && (Busy(s.requests[id]) || HasLeaked(s.requests[id])))
    && t.permits == s.permits - Bit(HoldsPermit(q)) + Bit(id in s.requests && HoldsPermit(s.requests[id]))
    && t.executed == s.executed + Bit(Succeeded(q)) - Bit(id in s.requests && Succeeded(s.requests[id]))
    && t.failed == s.failed + Bit(CountedFailed(q)) - Bit(id in s.requests && CountedFailed(s.requests[id]))
  }

  lemma CountIsPositive(m: map<nat, Request>, p: Request -> bool, id: nat)
    requires id in m && p(m[id])
    ensures Count(m, p) >= 1
  {
    assert id in Having(m, p);
    CountWithout(Having(m, p), id);
  }

  lemma AccountedFollows(cfg: Config, s: Edge, t: Edge, id: nat, q: Request)
    requires Accounted(cfg, s) && CountersFollow(s, t, id, q)
    ensures Accounted(cfg, t)
  {
    CountUpdate(s.requests, Busy, id, q);
    CountUpdate(s.requests, HasLeaked, id, q);
    CountUpdate(s.requests, HoldsPermit, id, q);
    CountUpdate(s.requests, Succeeded, id, q);
    CountUpdate(s.requests, CountedFailed, id, q);
  }

  predicate ConcernsRequest(e: Event)
  {
    !e.Tick? && !e.Uploaded? && !e.WarmBegan? && !e.WarmEnded?
  }

  lemma ResolveFollows(tools: Tools, honest: bool, s: Edge, e: Event)
    requires Enabled(tools, honest, s, e) && e.Resolved?
    requires e.id in s.requests && Busy(s.requests[e.id]) ==> s.active >= 1
    ensures var t := Next(tools, s, e); e.id in t.requests && CountersFollow(s, t, e.id, t.requests[e.id])
  {
  }

  lemma VerifyFollows(tools: Tools, honest: bool, s: Edge, e: Event)
    requires Enabled(tools, honest, s, e) && e.Verified?
    requires e.id in s.requests && Busy(s.requests[e.id]) ==> s.active >= 1
    ensures var t := Next(tools, s, e); e.id in t.requests && CountersFollow(s, t, e.id, t.requests[e.id])
  {
  }

  lemma AdmissionFollows(tools: Tools, honest: bool, s: Edge, e: Event)
    requires Enabled(tools, honest, s, e) && (e.Arrived? || e.Acquired? || e.Counted?)
    requires e.id in s.requests && Busy(s.requests[e.id]) ==> s.active >= 1
    ensures var t := Next(tools, s, e); e.id in t.requests && CountersFollow(s, t, e.id, t.requests[e.id])
  {
  }

  lemma FetchFollows(tools: Tools, honest: bool, s: Edge, e: Event)
    requires Enabled(tools, honest, s, e) && (e.Downloaded? || e.CompileEnded?)
    requires e.id in s.requests && Busy(s.requests[e.id]) ==> s.active >= 1
    ensures var t := Next(tools, s, e); e.id in t.requests && CountersFollow(s, t, e.id, t.requests[e.id])
  {
  }

  lemma EndFollows(tools: Tools, honest: bool, s: Edge, e: Event)
    requires Enabled(tools, honest, s, e) && (e.Ran? || e.Released?)
    requires e.id in s.requests && Busy(s.requests[e.id]) ==> s.active >= 1
    ensures var t := Next(tools, s, e); e.id in t.requests && CountersFollow(s, t, e.id, t.requests[e.id])
  {
  }

  lemma StepFollows(tools: Tools, honest: bool, s: Edge, e: Event)
    requires Enabled(tools, honest, s, e) && ConcernsRequest(e)
    requires e.id in s.requests && Busy(s.requests[e.id]) ==> s.active >= 1
    ensures var t := Next(tools, s, e); e.id in t.requests && CountersFollow(s, t, e.id, t.requests[e.id])
  {
    if e.Resolved? {
      ResolveFollows(tools, honest, s, e);
    } else if e.Verified? {
      VerifyFollows(tools, honest, s, e);
    } else if e.Arrived? || e.Acquired? || e.Counted? {
      AdmissionFollows(tools, honest, s, e);
    } else if e.Downloaded? || e.CompileEnded? {
      FetchFollows(tools, honest, s, e);
    } else {
      EndFollows(tools, honest, s, e);
    }
  }

  lemma StepAccounted(tools: Tools, honest: bool, cfg: Config, s: Edge, e: Event)
    requires Enabled(tools, honest, s, e) && Accounted(cfg, s)
    ensures Accounted(cfg, Next(tools, s, e))
  {
    if ConcernsRequest(e) {
      if e.id in s.requests && Busy(s.requests[e.id]) { CountIsPositive(s.requests, Busy, e.id); }
      StepFollows(tools, honest, s, e);
      AccountedFollows(cfg, s, Next(tools, s, e), e.id, Next(tools, s, e).requests[e.id]);
    }
  }

  /** In every interleaving, `active_tasks` is the running requests plus those that ended in a download or compile error,
      the permits out are the requests holding one, and the totals count the other endings. */
  lemma {:induction false} EdgeAccounting(tools: Tools, honest: bool, cfg: Config, r: EdgeRun)
    requires Possible(tools, honest, cfg, r)
    ensures Accounted(cfg, At(tools, cfg, r))
  {
    if r.Then? {
      EdgeAccounting(tools, honest, cfg, r.before);
      StepAccounted(tools, honest, cfg, At(tools, cfg, r.before), r.event);
    } else {
      var m := Genesis(cfg).requests;
      assert Having(m, Busy) == Having(m, HasLeaked) == Having(m, HoldsPermit) == Having(m, Succeeded) == Having(m, CountedFailed) == {};
    }
  }

  /** The decrement never meets a zero counter. */
  lemma NeverSaturates(tools: Tools, honest: bool, cfg: Config, r: EdgeRun, id: nat)
    requires Possible(tools, honest, cfg, r) && id in At(tools, cfg, r).requests && Busy(At(tools, cfg, r).requests[id])
    ensures At(tools, cfg, r).active >= 1
  {
    EdgeAccounting(tools, honest, cfg, r);
    CountIsPositive(At(tools, cfg, r).requests, Busy, id);
  }

  /** The counter is the number of running requests exactly when no request has ended in a download or compile error, and
      the running requests never exceed the semaphore. */
  lemma ActiveIsRunning(tools: Tools, honest: bool, cfg: Config, r: EdgeRun)
    requires Possible(tools, honest, cfg, r)
    ensures var s := At(tools, cfg, r);
      && (s.active == Count(s.requests, Busy) <==> forall id | id in s.requests :: !HasLeaked(s.requests[id]))
      && Count(s.requests, Busy) <= Count(s.requests, HoldsPermit) <= cfg.capacity
  {
    EdgeAccounting(tools, honest, cfg, r);
    var m := At(tools, cfg, r).requests;
    assert Count(m, HasLeaked) == 0 <==> Having(m, HasLeaked) == {};
    if id :| id in m && HasLeaked(m[id]) { CountIsPositive(m, HasLeaked, id); }
    SubsetCount(Having(m, Busy), Having(m, HoldsPermit));
  }

  lemma SubsetCount(a: set<nat>, b: set<nat>)
    requires a <= b
    ensures |a| <= |b|
  {
    assert b == a + (b - a);
  }
}
