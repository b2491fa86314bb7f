/** The edge gRPC server as an object: one `execute_task` call with its early returns, and `health`. */
module EdgeServer {
  import opened Common
  import opened ModuleCache
  import EN = EdgeNode
  import CR = CacheRuns
  import ModuleAgreement

  /** `u32`, the width of the reported task count. */
  const U32 := 0x1_0000_0000

  datatype Reply =
    | ResourceExhausted
    | DownloadFailed
    | HashMismatch
    | CompileFailed
    | InvalidArgument
    | Response(success: bool, executionTimeMs: nat)

  /** What the rest of the world answers during one call. */
  datatype Answers = Answers(download: Option<Bytes>, run: Option<nat>)

  // --- One call as a function of what it meets ----------------------------------------------

  function RanTo(run: Option<nat>): Reply
  {
    if run.Some? then Response(true, run.value) else Response(false, 0)
  }

  /** Cache, or else download, verify and compile. */
  function ResolvedTo(tools: EN.Tools, c: Cache, source: EN.Source, now: nat, download: Option<Bytes>): Result<Module, Reply>
    requires source.Ref?
  {
    match Lookup(c, EN.KeyOf(source), now)
    case Hit(m) => Ok(m)
    case _ =>
      if download.None? then Err(DownloadFailed)
      else if !EN.HashAccepted(tools, source.hash, download.value) then Err(HashMismatch)
      else match tools.compile(download.value) case Some(m) => Ok(m) case None => Err(CompileFailed)
  }

  function CacheAfterResolve(tools: EN.Tools, c: Cache, source: EN.Source, now: nat, download: Option<Bytes>): Cache
    requires source.Ref?
  {
    var key := EN.KeyOf(source);
    var looked := AfterLookup(c, key, now);
    if Lookup(c, key, now).Hit? || download.None? || !EN.HashAccepted(tools, source.hash, download.value) then looked
    else
      var begun := AfterBegin(looked, key, now);
      match tools.compile(download.value)
      case Some(m) => AfterInsert(begun, key, m, |download.value|, now)
      case None => begun
  }

  function CallReply(tools: EN.Tools, c: Cache, source: EN.Source, now: nat, permits: nat, answers: Answers): Reply
  {
    if permits == 0 then ResourceExhausted
    else
      match source
      case Unset => InvalidArgument
      case Inline(_) => RanTo(answers.run)
      case Ref(_, _, _) =>
        match ResolvedTo(tools, c, source, now, answers.download)
        case Ok(_) => RanTo(answers.run)
        case Err(error) => error
  }

  function CacheAfterCall(tools: EN.Tools, c: Cache, source: EN.Source, now: nat, permits: nat, answers: Answers): Cache
  {
    if permits == 0 || !source.Ref? then c else CacheAfterResolve(tools, c, source, now, answers.download)
  }

  /** The compiled module an executed request ran; inline bytes are compiled by the sandbox. */
  function ModuleRun(tools: EN.Tools, c: Cache, source: EN.Source, now: nat, answers: Answers): Option<Module>
  {
    if !source.Ref? then None
    else match ResolvedTo(tools, c, source, now, answers.download) case Ok(m) => Some(m) case Err(_) => None
  }

  /** A permit is free, and the reference's key has no entry younger than the ttl. */
  ghost predicate Fetches(c: Cache, source: EN.Source, now: nat, permits: nat)
  {
    && permits > 0 && source.Ref?
    && forall e | e in c.lru && e.key == source.name + ":" + source.version :: SaturatingSub(now, e.cachedAt) >= c.ttl
  }

  predicate DigestMatches(tools: EN.Tools, source: EN.Source, bytes: Bytes)
    requires source.Ref?
  {
    source.hash == "" || tools.hash(bytes) == source.hash
  }

  /** Which reply a call gives, and when: a failed download, a digest mismatch or a failed compile only when the node had to
      fetch, each exactly when that step is the one that failed; the guest's outcome in all other admitted calls. */
  lemma {:induction false} RepliesExactly(tools: EN.Tools, c: Cache, source: EN.Source, now: nat, permits: nat, answers: Answers)
    requires Valid(c)
    ensures var reply, fetches := CallReply(tools, c, source, now, permits, answers), Fetches(c, source, now, permits);
      var download := answers.download;
      var failed :=
        fetches && (download.None? || !DigestMatches(tools, source, download.value) || tools.compile(download.value).None?);
      && (reply == ResourceExhausted <==> permits == 0)
      && (reply == InvalidArgument <==> permits > 0 && source.Unset?)
      && (reply == DownloadFailed <==> fetches && download.None?)
      && (reply == HashMismatch <==> fetches && download.Some? && !DigestMatches(tools, source, download.value))
      && (reply == CompileFailed <==>
            && fetches && download.Some? && DigestMatches(tools, source, download.value)
            && tools.compile(download.value).None?)
      && (reply == Response(false, 0) <==> permits > 0 && !source.Unset? && !failed && answers.run.None?)
      && (forall ms: nat :: reply == Response(true, ms) <==> permits > 0 && !source.Unset? && !failed && answers.run == Some(ms))
  {
    if source.Ref? {
      assert EN.KeyOf(source) == source.name + ":" + source.version;
      LiveIsFresh(c, EN.KeyOf(source), now);
    }
  }

  lemma LiveIsFresh(c: Cache, key: string, now: nat)
    requires Valid(c)
    ensures Lookup(c, key, now).Hit? <==> exists e :: e in c.lru && e.key == key && SaturatingSub(now, e.cachedAt) < c.ttl
  {
    if e :| e in c.lru && e.key == key && SaturatingSub(now, e.cachedAt) < c.ttl {
      assert Has(c.lru, key) && Find(c.lru, key) == e;
    }
  }

  predicate Leaks(r: Reply)
  {
    r.DownloadFailed? || r.CompileFailed?
  }

  predicate Executes(r: Reply)
  {
    r.Response? && r.success
  }

  predicate Fails(r: Reply)
  {
    r.HashMismatch? || r.InvalidArgument? || (r.Response? && !r.success)
  }

  class Server {
    const tools: EN.Tools
    const cache: CompiledModuleCache
    var permits: nat
    var activeTasks: nat
    var totalExecuted: nat
    var totalFailed: nat
    var totalExecutionTimeMs: nat

    constructor (tools: EN.Tools, cache: CompiledModuleCache, maxConcurrentTasks: nat)
      ensures this.tools == tools && this.cache == cache && permits == maxConcurrentTasks
      ensures activeTasks == totalExecuted == totalFailed == totalExecutionTimeMs == 0
    {
      this.tools, this.cache, permits := tools, cache, maxConcurrentTasks;
      activeTasks, totalExecuted, totalFailed, totalExecutionTimeMs := 0, 0, 0, 0;
    }

    method Health() returns (active: nat)
      ensures active == activeTasks % 0x1_0000_0000 && (activeTasks < 0x1_0000_0000 <==> active == activeTasks)
    {
      active := activeTasks % U32;
    }

    /** One call on its own. Every return gives the permit back; the active count comes back too, except after a download
        or compile error; each return but those and a rejection adds to exactly one total. */
    method ExecuteTask(source: EN.Source, now: nat, answers: Answers) returns (reply: Reply, ran: Option<Module>)
      requires Valid(cache.View())
      modifies this, cache
      ensures reply == CallReply(tools, old(cache.View()), source, now, old(permits), answers)
      ensures Valid(cache.View())
      ensures cache.View() == CacheAfterCall(tools, old(cache.View()), source, now, old(permits), answers)
      ensures permits == old(permits)
      ensures activeTasks == old(activeTasks) + Bit(Leaks(reply))
      ensures totalExecuted == old(totalExecuted) + Bit(Executes(reply))
      ensures totalFailed == old(totalFailed) + Bit(Fails(reply))
      ensures totalExecutionTimeMs == old(totalExecutionTimeMs) + if Executes(reply) then reply.executionTimeMs else 0
      ensures ran == if reply.Response? then ModuleRun(tools, old(cache.View()), source, now, answers) else None
    {
      ran := None;
      if permits == 0 {
        return ResourceExhausted, None;
      }
      permits := permits - 1;
      activeTasks := activeTasks + 1;

      match source {
        case Unset =>
          RecordRefusal();
          permits := permits + 1;
          return InvalidArgument, None;
        case Inline(_) =>
        case Ref(_, _, _) =>
          var resolved := ResolveModule(source, now, answers.download);
          if resolved.Err? {
            if resolved.error == HashMismatch {
              RecordRefusal();
            }
            permits := permits + 1;
            return resolved.error, None;
          }
          ran := Some(resolved.value);
      }

      reply := RecordResult(answers.run);
      permits := permits + 1;
    }

    /** The write-locked block before a digest mismatch or a missing source is answered. */
    method RecordRefusal()
      requires activeTasks > 0
      modifies this`activeTasks, this`totalFailed
      ensures activeTasks == old(activeTasks) - 1 && totalFailed == old(totalFailed) + 1
    {
      activeTasks := SaturatingSub(activeTasks, 1);
      totalFailed := totalFailed + 1;
    }

    /** The last write-locked block: the decrement, and the total the result belongs to. */
    method RecordResult(run: Option<nat>) returns (reply: Reply)
      requires activeTasks > 0
      modifies this`activeTasks, this`totalExecuted, this`totalFailed, this`totalExecutionTimeMs
      ensures reply == RanTo(run) && activeTasks == old(activeTasks) - 1
      ensures totalExecuted == old(totalExecuted) + Bit(Executes(reply)) && totalFailed == old(totalFailed) + Bit(Fails(reply))
      ensures totalExecutionTimeMs == old(totalExecutionTimeMs) + reply.executionTimeMs
    {
      activeTasks := SaturatingSub(activeTasks, 1);
      match run {
        case Some(ms) =>
          totalExecuted := totalExecuted + 1;
          totalExecutionTimeMs := totalExecutionTimeMs + ms;
          reply := Response(true, ms);
        case None =>
          totalFailed := totalFailed + 1;
          reply := Response(false, 0);
      }
    }

    method ResolveModule(source: EN.Source, now: nat, download: Option<Bytes>) returns (resolved: Result<Module, Reply>)
      requires source.Ref? && Valid(cache.View())
      modifies cache
      ensures Valid(cache.View())
      ensures resolved == ResolvedTo(tools, old(cache.View()), source, now, download)
      ensures cache.View() == CacheAfterResolve(tools, old(cache.View()), source, now, download)
    {
      var key := EN.KeyOf(source);
      LookupKeepsValid(cache.View(), key, now);
      var found := cache.GetCached(key, now);
      if found.Some? {
        return Ok(found.value);
      }
      if download.None? {
        return Err(DownloadFailed);
      }
      var wasm := download.value;
      if source.hash != "" && tools.hash(wasm) != source.hash {
        return Err(HashMismatch);
      }
      LookupKeepsValid(cache.View(), key, now);
      MissStaysMissed(old(cache.View()), key, now);
      found := cache.BeginGetOrCompile(key, now);
      if found.None? {
        found := tools.compile(wasm);
        if found.None? {
          return Err(CompileFailed);
        }
        InsertKeepsValid(cache.View(), key, found.value, |wasm|, now);
        cache.FinishGetOrCompile(key, wasm, found.value, now);
      }
      resolved := Ok(found.value);
    }
  }

  lemma MissStaysMissed(c: Cache, key: string, now: nat)
    requires Valid(c) && !Lookup(c, key, now).Hit?
    ensures Lookup(AfterLookup(c, key, now), key, now) == Miss
  {
  }

  // --- An uninterrupted call is a run of the node -------------------------------------------

  function EndOf(reply: Reply): EN.Phase
  {
    match reply
    case ResourceExhausted => EN.Rejected
    case DownloadFailed => EN.Left(EN.DownloadError)
    case CompileFailed => EN.Left(EN.CompileError)
    case HashMismatch => EN.Left(EN.BadHash)
    case InvalidArgument => EN.Left(EN.NoSource)
    case Response(ok, _) => EN.Left(if ok then EN.Executed else EN.ExecutionError)
  }

  /** The node after one whole call: the same accounting as `Server.ExecuteTask`. */
  function AfterCall(s: EN.Edge, id: nat, source: EN.Source, reply: Reply, cache: Cache): EN.Edge
  {
    s.(active := s.active + Bit(Leaks(reply)),
       executed := s.executed + Bit(Executes(reply)),
       failed := s.failed + Bit(Fails(reply)),
       requests := s.requests[id := EN.Request(source, EndOf(reply))],
       cw := s.cw.(cache := cache))
  }

  /** A permit taken and the request counted, at phase `p`. */
  function Inside(s: EN.Edge, id: nat, source: EN.Source, p: EN.Phase, cache: Cache): EN.Edge
    requires s.permits > 0
  {
    s.(permits := s.permits - 1, active := s.active + 1,
       requests := s.requests[id := EN.Request(source, p)], cw := s.cw.(cache := cache))
  }

  /** What stays fixed during one call: the node, and the run the call begins in. */
  datatype Call = Call(tools: EN.Tools, honest: bool, cfg: EN.Config, start: EN.EdgeRun, id: nat, source: EN.Source)

  ghost predicate Ends(k: Call, r: EN.EdgeRun, s: EN.Edge)
  {
    EN.Possible(k.tools, k.honest, k.cfg, r) && Extends(k.start, r) && EN.At(k.tools, k.cfg, r) == s
  }

  /** Some continuation of the call's first run leads to `s`. */
  ghost predicate Reaches(k: Call, s: EN.Edge)
  {
    exists r :: Ends(k, r, s)
  }

  lemma Step(k: Call, s: EN.Edge, e: EN.Event)
    requires Reaches(k, s) && EN.Enabled(k.tools, k.honest, s, e)
    ensures Reaches(k, EN.Next(k.tools, s, e))
  {
    var r :| Ends(k, r, s);
    assert Ends(k, Then(r, e), EN.Next(k.tools, s, e));
  }

  lemma Overwrite(m: map<nat, EN.Request>, id: nat, p: EN.Request, q: EN.Request)
    ensures m[id := p][id := q] == m[id := q]
  {
  }

  lemma Enter(k: Call, s: EN.Edge)
    requires Reaches(k, s) && EN.Enabled(k.tools, k.honest, s, EN.Arrived(k.id, k.source))
    ensures Reaches(k, if s.permits == 0 then AfterCall(s, k.id, k.source, ResourceExhausted, s.cw.cache)
                       else Inside(s, k.id, k.source, EN.Resolving, s.cw.cache))
  {
    var t := EN.Next(k.tools, s, EN.Arrived(k.id, k.source));
    Step(k, s, EN.Arrived(k.id, k.source));
    Overwrite(s.requests, k.id, EN.Request(k.source, EN.Arriving), EN.Request(k.source, EN.Rejected));
    Overwrite(s.requests, k.id, EN.Request(k.source, EN.Arriving), EN.Request(k.source, EN.Admitted));
    Step(k, t, EN.Acquired(k.id));
    if s.permits > 0 {
      Overwrite(s.requests, k.id, EN.Request(k.source, EN.Admitted), EN.Request(k.source, EN.Resolving));
      Step(k, EN.Next(k.tools, t, EN.Acquired(k.id)), EN.Counted(k.id));
    }
  }

  /** The decrement done and one total moved, at the point of returning. */
  function Settled(s: EN.Edge, id: nat, source: EN.Source, end: EN.End, cache: Cache): EN.Edge
    requires s.permits > 0
  {
    EN.Settle(Inside(s, id, source, EN.Leaving(end), cache), end)
  }

  function Leaving(k: Call, s: EN.Edge, end: EN.End, cache: Cache): EN.Edge
    requires s.permits > 0
  {
    if end == EN.DownloadError || end == EN.CompileError then Inside(s, k.id, k.source, EN.Leaving(end), cache)
    else Settled(s, k.id, k.source, end, cache)
  }

  lemma Leave(k: Call, s: EN.Edge, end: EN.End, reply: Reply, cache: Cache)
    requires s.permits > 0 && EndOf(reply) == EN.Left(end) && Reaches(k, Leaving(k, s, end, cache))
    ensures Reaches(k, AfterCall(s, k.id, k.source, reply, cache))
  {
    Overwrite(s.requests, k.id, EN.Request(k.source, EN.Leaving(end)), EN.Request(k.source, EN.Left(end)));
    Step(k, Leaving(k, s, end, cache), EN.Released(k.id));
    assert EN.Next(k.tools, Leaving(k, s, end, cache), EN.Released(k.id)) == AfterCall(s, k.id, k.source, reply, cache);
  }

  lemma Finish(k: Call, s: EN.Edge, m: Option<Module>, run: Option<nat>, cache: Cache)
    requires s.permits > 0 && Reaches(k, Inside(s, k.id, k.source, EN.Running(m), cache))
    ensures Reaches(k, AfterCall(s, k.id, k.source, RanTo(run), cache))
  {
    var end := if run.Some? then EN.Executed else EN.ExecutionError;
    var t := Inside(s, k.id, k.source, EN.Running(m), cache);
    Overwrite(s.requests, k.id, EN.Request(k.source, EN.Running(m)), EN.Request(k.source, EN.Leaving(end)));
    Step(k, t, EN.Ran(k.id, run.Some?));
    assert EN.Next(k.tools, t, EN.Ran(k.id, run.Some?)) == Leaving(k, s, end, cache);
    Leave(k, s, end, RanTo(run), cache);
  }

  lemma Look(k: Call, s: EN.Edge)
    requires s.permits > 0 && k.source.Ref? && Reaches(k, Inside(s, k.id, k.source, EN.Resolving, s.cw.cache))
    ensures var key := EN.KeyOf(k.source);
      var look, looked := Lookup(s.cw.cache, key, s.cw.clock), AfterLookup(s.cw.cache, key, s.cw.clock);
      Reaches(k, Inside(s, k.id, k.source, if look.Hit? then EN.Running(Some(look.compiled)) else EN.Downloading, looked))
  {
    var t := Inside(s, k.id, k.source, EN.Resolving, s.cw.cache);
    var key := EN.KeyOf(k.source);
    var look, looked := Lookup(s.cw.cache, key, s.cw.clock), AfterLookup(s.cw.cache, key, s.cw.clock);
    var p := if look.Hit? then EN.Running(Some(look.compiled)) else EN.Downloading;
    Overwrite(s.requests, k.id, EN.Request(k.source, EN.Resolving), EN.Request(k.source, p));
    Step(k, t, EN.Resolved(k.id));
    assert EN.Next(k.tools, t, EN.Resolved(k.id)) == Inside(s, k.id, k.source, p, looked);
  }

  lemma Download(k: Call, s: EN.Edge, download: Option<Bytes>, cache: Cache)
    requires s.permits > 0 && k.source.Ref? && Reaches(k, Inside(s, k.id, k.source, EN.Downloading, cache))
    requires k.honest && download.Some? && EN.KeyOf(k.source) in s.registry ==> download.value == s.registry[EN.KeyOf(k.source)]
    ensures Reaches(k, Inside(s, k.id, k.source,
              if download.Some? then EN.Verifying(download.value) else EN.Leaving(EN.DownloadError), cache))
  {
    var t := Inside(s, k.id, k.source, EN.Downloading, cache);
    var p := if download.Some? then EN.Verifying(download.value) else EN.Leaving(EN.DownloadError);
    Overwrite(s.requests, k.id, EN.Request(k.source, EN.Downloading), EN.Request(k.source, p));
    Step(k, t, EN.Downloaded(k.id, download));
    assert EN.Next(k.tools, t, EN.Downloaded(k.id, download)) == Inside(s, k.id, k.source, p, cache);
  }

  lemma Mismatch(k: Call, s: EN.Edge, wasm: Bytes, cache: Cache)
    requires s.permits > 0 && k.source.Ref? && !EN.HashAccepted(k.tools, k.source.hash, wasm)
    requires Reaches(k, Inside(s, k.id, k.source, EN.Verifying(wasm), cache))
    ensures Reaches(k, Settled(s, k.id, k.source, EN.BadHash, cache))
  {
    var t := Inside(s, k.id, k.source, EN.Verifying(wasm), cache);
    Overwrite(s.requests, k.id, EN.Request(k.source, EN.Verifying(wasm)), EN.Request(k.source, EN.Leaving(EN.BadHash)));
    Step(k, t, EN.Verified(k.id));
    assert EN.Next(k.tools, t, EN.Verified(k.id)) == Settled(s, k.id, k.source, EN.BadHash, cache);
  }

  /** Inside, with this call's compilation in flight. */
  function InFlight(k: Call, s: EN.Edge, wasm: Bytes, cache: Cache): EN.Edge
    requires s.permits > 0 && k.source.Ref?
  {
    var t := Inside(s, k.id, k.source, EN.Compiling, cache);
    t.(cw := t.cw.(calls := s.cw.calls[k.id := CR.Call(EN.KeyOf(k.source), wasm)]))
  }

  lemma BeginCompile(k: Call, s: EN.Edge, wasm: Bytes, cache: Cache)
    requires s.permits > 0 && k.source.Ref? && EN.HashAccepted(k.tools, k.source.hash, wasm)
    requires Reaches(k, Inside(s, k.id, k.source, EN.Verifying(wasm), cache))
    requires Lookup(cache, EN.KeyOf(k.source), s.cw.clock) == Miss
    ensures Reaches(k, InFlight(k, s, wasm, AfterBegin(cache, EN.KeyOf(k.source), s.cw.clock)))
  {
    var t := Inside(s, k.id, k.source, EN.Verifying(wasm), cache);
    Overwrite(s.requests, k.id, EN.Request(k.source, EN.Verifying(wasm)), EN.Request(k.source, EN.Compiling));
    Step(k, t, EN.Verified(k.id));
    assert EN.Next(k.tools, t, EN.Verified(k.id)) == InFlight(k, s, wasm, AfterBegin(cache, EN.KeyOf(k.source), s.cw.clock));
  }

  function Compiled(k: Call, s: EN.Edge, wasm: Bytes, cache: Cache): EN.Edge
    requires s.permits > 0 && k.source.Ref?
  {
    match k.tools.compile(wasm)
    case Some(m) =>
      Inside(s, k.id, k.source, EN.Running(Some(m)), AfterInsert(cache, EN.KeyOf(k.source), m, |wasm|, s.cw.clock))
    case None => Inside(s, k.id, k.source, EN.Leaving(EN.CompileError), cache)
  }

  lemma EndCompile(k: Call, s: EN.Edge, wasm: Bytes, cache: Cache)
    requires s.permits > 0 && k.source.Ref? && k.id !in s.cw.calls && Reaches(k, InFlight(k, s, wasm, cache))
    ensures Reaches(k, Compiled(k, s, wasm, cache))
  {
    var t, m := InFlight(k, s, wasm, cache), k.tools.compile(wasm);
    var p := if m.Some? then EN.Running(m) else EN.Leaving(EN.CompileError);
    Overwrite(s.requests, k.id, EN.Request(k.source, EN.Compiling), EN.Request(k.source, p));
    assert s.cw.calls[k.id := CR.Call(EN.KeyOf(k.source), wasm)] - {k.id} == s.cw.calls;
    Step(k, t, EN.CompileEnded(k.id, m));
    assert EN.Next(k.tools, t, EN.CompileEnded(k.id, m)) == Compiled(k, s, wasm, cache);
  }

  function EndOfError(error: Reply): EN.End
  {
    if error.HashMismatch? then EN.BadHash else if error.DownloadFailed? then EN.DownloadError else EN.CompileError
  }

  /** Where resolution leaves the call. */
  function Resolved(k: Call, s: EN.Edge, resolved: Result<Module, Reply>, cache: Cache): EN.Edge
    requires s.permits > 0
  {
    match resolved
    case Ok(m) => Inside(s, k.id, k.source, EN.Running(Some(m)), cache)
    case Err(error) => Leaving(k, s, EndOfError(error), cache)
  }

  lemma Resolve(k: Call, s: EN.Edge, download: Option<Bytes>)
    requires s.permits > 0 && k.source.Ref? && k.id !in s.cw.calls && Valid(s.cw.cache)
    requires Reaches(k, Inside(s, k.id, k.source, EN.Resolving, s.cw.cache))
    requires k.honest && download.Some? && EN.KeyOf(k.source) in s.registry ==> download.value == s.registry[EN.KeyOf(k.source)]
    ensures Reaches(k, Resolved(k, s, ResolvedTo(k.tools, s.cw.cache, k.source, s.cw.clock, download),
              CacheAfterResolve(k.tools, s.cw.cache, k.source, s.cw.clock, download)))
  {
    var key := EN.KeyOf(k.source);
    Look(k, s);
    if !Lookup(s.cw.cache, key, s.cw.clock).Hit? {
      var looked := AfterLookup(s.cw.cache, key, s.cw.clock);
      Download(k, s, download, looked);
      if download.Some? {
        if EN.HashAccepted(k.tools, k.source.hash, download.value) {
          MissStaysMissed(s.cw.cache, key, s.cw.clock);
          BeginCompile(k, s, download.value, looked);
          EndCompile(k, s, download.value, AfterBegin(looked, key, s.cw.clock));
        } else {
          Mismatch(k, s, download.value, looked);
        }
      }
    }
  }

  lemma Refuse(k: Call, s: EN.Edge)
    requires s.permits > 0 && k.source.Unset? && Reaches(k, Inside(s, k.id, k.source, EN.Resolving, s.cw.cache))
    ensures Reaches(k, AfterCall(s, k.id, k.source, InvalidArgument, s.cw.cache))
  {
    var t := Inside(s, k.id, k.source, EN.Resolving, s.cw.cache);
    Overwrite(s.requests, k.id, EN.Request(k.source, EN.Resolving), EN.Request(k.source, EN.Leaving(EN.NoSource)));
    Step(k, t, EN.Resolved(k.id));
    assert EN.Next(k.tools, t, EN.Resolved(k.id)) == Leaving(k, s, EN.NoSource, s.cw.cache);
    Leave(k, s, EN.NoSource, InvalidArgument, s.cw.cache);
  }

  lemma Inlined(k: Call, s: EN.Edge)
    requires s.permits > 0 && k.source.Inline? && Reaches(k, Inside(s, k.id, k.source, EN.Resolving, s.cw.cache))
    ensures Reaches(k, Inside(s, k.id, k.source, EN.Running(None), s.cw.cache))
  {
    var t := Inside(s, k.id, k.source, EN.Resolving, s.cw.cache);
    Overwrite(s.requests, k.id, EN.Request(k.source, EN.Resolving), EN.Request(k.source, EN.Running(None)));
    Step(k, t, EN.Resolved(k.id));
    assert EN.Next(k.tools, t, EN.Resolved(k.id)) == Inside(s, k.id, k.source, EN.Running(None), s.cw.cache);
  }

  /** The request is running `m`, or its own inline bytes when there is none. */
  ghost predicate Runs(k: Call, r: EN.EdgeRun, m: Option<Module>)
  {
    var s := EN.At(k.tools, k.cfg, r);
    k.id in s.requests && s.requests[k.id] == EN.Request(k.source, EN.Running(m))
  }

  /** From the point where the module runs, the call goes on to its end. */
  lemma RunToEnd(k: Call, s: EN.Edge, m: Option<Module>, run: Option<nat>, cache: Cache) returns (r: EN.EdgeRun, running: EN.EdgeRun)
    requires s.permits > 0 && Reaches(k, Inside(s, k.id, k.source, EN.Running(m), cache))
    ensures Ends(k, r, AfterCall(s, k.id, k.source, RanTo(run), cache)) && Extends(running, r) && Runs(k, running, m)
  {
    running :| Ends(k, running, Inside(s, k.id, k.source, EN.Running(m), cache));
    var k' := k.(start := running);
    assert Ends(k', running, Inside(s, k.id, k.source, EN.Running(m), cache));
    Finish(k', s, m, run, cache);
    r :| Ends(k', r, AfterCall(s, k.id, k.source, RanTo(run), cache));
    ExtendsFurther(k.start, running, r);
  }

  /** The run carries the whole call out, through `running` if a module was run, to exactly the reply, the accounting and
      the cache of `Server.ExecuteTask`. */
  ghost predicate CarriesOut(k: Call, answers: Answers, r: EN.EdgeRun, running: EN.EdgeRun)
  {
    var s := EN.At(k.tools, k.cfg, k.start);
    var reply := CallReply(k.tools, s.cw.cache, k.source, s.cw.clock, s.permits, answers);
    var cache := CacheAfterCall(k.tools, s.cw.cache, k.source, s.cw.clock, s.permits, answers);
    && Ends(k, r, AfterCall(s, k.id, k.source, reply, cache))
    && (reply.Response? ==>
          Extends(running, r) && Runs(k, running, ModuleRun(k.tools, s.cw.cache, k.source, s.cw.clock, answers)))
  }

  /** One call with nothing in between is a run of the node's machine. */
  lemma {:induction false} CallIsRun(k: Call, answers: Answers)
    requires EN.Possible(k.tools, k.honest, k.cfg, k.start)
    requires var s := EN.At(k.tools, k.cfg, k.start);
      && EN.Enabled(k.tools, k.honest, s, EN.Arrived(k.id, k.source))
      && (k.honest && k.source.Ref? && answers.download.Some? ==> answers.download.value == s.registry[EN.KeyOf(k.source)])
    ensures exists r, running :: CarriesOut(k, answers, r, running)
  {
    var s := EN.At(k.tools, k.cfg, k.start);
    assert Ends(k, k.start, s);
    ModuleAgreement.AlwaysSound(k.tools, k.honest, k.cfg, k.start);
    Enter(k, s);
    var r, running := k.start, k.start;
    if s.permits == 0 {
      r :| Ends(k, r, AfterCall(s, k.id, k.source, ResourceExhausted, s.cw.cache));
    } else {
      match k.source {
        case Unset =>
          Refuse(k, s);
          r :| Ends(k, r, AfterCall(s, k.id, k.source, InvalidArgument, s.cw.cache));
        case Inline(_) =>
          Inlined(k, s);
          r, running := RunToEnd(k, s, None, answers.run, s.cw.cache);
        case Ref(_, _, _) =>
          r, running := RunReference(k, s, answers);
      }
    }
    assert CarriesOut(k, answers, r, running);
  }

  lemma RunReference(k: Call, s: EN.Edge, answers: Answers) returns (r: EN.EdgeRun, running: EN.EdgeRun)
    requires s.permits > 0 && k.source.Ref? && k.id !in s.cw.calls && Valid(s.cw.cache)
    requires Reaches(k, Inside(s, k.id, k.source, EN.Resolving, s.cw.cache))
    requires k.honest && answers.download.Some? && EN.KeyOf(k.source) in s.registry ==>
      answers.download.value == s.registry[EN.KeyOf(k.source)]
    ensures Ends(k, r, AfterCall(s, k.id, k.source,
              CallReply(k.tools, s.cw.cache, k.source, s.cw.clock, s.permits, answers),
              CacheAfterCall(k.tools, s.cw.cache, k.source, s.cw.clock, s.permits, answers)))
    ensures var resolved := ResolvedTo(k.tools, s.cw.cache, k.source, s.cw.clock, answers.download);
      resolved.Ok? ==> Extends(running, r) && Runs(k, running, Some(resolved.value))
  {
    var cache := CacheAfterResolve(k.tools, s.cw.cache, k.source, s.cw.clock, answers.download);
    Resolve(k, s, answers.download);
    match ResolvedTo(k.tools, s.cw.cache, k.source, s.cw.clock, answers.download) {
      case Ok(m) => r, running := RunToEnd(k, s, Some(m), answers.run, cache);
      case Err(error) =>
        running := k.start;
        Leave(k, s, EndOfError(error), error, cache);
        r :| Ends(k, r, AfterCall(s, k.id, k.source, error, cache));
    }
  }
}
