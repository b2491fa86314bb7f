/** What selection answers in every reachable state, judged by the outcomes logged in the run. */
module SelectionRuns {
  import opened Common
  import opened Scheduling
  import opened DispatchLoop
  import opened ControlPlane
  import opened DispatchRuns
  import opened NodeTable
  import CB = CircuitBreakers

  /** A dispatch records an outcome of `node`. */
  predicate Records(w: World, e: Event, node: string, success: bool)
  {
    && e.Went? && e.id in w.runs
    && (if success then w.runs[e.id].pc.RecordingSuccess? else w.runs[e.id].pc.RecordingFailure?)
    && w.runs[e.id].pc.node == node
  }

  /** What an event adds to the calls made on `node`'s breaker. */
  function Logged(w: World, e: Event, node: string, h: CB.History): CB.History
  {
    if e.Chosen? && e.id in w.runs then Then(h, CB.Ask(w.clock))
    else if Records(w, e, node, true) then Then(h, CB.Success(w.clock))
    else if Records(w, e, node, false) then Then(h, CB.Failure(w.clock))
    else h
  }

  /** The calls made on `node`'s breaker: every selection asks it, and each recorded outcome reports to it. */
  function HistoryOf(strategy: string, r: Interleaving, node: string): CB.History
  {
    if r.Start? then Start else Logged(At(strategy, r.before), r.event, node, HistoryOf(strategy, r.before, node))
  }

  lemma EffectOnBreakers(s: AppState, id: string, d: Dispatch, now: nat, node: string)
    ensures BreakerOf(Effect(s, id, d, now).breakers, node) ==
      if d.pc.RecordingSuccess? && d.pc.node == node then CB.AfterSuccess(BreakerOf(s.breakers, node))
      else if d.pc.RecordingFailure? && d.pc.node == node then CB.AfterFailure(BreakerOf(s.breakers, node), now)
      else BreakerOf(s.breakers, node)
  {
  }

  /** In every interleaving, each breaker is the replay of its node's history under a monotone clock. */
  lemma {:induction false} BreakersFollowHistory(strategy: string, r: Interleaving, node: string)
    requires Possible(strategy, r)
    ensures var w := At(strategy, r);
      && BreakerOf(w.state.breakers, node) == CB.Replay(CB.Default(), HistoryOf(strategy, r, node))
      && CB.MonotoneUntil(HistoryOf(strategy, r, node), w.clock)
  {
    if r.Then? {
      BreakersFollowHistory(strategy, r.before, node);
      var w, e := At(strategy, r.before), r.event;
      if e.Went? { EffectOnBreakers(w.state, e.id, w.runs[e.id], w.clock, node); }
    }
  }

  /** The log shows fewer than five failures since the last success, or a last failure at least 30 s old. */
  predicate LoggedFit(h: CB.History, now: nat)
  {
    CB.FailuresSinceSuccess(h) < 5 || CB.CooledDown(h, 30_000, now)
  }

  lemma BlockedByLog(strategy: string, r: Interleaving, node: string)
    requires Possible(strategy, r)
    ensures var w := At(strategy, r);
      node in Blocked(w.state.breakers, w.clock) <==> !LoggedFit(HistoryOf(strategy, r, node), w.clock)
  {
    BreakersFollowHistory(strategy, r, node);
    var w := At(strategy, r);
    CB.ReplaySummary(CB.FAILURE_THRESHOLD, CB.COOLDOWN_MS, HistoryOf(strategy, r, node), w.clock);
  }

  /** Told from the run alone: registered, last heard from rather than silent, untried, cleared by its log and, under
      least-loaded, last reported below its registered limit. */
  ghost predicate Fit(strategy: string, r: Interleaving, tried: set<string>, node: string)
  {
    var w := At(strategy, r);
    && EverRegistered(r, node)
    && HeardFrom(r, node)
    && node !in tried
    && LoggedFit(HistoryOf(strategy, r, node), w.clock)
    && (strategy == "least_loaded" ==> LastLoad(r, node) < LimitOf(r, node))
  }

  lemma FitIsEligible(strategy: string, r: Interleaving, tried: set<string>, node: string)
    requires Possible(strategy, r)
    ensures var w := At(strategy, r);
      var exclude := tried + Blocked(w.state.breakers, w.clock);
      && (Fit(strategy, r, tried, node) <==> Eligible(w.state.table, exclude, strategy == LEAST_LOADED, node))
      && (node in w.state.table.nodes ==> w.state.table.nodes[node].activeTasks == LastLoad(r, node))
  {
    BlockedByLog(strategy, r, node);
    EntryReadOff(strategy, r, node);
  }

  /** Selection is sound and complete in every reachable state, under either strategy. */
  lemma {:induction false} SelectionExact(strategy: string, r: Interleaving, tried: set<string>, seed: nat)
    requires Possible(strategy, r)
    ensures var w := At(strategy, r);
      var pick := NodeId(PickNode(w.state, tried, w.clock, seed));
      && (pick.None? <==> forall n :: !Fit(strategy, r, tried, n))
      && (pick.Some? ==> Fit(strategy, r, tried, pick.value))
      && (pick.Some? && strategy == "least_loaded" ==>
            forall n | Fit(strategy, r, tried, n) :: LastLoad(r, pick.value) <= LastLoad(r, n))
  {
    var w := At(strategy, r);
    TableAlwaysValid(strategy, r);
    StrategyFixed(strategy, r);
    var exclude := tried + Blocked(w.state.breakers, w.clock);
    LeastLoadedExact(w.state.table, exclude, seed);
    PickSound(w.state.table, exclude, false, w.state.schedulerIndex);
    forall n
      ensures Fit(strategy, r, tried, n) <==> Eligible(w.state.table, exclude, strategy == LEAST_LOADED, n)
      ensures n in w.state.table.nodes ==> w.state.table.nodes[n].activeTasks == LastLoad(r, n)
    {
      FitIsEligible(strategy, r, tried, n);
    }
  }
}
