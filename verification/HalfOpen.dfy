/** How many requests a half-open node gets: one per selection that picks it, not one probe. */
module HalfOpen {
  import opened Common
  import opened Scheduling
  import opened DispatchLoop
  import opened ControlPlane
  import opened DispatchRuns
  import opened SelectionRuns
  import opened Policies
  import CB = CircuitBreakers

  // --- Probes -------------------------------------------------------------------------------

  /** A selection picks `node`, so a request goes to it. */
  ghost predicate PicksNode(w: World, e: Event, node: string)
  {
    e.Chosen? && e.id in w.runs && InputOf(w, e) == Chose(Some(node))
  }

  predicate Reported(w: World, e: Event, node: string)
  {
    Records(w, e, node, true) || Records(w, e, node, false)
  }

  /** Requests sent to `node` since its last recorded outcome. */
  ghost function Probes(strategy: string, r: Interleaving, node: string): nat
  {
    if r.Start? then 0
    else if Reported(At(strategy, r.before), r.event, node) then 0
    else Probes(strategy, r.before, node) + Bit(PicksNode(At(strategy, r.before), r.event, node))
  }

  /** Those of them sent at or after the cooldown of its last failure. */
  ghost function ProbesPastCooldown(strategy: string, r: Interleaving, node: string): nat
  {
    if r.Start? then 0
    else
      var w := At(strategy, r.before);
      var cool := CB.CooledDown(HistoryOf(strategy, r.before, node), CB.COOLDOWN_MS, w.clock);
      if Reported(w, r.event, node) then 0
      else ProbesPastCooldown(strategy, r.before, node) + Bit(PicksNode(w, r.event, node) && cool)
  }

  predicate Tripped(strategy: string, r: Interleaving, node: string)
  {
    CB.FailuresSinceSuccess(HistoryOf(strategy, r, node)) >= CB.FAILURE_THRESHOLD
  }

  /** Without a report the failures stay as they were. */
  lemma LoggedKeepsFailures(w: World, e: Event, node: string, h: CB.History)
    requires !Reported(w, e, node)
    ensures CB.FailuresSinceSuccess(Logged(w, e, node, h)) == CB.FailuresSinceSuccess(h)
  {
  }

  /** Picking a tripped node means its cooldown is over. */
  lemma PickedIsCool(strategy: string, r: Interleaving, e: Event, node: string)
    requires Possible(strategy, Then(r, e)) && Tripped(strategy, r, node) && PicksNode(At(strategy, r), e, node)
    ensures CB.CooledDown(HistoryOf(strategy, r, node), CB.COOLDOWN_MS, At(strategy, r).clock)
  {
    SelectionExact(strategy, r, At(strategy, r).runs[e.id].tried, e.seed);
  }

  /** In every interleaving a tripped node gets no request before its cooldown and every pick after it, until an outcome is
      recorded; so the documented single probe holds if and only if at most one selection picks the node in that time. */
  lemma {:induction false} ProbesExactly(strategy: string, r: Interleaving, node: string)
    requires Possible(strategy, r) && Tripped(strategy, r, node)
    ensures Probes(strategy, r, node) == ProbesPastCooldown(strategy, r, node)
  {
    if r.Then? && !Reported(At(strategy, r.before), r.event, node) {
      var w, e := At(strategy, r.before), r.event;
      LoggedKeepsFailures(w, e, node, HistoryOf(strategy, r.before, node));
      ProbesExactly(strategy, r.before, node);
      if PicksNode(w, e, node) { PickedIsCool(strategy, r.before, e, node); }
    }
  }

  // --- A run with two probes ----------------------------------------------------------------

  /** The only breaker, once there is one. */
  function Only(b: Option<CB.Breaker>): Breakers
  {
    if b.Some? then map["a" := b.value] else map[]
  }

  function OrDefault(b: Option<CB.Breaker>): CB.Breaker
  {
    if b.Some? then b.value else CB.Default()
  }

  /** One idle node with breaker `b`. */
  ghost predicate Scene(w: World, b: Option<CB.Breaker>, now: nat)
  {
    w.state.table == ONE_NODE && w.state.strategy == STRATEGY && w.state.breakers == Only(b) && w.clock == now
  }

  /** A dispatch stands awake in state `d`. */
  ghost predicate Current(w: World, b: Option<CB.Breaker>, now: nat, id: string, d: Dispatch)
  {
    Scene(w, b, now) && id in w.runs && w.runs[id] == d && (id in w.wakeAt ==> w.wakeAt[id] <= now)
  }

  lemma SpawnStep(w: World, b: Option<CB.Breaker>, now: nat, id: string)
    requires Scene(w, b, now) && id !in w.runs && id !in w.wakeAt
    ensures Enabled(w, Spawned(id)) && Current(Next(w, Spawned(id)), b, now, id, Initial())
  {
  }

  const CHOOSING := Dispatch(Choosing, {}, "", 0, 0, 0)

  const CALLING := Dispatch(Calling("a"), {}, "", 0, 0, 0)

  const FAILED := Dispatch(RecordingFailure("a"), {"a"}, "", 0, 0, 0)

  lemma CountStep(w: World, b: Option<CB.Breaker>, now: nat, id: string)
    requires Current(w, b, now, id, Initial())
    ensures Enabled(w, Went(id)) && Current(Next(w, Went(id)), b, now, id, CHOOSING) && !Reported(w, Went(id), "a")
  {
  }

  function Asked(b: Option<CB.Breaker>, now: nat): Option<CB.Breaker>
  {
    if b.Some? then Some(CB.AfterAsk(b.value, now)) else None
  }

  lemma OnlyNodePicked(s: AppState, b: Option<CB.Breaker>, now: nat)
    requires s.table == ONE_NODE && s.strategy == STRATEGY && s.breakers == Only(b) && (b.Some? ==> CB.Allows(b.value, now))
    ensures NodeId(PickNode(s, {}, now, 0)) == Some("a")
    ensures AfterSelect(s, {}, now, 0) == s.(breakers := Only(Asked(b, now)), schedulerIndex := Bump(s.schedulerIndex))
  {
    assert {} + Blocked(s.breakers, now) == {};
    assert ["a"][1..] == [];
    assert Candidates(s.table.nodes, s.table.order, {}, false) == [NodeInfo("a", 0, true, 10)];
    assert AskAll(s.breakers, now) == Only(Asked(b, now));
  }

  lemma SelectStep(w: World, b: Option<CB.Breaker>, now: nat, id: string)
    requires Current(w, b, now, id, CHOOSING) && (b.Some? ==> CB.Allows(b.value, now))
    ensures Enabled(w, Chosen(id, 0)) && PicksNode(w, Chosen(id, 0), "a")
    ensures Current(Next(w, Chosen(id, 0)), Asked(b, now), now, id, CALLING)
  {
    OnlyNodePicked(w.state, b, now);
    assert InputOf(w, Chosen(id, 0)) == Chose(Some("a"));
    assert Next(w, Chosen(id, 0)) ==
      World(AfterSelect(w.state, {}, now, 0), now, w.runs[id := CALLING], w.wakeAt[id := now]);
  }

  lemma FailStep(w: World, b: Option<CB.Breaker>, now: nat, id: string)
    requires Current(w, b, now, id, CALLING)
    ensures Enabled(w, Returned(id, TransportFailed("")))
    ensures Current(Next(w, Returned(id, TransportFailed(""))), b, now, id, FAILED)
  {
  }

  lemma ReportStep(w: World, b: Option<CB.Breaker>, now: nat, id: string)
    requires Current(w, b, now, id, FAILED)
    ensures Enabled(w, Went(id)) && Reported(w, Went(id), "a")
    ensures Scene(Next(w, Went(id)), Some(CB.AfterFailure(OrDefault(b), now)), now)
  {
    var failed := CB.AfterFailure(OrDefault(b), now);
    assert Only(b)["a" := failed] == Only(Some(failed));
    assert Next(w, Went(id)).state == w.state.(breakers := Only(b)["a" := failed]);
  }

  lemma {:induction false} Longer(names: set<string>) returns (n: nat)
    ensures forall id | id in names :: |id| < n
  {
    n := 0;
    if id :| id in names {
      n := Longer(names - {id});
      n := n + |id| + 1;
    }
  }

  lemma Unused(names: set<string>) returns (id: string)
    ensures id !in names
  {
    var n := Longer(names);
    id := seq(n, i => 'x');
  }

  /** The run ends in a world with this many probes of the node. */
  ghost predicate Ends(r: Interleaving, w: World, probes: nat)
  {
    Possible(STRATEGY, r) && At(STRATEGY, r) == w && Probes(STRATEGY, r, "a") == probes
  }

  /** Some run does. */
  ghost predicate Reached(w: World, probes: nat)
  {
    exists r :: Ends(r, w, probes)
  }

  lemma Move(w: World, e: Event, probes: nat)
    requires Reached(w, probes) && Enabled(w, e)
    ensures Reached(Next(w, e), if Reported(w, e, "a") then 0 else probes + Bit(PicksNode(w, e, "a")))
  {
    var r :| Ends(r, w, probes);
    assert Ends(Then(r, e), Next(w, e), if Reported(w, e, "a") then 0 else probes + Bit(PicksNode(w, e, "a")));
  }

  ghost predicate Stage(b: Option<CB.Breaker>, now: nat, probes: nat)
  {
    exists w :: Scene(w, b, now) && Reached(w, probes)
  }

  /** Likewise, with a dispatch awake in state `d`. */
  ghost predicate Staged(b: Option<CB.Breaker>, now: nat, d: Dispatch, probes: nat)
  {
    exists w, id :: Current(w, b, now, id, d) && Reached(w, probes)
  }

  lemma Submit(b: Option<CB.Breaker>, now: nat, probes: nat)
    requires Stage(b, now, probes)
    ensures Staged(b, now, CHOOSING, probes)
  {
    var w :| Scene(w, b, now) && Reached(w, probes);
    var id := Unused(w.runs.Keys + w.wakeAt.Keys);
    SpawnStep(w, b, now, id);
    Move(w, Spawned(id), probes);
    w := Next(w, Spawned(id));
    CountStep(w, b, now, id);
    Move(w, Went(id), probes);
  }

  /** A further dispatch calls the node. */
  lemma CallOnce(b: Option<CB.Breaker>, now: nat, probes: nat)
    requires Stage(b, now, probes) && (b.Some? ==> CB.Allows(b.value, now))
    ensures Staged(Asked(b, now), now, CALLING, probes + 1) && Stage(Asked(b, now), now, probes + 1)
  {
    Submit(b, now, probes);
    var w, id :| Current(w, b, now, id, CHOOSING) && Reached(w, probes);
    SelectStep(w, b, now, id);
    Move(w, Chosen(id, 0), probes);
    assert Scene(Next(w, Chosen(id, 0)), Asked(b, now), now);
  }

  lemma Reply(b: Option<CB.Breaker>, now: nat, probes: nat)
    requires Staged(b, now, CALLING, probes)
    ensures Staged(b, now, FAILED, probes)
  {
    var w, id :| Current(w, b, now, id, CALLING) && Reached(w, probes);
    FailStep(w, b, now, id);
    Move(w, Returned(id, TransportFailed("")), probes);
  }

  lemma Report(b: Option<CB.Breaker>, now: nat, probes: nat)
    requires Staged(b, now, FAILED, probes)
    ensures Stage(Some(CB.AfterFailure(OrDefault(b), now)), now, 0)
  {
    var w, id :| Current(w, b, now, id, FAILED) && Reached(w, probes);
    ReportStep(w, b, now, id);
    Move(w, Went(id), probes);
  }

  /** A further dispatch calls the node, fails and reports. */
  lemma FailOnce(b: Option<CB.Breaker>, now: nat, probes: nat)
    requires Stage(b, now, probes) && (b.Some? ==> CB.Allows(b.value, now))
    ensures Stage(Some(CB.AfterFailure(OrDefault(Asked(b, now)), now)), now, 0)
  {
    CallOnce(b, now, probes);
    Reply(Asked(b, now), now, probes + 1);
    Report(Asked(b, now), now, probes + 1);
  }

  function Failing(k: nat, now: nat): Option<CB.Breaker>
  {
    if k == 0 then None
    else Some(CB.Breaker(if k < CB.FAILURE_THRESHOLD then CB.Closed else CB.Open, k, CB.FAILURE_THRESHOLD, Some(now), CB.COOLDOWN_MS))
  }

  lemma OneMoreFailure(k: nat, now: nat)
    requires 0 < k <= CB.FAILURE_THRESHOLD
    ensures k > 1 ==> CB.Allows(Failing(k - 1, now).value, now)
    ensures Some(CB.AfterFailure(OrDefault(Asked(Failing(k - 1, now), now)), now)) == Failing(k, now)
  {
  }

  lemma Open() returns (now: nat)
    ensures Stage(Failing(0, now), now, 0)
  {
    now := 0;
    var w := Next(Genesis(STRATEGY), Registered("a", 10, ["a"]));
    assert w.state.table == ONE_NODE;
    assert Ends(Then(Start, Registered("a", 10, ["a"])), w, 0);
    assert Scene(w, None, 0) && Reached(w, 0);
  }

  lemma {:induction false} Failures(k: nat) returns (now: nat)
    requires k <= CB.FAILURE_THRESHOLD
    ensures Stage(Failing(k, now), now, 0)
  {
    if k == 0 {
      now := Open();
    } else {
      now := Failures(k - 1);
      OneMoreFailure(k, now);
      FailOnce(Failing(k - 1, now), now, 0);
    }
  }

  lemma Cool(b: Option<CB.Breaker>, now: nat, ms: nat, probes: nat)
    requires Stage(b, now, probes)
    ensures Stage(b, now + ms, probes)
  {
    var w :| Scene(w, b, now) && Reached(w, probes);
    Move(w, Tick(ms), probes);
    assert Scene(Next(w, Tick(ms)), b, now + ms);
  }

  /** Both callers find the breaker willing. */
  lemma TwoCalls(b: CB.Breaker, half: CB.Breaker, now: nat)
    requires Stage(Some(b), now, 0) && half == CB.AfterAsk(b, now) && half.state == CB.HalfOpen
    ensures Stage(Some(half), now, 2)
  {
    CallOnce(Some(b), now, 0);
    CallOnce(Some(half), now, 1);
  }

  /** Five failures, the cooldown, and two dispatches: both call the half-open node before either reports. */
  lemma {:induction false} TwoProbes()
    ensures exists r ::
      && Possible(STRATEGY, r) && Tripped(STRATEGY, r, "a") && Probes(STRATEGY, r, "a") == 2
      && BreakerOf(At(STRATEGY, r).state.breakers, "a").state == CB.HalfOpen
  {
    var now := Failures(CB.FAILURE_THRESHOLD);
    var b := Failing(CB.FAILURE_THRESHOLD, now).value;
    var later := now + b.cooldown;
    var half := CB.AfterAsk(b, later);
    Cool(Some(b), now, b.cooldown, 0);
    TwoCalls(b, half, later);
    var w :| Scene(w, Some(half), later) && Reached(w, 2);
    var r :| Ends(r, w, 2);
    BreakersFollowHistory(STRATEGY, r, "a");
    CB.ReplaySummary(CB.FAILURE_THRESHOLD, CB.COOLDOWN_MS, HistoryOf(STRATEGY, r, "a"), later);
  }
}
