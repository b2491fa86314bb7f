/** The control-plane's view of one node through its probes: what leaked tasks on the node do to scheduling. */
module CrossService {
  import opened Common
  import Scheduling
  import opened ControlPlane
  import DR = DispatchRuns
  import NT = NodeTable
  import SR = SelectionRuns
  import EN = EdgeNode
  import EdgeServer

  /** The health checker probes the node in turn: a reply is read on the node, then delivered or lost. */
  datatype Cross = Cross(plane: DR.World, edge: EN.Edge, probe: Option<nat>)

  datatype Event =
    | Plane(e: DR.Event)
    | OnNode(step: EN.Event)
    | ProbeRead
    | ProbeDelivered
    | ProbeLost

  type CrossRun = Run<Event>

  datatype Setup = Setup(node: string, strategy: string, tools: EN.Tools, honest: bool, cfg: EN.Config)

  function Genesis(u: Setup): Cross
  {
    Cross(DR.Genesis(u.strategy), EN.Genesis(u.cfg), None)
  }

  ghost predicate Enabled(u: Setup, s: Cross, ev: Event)
  {
    match ev
    case Plane(e) => DR.Enabled(s.plane, e) && !(e.ProbeReturned? && e.node == u.node)
    case OnNode(e) => EN.Enabled(u.tools, u.honest, s.edge, e)
    case ProbeRead => s.probe.None?
    case ProbeDelivered => s.probe.Some?
    case ProbeLost => true
  }

  function Next(u: Setup, s: Cross, ev: Event): Cross
  {
    match ev
    case Plane(e) => s.(plane := DR.Next(s.plane, e))
    case OnNode(e) => s.(edge := EN.Next(u.tools, s.edge, e))
    case ProbeRead => s.(probe := Some(s.edge.active % EdgeServer.U32))
    case ProbeDelivered => s.(plane := DR.Next(s.plane, DR.ProbeReturned(u.node, s.probe)), probe := None)
    case ProbeLost => s.(plane := DR.Next(s.plane, DR.ProbeReturned(u.node, None)), probe := None)
  }

  function At(u: Setup, r: CrossRun): Cross
  {
    match r
    case Start => Genesis(u)
    case Then(p, e) => Next(u, At(u, p), e)
  }

  ghost predicate Possible(u: Setup, r: CrossRun)
  {
    r.Then? ==> Possible(u, r.before) && Enabled(u, At(u, r.before), r.event)
  }

  // --- Both halves are runs of their own machines -------------------------------------------

  function PlaneOf(u: Setup, r: CrossRun): DR.Interleaving
  {
    match r
    case Start => Start
    case Then(p, Plane(e)) => Then(PlaneOf(u, p), e)
    case Then(p, ProbeDelivered) => Then(PlaneOf(u, p), DR.ProbeReturned(u.node, At(u, p).probe))
    case Then(p, ProbeLost) => Then(PlaneOf(u, p), DR.ProbeReturned(u.node, None))
    case Then(p, _) => PlaneOf(u, p)
  }

  function NodeOf(r: CrossRun): EN.EdgeRun
  {
    match r
    case Start => Start
    case Then(p, OnNode(e)) => Then(NodeOf(p), e)
    case Then(p, _) => NodeOf(p)
  }

  lemma {:induction false} PlaneProjection(u: Setup, r: CrossRun)
    requires Possible(u, r)
    ensures DR.Possible(u.strategy, PlaneOf(u, r)) && DR.At(u.strategy, PlaneOf(u, r)) == At(u, r).plane
  {
    if r.Then? { PlaneProjection(u, r.before); }
  }

  lemma {:induction false} NodeProjection(u: Setup, r: CrossRun)
    requires Possible(u, r)
    ensures EN.Possible(u.tools, u.honest, u.cfg, NodeOf(r)) && EN.At(u.tools, u.cfg, NodeOf(r)) == At(u, r).edge
  {
    if r.Then? { NodeProjection(u, r.before); }
  }

  // --- Leaks only accumulate ----------------------------------------------------------------

  /** Requests on the node that ended in a download or compile error. */
  ghost function Errors(s: Cross): nat
  {
    Count(s.edge.requests, EN.HasLeaked)
  }

  lemma LeakIsFinal(tools: EN.Tools, honest: bool, s: EN.Edge, e: EN.Event)
    requires EN.Enabled(tools, honest, s, e) && EN.ConcernsRequest(e) && e.id in s.requests && EN.HasLeaked(s.requests[e.id])
    ensures e.id in EN.Next(tools, s, e).requests && EN.HasLeaked(EN.Next(tools, s, e).requests[e.id])
  {
  }

  lemma StepErrors(tools: EN.Tools, honest: bool, s: EN.Edge, e: EN.Event)
    requires EN.Enabled(tools, honest, s, e) && s.active >= Count(s.requests, EN.Busy)
    ensures Count(EN.Next(tools, s, e).requests, EN.HasLeaked) >= Count(s.requests, EN.HasLeaked)
  {
    if EN.ConcernsRequest(e) {
      if e.id in s.requests && EN.Busy(s.requests[e.id]) { EN.CountIsPositive(s.requests, EN.Busy, e.id); }
      EN.StepFollows(tools, honest, s, e);
      CountUpdate(s.requests, EN.HasLeaked, e.id, EN.Next(tools, s, e).requests[e.id]);
      if e.id in s.requests && EN.HasLeaked(s.requests[e.id]) { LeakIsFinal(tools, honest, s, e); }
    }
  }

  // --- Since a point in the run -------------------------------------------------------------

  /** The node did not re-register after `r`. */
  ghost predicate NotReregistered(u: Setup, r: CrossRun, later: CrossRun)
    requires Extends(r, later)
  {
    r == later ||
    (NotReregistered(u, r, later.before) && !(later.event.Plane? && later.event.e.Registered? && later.event.e.node == u.node))
  }

  /** No probe after `r` read a count too large for the reply's `u32`. */
  ghost predicate NotTruncated(u: Setup, r: CrossRun, later: CrossRun)
    requires Extends(r, later)
  {
    r == later ||
    (NotTruncated(u, r, later.before) && (later.event.ProbeRead? ==> At(u, later.before).edge.active < EdgeServer.U32))
  }

  /** The probe in hand was read after `r`. */
  ghost predicate ReadSince(r: CrossRun, later: CrossRun)
    requires Extends(r, later)
  {
    r != later &&
    (later.event.ProbeRead? || (ReadSince(r, later.before) && !later.event.ProbeDelivered? && !later.event.ProbeLost?))
  }

  /** A probe read after `r` has been delivered. */
  ghost predicate ProbedSince(r: CrossRun, later: CrossRun)
    requires Extends(r, later)
  {
    r != later && (ProbedSince(r, later.before) || (later.event.ProbeDelivered? && ReadSince(r, later.before)))
  }

  lemma {:induction false} ErrorsAccumulate(u: Setup, r: CrossRun, later: CrossRun)
    requires Possible(u, later) && Extends(r, later)
    ensures Errors(At(u, later)) >= Errors(At(u, r))
    ensures At(u, later).edge.active >= Errors(At(u, r))
  {
    NodeProjection(u, later);
    EN.EdgeAccounting(u.tools, u.honest, u.cfg, NodeOf(later));
    if r != later {
      ErrorsAccumulate(u, r, later.before);
      if later.event.OnNode? {
        NodeProjection(u, later.before);
        EN.EdgeAccounting(u.tools, u.honest, u.cfg, NodeOf(later.before));
        StepErrors(u.tools, u.honest, At(u, later.before).edge, later.event.step);
      }
    }
  }

  /** A step of the control-plane other than its registration or a probe leaves the node's entry alone. */
  lemma PlaneKeepsNode(w: DR.World, e: DR.Event, node: string)
    requires node in w.state.table.nodes
    requires !(e.Registered? && e.node == node) && !(e.ProbeReturned? && e.node == node)
    ensures node in DR.Next(w, e).state.table.nodes
    ensures DR.Next(w, e).state.table.nodes[node] == w.state.table.nodes[node]
  {
  }

  /** Registered limit `max`, and no reading from after the errors, in hand or delivered, below it. */
  ghost predicate Saturated(u: Setup, r: CrossRun, later: CrossRun, max: nat)
    requires Extends(r, later)
  {
    var s := At(u, later);
    && u.node in s.plane.state.table.nodes
    && s.plane.state.table.nodes[u.node].maxConcurrentTasks == max
    && (ReadSince(r, later) ==> s.probe.Some? && s.probe.value >= max)
    && (ProbedSince(r, later) ==>
          && s.plane.state.table.nodes[u.node].activeTasks >= max
          && (s.probe.Some? ==> ReadSince(r, later)))
  }

  lemma {:induction false} StaysSaturated(u: Setup, r: CrossRun, later: CrossRun, max: nat)
    requires Possible(u, later) && Extends(r, later) && NotReregistered(u, r, later) && NotTruncated(u, r, later)
    requires u.node in At(u, r).plane.state.table.nodes && At(u, r).plane.state.table.nodes[u.node].maxConcurrentTasks == max
    requires Errors(At(u, r)) >= max
    ensures Saturated(u, r, later, max)
  {
    if r != later {
      StaysSaturated(u, r, later.before, max);
      ErrorsAccumulate(u, r, later.before);
      var s := At(u, later.before);
      if later.event.Plane? { PlaneKeepsNode(s.plane, later.event.e, u.node); }
    }
  }

  /** Once a node has had at least its registered maximum of download or compile errors, then after its next probe the
      least-loaded strategy never picks it again until it re-registers, in any continuation of the run. */
  lemma NeverSelectedAgain(u: Setup, r: CrossRun, later: CrossRun, tried: set<string>, seed: nat)
    requires u.strategy == LEAST_LOADED
    requires Possible(u, later) && Extends(r, later) && NotReregistered(u, r, later) && NotTruncated(u, r, later)
    requires u.node in At(u, r).plane.state.table.nodes
    requires Errors(At(u, r)) >= At(u, r).plane.state.table.nodes[u.node].maxConcurrentTasks
    requires ProbedSince(r, later)
    ensures var w := At(u, later).plane;
      var pick := PickNode(w.state, tried, w.clock, seed);
      pick.Some? ==> pick.value.id != u.node
  {
    StaysSaturated(u, r, later, At(u, r).plane.state.table.nodes[u.node].maxConcurrentTasks);
    PlaneProjection(u, later);
    DR.TableAlwaysValid(u.strategy, PlaneOf(u, later));
    DR.StrategyFixed(u.strategy, PlaneOf(u, later));
    var w := At(u, later).plane;
    Scheduling.LeastLoadedExact(w.state.table, tried + Blocked(w.state.breakers, w.clock), seed);
  }

  /** The limit is exact: a probe of an idle node leaves it headroom if and only if its errors are fewer than its limit. */
  lemma IdleHeadroom(u: Setup, r: CrossRun)
    requires Possible(u, Then(Then(r, ProbeRead), ProbeDelivered))
    requires u.node in At(u, r).plane.state.table.nodes
    requires Count(At(u, r).edge.requests, EN.Busy) == 0 && At(u, r).edge.active < EdgeServer.U32
    ensures var n := At(u, Then(Then(r, ProbeRead), ProbeDelivered)).plane.state.table.nodes[u.node];
      n.healthy && (Scheduling.HasHeadroom(n) <==> Errors(At(u, r)) < n.maxConcurrentTasks)
  {
    assert Possible(u, Then(r, ProbeRead)) && Possible(u, r);
    DeliveredReading(u, At(u, r));
    NodeProjection(u, r);
    EN.EdgeAccounting(u.tools, u.honest, u.cfg, NodeOf(r));
  }

  lemma DeliveredReading(u: Setup, s: Cross)
    requires u.node in s.plane.state.table.nodes && s.edge.active < EdgeServer.U32
    ensures var nodes := Next(u, Next(u, s, ProbeRead), ProbeDelivered).plane.state.table.nodes;
      && u.node in nodes
      && nodes[u.node] == s.plane.state.table.nodes[u.node].(healthy := true, activeTasks := s.edge.active)
  {
    assert Next(u, s, ProbeRead).probe == Some(s.edge.active);
  }

  /** A node that registers again, however saturated it was, is at once selectable under least-loaded: some tie-break picks
      it if and only if it is untried, its new limit is positive and its log clears it. */
  lemma {:induction false} ReregisteredComesBack(u: Setup, r: CrossRun, max: nat, order: seq<string>, tried: set<string>)
    requires u.strategy == LEAST_LOADED && Possible(u, Then(r, Plane(DR.Registered(u.node, max, order))))
    ensures var later := Then(r, Plane(DR.Registered(u.node, max, order)));
      var w := At(u, later).plane;
      (exists seed :: DR.NodeId(PickNode(w.state, tried, w.clock, seed)) == Some(u.node)) <==>
        u.node !in tried && max > 0 && SR.LoggedFit(SR.HistoryOf(u.strategy, PlaneOf(u, later), u.node), w.clock)
  {
    var later := Then(r, Plane(DR.Registered(u.node, max, order)));
    var plane := PlaneOf(u, later);
    PlaneProjection(u, later);
    SR.FitIsEligible(u.strategy, plane, tried, u.node);
    IdleIsSelectable(u.strategy, plane, tried, u.node);
  }

  /** A node with nothing to do is selectable exactly when it is fit. */
  lemma {:induction false} IdleIsSelectable(strategy: string, r: DR.Interleaving, tried: set<string>, node: string)
    requires strategy == LEAST_LOADED && DR.Possible(strategy, r) && NT.LastLoad(r, node) == 0
    ensures var w := DR.At(strategy, r);
      (exists seed :: DR.NodeId(PickNode(w.state, tried, w.clock, seed)) == Some(node)) <==> SR.Fit(strategy, r, tried, node)
  {
    var w := DR.At(strategy, r);
    DR.TableAlwaysValid(strategy, r);
    DR.StrategyFixed(strategy, r);
    SR.FitIsEligible(strategy, r, tried, node);
    if seed :| DR.NodeId(PickNode(w.state, tried, w.clock, seed)) == Some(node) {
      SR.SelectionExact(strategy, r, tried, seed);
    }
    if SR.Fit(strategy, r, tried, node) {
      var exclude, n := tried + Blocked(w.state.breakers, w.clock), w.state.table.nodes[node];
      Scheduling.CandidateIsEligible(w.state.table, exclude, true, n);
      var seed := Scheduling.TieCanFallOn(w.state.table, exclude, n);
      assert DR.NodeId(PickNode(w.state, tried, w.clock, seed)) == Some(node);
    }
  }
}
