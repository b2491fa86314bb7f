/** Each node's entry in the shared table, told from the registrations and probes of the run. */
module NodeTable {
  import opened Common
  import opened Scheduling
  import opened DispatchLoop
  import opened ControlPlane
  import opened DispatchRuns

  predicate EverRegistered(r: Interleaving, node: string)
  {
    r.Then? && (EverRegistered(r.before, node) || (r.event.Registered? && r.event.node == node))
  }

  /** The limit of the latest registration. */
  function LimitOf(r: Interleaving, node: string): nat
  {
    if r.Start? then 0
    else if r.event.Registered? && r.event.node == node then r.event.maxTasks
    else LimitOf(r.before, node)
  }

  /** The latest of the node's registrations and probes was a registration or a reply. */
  predicate HeardFrom(r: Interleaving, node: string)
  {
    r.Then? &&
    (if r.event.Registered? && r.event.node == node then true
     else if r.event.ProbeReturned? && r.event.node == node then r.event.reply.Some?
     else HeardFrom(r.before, node))
  }

  /** The latest reply since the node's last registration, zero when there was none. */
  function LastLoad(r: Interleaving, node: string): nat
  {
    if r.Start? then 0
    else if r.event.Registered? && r.event.node == node then 0
    else if r.event.ProbeReturned? && r.event.node == node && r.event.reply.Some? then r.event.reply.value
    else LastLoad(r.before, node)
  }

  /** In every interleaving a node has an entry exactly when it ever registered, and the entry is the latest limit, the
      latest reply since, and whether it was last heard from: a registration replaces whatever was there, a failed probe
      marks the node unhealthy and keeps its load, and nothing else touches it. */
  lemma {:induction false} EntryReadOff(strategy: string, r: Interleaving, node: string)
    ensures var nodes := At(strategy, r).state.table.nodes;
      && (node in nodes <==> EverRegistered(r, node))
      && (node in nodes ==> nodes[node] == NodeInfo(node, LastLoad(r, node), HeardFrom(r, node), LimitOf(r, node)))
  {
    if r.Then? {
      EntryReadOff(strategy, r.before, node);
      EntryStep(At(strategy, r.before), r.event, node);
    }
  }

  lemma EntryStep(w: World, e: Event, node: string)
    ensures var before, after := w.state.table.nodes, Next(w, e).state.table.nodes;
      var registered, probed := e.Registered? && e.node == node, e.ProbeReturned? && e.node == node;
      && (node in after <==> node in before || registered)
      && (registered ==> after[node] == NodeInfo(node, 0, true, e.maxTasks))
      && (node in before && probed && e.reply.Some? ==>
            after[node] == before[node].(healthy := true, activeTasks := e.reply.value))
      && (node in before && probed && e.reply.None? ==> after[node] == before[node].(healthy := false))
      && (node in before && !registered && !probed ==> after[node] == before[node])
  {
  }

  /** Between the two points the node neither replied nor registered. */
  ghost predicate SilentSince(r: Interleaving, later: Interleaving, node: string)
    requires Extends(r, later)
  {
    r == later ||
    (&& SilentSince(r, later.before, node)
     && !(later.event.Registered? && later.event.node == node)
     && !(later.event.ProbeReturned? && later.event.node == node && later.event.reply.Some?))
  }

  lemma {:induction false} StaysSilent(r: Interleaving, later: Interleaving, node: string)
    requires Extends(r, later) && SilentSince(r, later, node) && !HeardFrom(r, node)
    ensures !HeardFrom(later, node)
  {
    if r != later { StaysSilent(r, later.before, node); }
  }

  /** After a failed probe no selection picks the node, under either strategy, until it replies or registers again. */
  lemma {:induction false} SilentIsNotPicked(strategy: string, r: Interleaving, node: string, later: Interleaving,
                                             tried: set<string>, seed: nat)
    requires Possible(strategy, later)
    requires var failed := Then(r, ProbeReturned(node, None)); Extends(failed, later) && SilentSince(failed, later, node)
    ensures var w := At(strategy, later); NodeId(PickNode(w.state, tried, w.clock, seed)) != Some(node)
  {
    StaysSilent(Then(r, ProbeReturned(node, None)), later, node);
    EntryReadOff(strategy, later, node);
    TableAlwaysValid(strategy, later);
    var w := At(strategy, later);
    var exclude := tried + Blocked(w.state.breakers, w.clock);
    LeastLoadedExact(w.state.table, exclude, seed);
    PickSound(w.state.table, exclude, false, w.state.schedulerIndex);
  }
}
