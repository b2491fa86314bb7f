/** The control-plane's shared state, and its critical sections as updates of one object. */
module ControlPlane {
  import opened Common
  import opened Scheduling
  import opened DispatchLoop
  import CB = CircuitBreakers

  type Breakers = map<string, CB.Breaker>

  /** A snapshot of `AppState`. */
  datatype AppState = AppState(
    table: Table,
    tasks: map<string, TaskResult>,
    schedulerIndex: Usize,
    breakers: Breakers,
    strategy: string,
    totalSubmitted: nat,
    totalSuccess: nat,
    totalFailed: nat,
    totalRetried: nat,
    queued: nat)

  const LEAST_LOADED := "least_loaded"

  function Boot(strategy: string): AppState
  {
    AppState(Table(map[], []), map[], 0, map[], strategy, 0, 0, 0, 0, 0)
  }

  // --- Breakers -----------------------------------------------------------------------------

  /** `entry(node).or_default()`. */
  function BreakerOf(bs: Breakers, node: string): CB.Breaker
  {
    if node in bs then bs[node] else CB.Default()
  }

  /** Selection asks every breaker, chosen or not. */
  function AskAll(bs: Breakers, now: nat): Breakers
  {
    map n | n in bs :: CB.AfterAsk(bs[n], now)
  }

  function Blocked(bs: Breakers, now: nat): set<string>
  {
    set n | n in bs && !CB.Allows(bs[n], now)
  }

  // --- Critical sections --------------------------------------------------------------------

  function PickNode(s: AppState, tried: set<string>, now: nat, seed: nat): Option<NodeInfo>
  {
    var exclude := tried + Blocked(s.breakers, now);
    if s.strategy == LEAST_LOADED then SelectLeastLoaded(s.table, exclude, seed)
    else PickAt(Candidates(s.table.nodes, s.table.order, exclude, false), s.schedulerIndex)
  }

  function AfterSelect(s: AppState, tried: set<string>, now: nat, seed: nat): AppState
  {
    var moved := s.strategy != LEAST_LOADED && PickNode(s, tried, now, seed).Some?;
    s.(breakers := AskAll(s.breakers, now), schedulerIndex := if moved then Bump(s.schedulerIndex) else s.schedulerIndex)
  }

  /** The critical section a dispatch runs at its program counter; sleeps and RPCs touch nothing. */
  function Effect(s: AppState, id: string, d: Dispatch, now: nat): AppState
  {
    match d.pc
    case Counting => s.(totalSubmitted := s.totalSubmitted + 1)
    case Enqueueing => s.(queued := s.queued + 1)
    case Dequeueing => s.(queued := SaturatingSub(s.queued, 1))
    case CountingRetry(_) => s.(totalRetried := s.totalRetried + 1)
    case RecordingSuccess(n, _, _) => s.(breakers := s.breakers[n := CB.AfterSuccess(BreakerOf(s.breakers, n))])
    case RecordingFailure(n) => s.(breakers := s.breakers[n := CB.AfterFailure(BreakerOf(s.breakers, n), now)])
    case StoringSuccess(_, _, _) => s.(tasks := s.tasks[id := StoredResult(id, d)], totalSuccess := s.totalSuccess + 1)
    case GivingUp => s.(tasks := s.tasks[id := StoredResult(id, d)], totalFailed := s.totalFailed + 1)
    case StoringFailure => s.(tasks := s.tasks[id := StoredResult(id, d)], totalFailed := s.totalFailed + 1)
    case _ => s
  }

  /** Registering replaces the entry; `order` is where a rehash leaves the entries when the key is new. */
  function Register(t: Table, id: string, maxTasks: nat, order: seq<string>): Table
  {
    Table(t.nodes[id := NodeInfo(id, 0, true, maxTasks)], if id in t.nodes then t.order else order)
  }

  /** One probe's outcome: `Some(active)` for a reply, `None` for an error or timeout. */
  function Probed(n: NodeInfo, reply: Option<nat>): NodeInfo
  {
    match reply
    case Some(active) => n.(healthy := true, activeTasks := active)
    case None => n.(healthy := false)
  }

  function ApplyProbe(t: Table, id: string, reply: Option<nat>): Table
  {
    if id in t.nodes then t.(nodes := t.nodes[id := Probed(t.nodes[id], reply)]) else t
  }

  /** What each node answers when it is probed; a timeout is no reply. */
  type ProbeReplies = string -> Option<nat>

  /** What other writers make of the table while the i-th probe is out and the lock is free. */
  type Others = (nat, Table) -> Table

  function ProbeRound(t: Table, ids: seq<string>, replies: ProbeReplies, others: Others): Table
  {
    if ids == [] then t
    else
      var i := |ids| - 1;
      ApplyProbe(others(i, ProbeRound(t, ids[..i], replies, others)), ids[i], replies(ids[i]))
  }

  function RepliesAmong(ids: seq<string>, replies: ProbeReplies): nat
  {
    if ids == [] then 0
    else RepliesAmong(ids[..|ids| - 1], replies) + Bit(replies(ids[|ids| - 1]).Some?)
  }

  ghost predicate LeaveAlone(others: Others, k: string)
  {
    forall i, t :: (k in others(i, t).nodes <==> k in t.nodes) && (k in t.nodes ==> others(i, t).nodes[k] == t.nodes[k])
  }

  /** Whatever other writers do to other nodes meanwhile, a round gives a probed node exactly its own reply and leaves a
      node it did not probe alone. */
  lemma {:induction false} ProbeRoundExact(t: Table, ids: seq<string>, replies: ProbeReplies, others: Others, k: string)
    requires LeaveAlone(others, k)
    ensures var u := ProbeRound(t, ids, replies, others);
      && (k in u.nodes <==> k in t.nodes)
      && (k in t.nodes && k !in ids ==> u.nodes[k] == t.nodes[k])
      && (k in t.nodes && k in ids ==>
            match replies(k)
            case Some(active) => u.nodes[k] == t.nodes[k].(healthy := true, activeTasks := active)
            case None => u.nodes[k] == t.nodes[k].(healthy := false))
  {
    if ids != [] {
      var rest := ids[..|ids| - 1];
      ProbeRoundExact(t, rest, replies, others, k);
      assert ids == rest + [ids[|ids| - 1]];
    }
  }

  lemma {:induction false} RepliesCounted(ids: seq<string>, replies: ProbeReplies)
    requires Distinct(ids)
    ensures RepliesAmong(ids, replies) == |set k | k in ids && replies(k).Some?|
  {
    var healthy := set k | k in ids && replies(k).Some?;
    if ids != [] {
      var rest, last := ids[..|ids| - 1], ids[|ids| - 1];
      RepliesCounted(rest, replies);
      assert ids == rest + [last];
      assert healthy - {last} == set k | k in rest && replies(k).Some?;
      CountWithout(healthy, last);
    }
  }

  /** When nobody else touches the probed nodes, the round's count is the number of them that the table then shows
      healthy. */
  lemma {:induction false} RepliesCountHealthy(t: Table, ids: seq<string>, replies: ProbeReplies, others: Others)
    requires Distinct(ids) && forall k | k in ids :: k in t.nodes && LeaveAlone(others, k)
    ensures var u := ProbeRound(t, ids, replies, others);
      RepliesAmong(ids, replies) == |set k | k in ids && k in u.nodes && u.nodes[k].healthy|
  {
    var u := ProbeRound(t, ids, replies, others);
    RepliesCounted(ids, replies);
    forall k | k in ids
      ensures k in u.nodes && u.nodes[k].healthy == replies(k).Some?
    {
      ProbeRoundExact(t, ids, replies, others, k);
    }
    assert (set k | k in ids && replies(k).Some?) == set k | k in ids && k in u.nodes && u.nodes[k].healthy;
  }

  // --- The object ---------------------------------------------------------------------------

  class SharedState {
    var nodes: map<string, NodeInfo>
    var order: seq<string>
    var tasks: map<string, TaskResult>
    var schedulerIndex: Usize
    var circuitBreakers: Breakers
    const schedulingStrategy: string
    var totalSubmitted: nat
    var totalSuccess: nat
    var totalFailed: nat
    var totalRetried: nat
    var queued: nat

    function View(): AppState
      reads this
    {
      AppState(Table(nodes, order), tasks, schedulerIndex, circuitBreakers, schedulingStrategy,
               totalSubmitted, totalSuccess, totalFailed, totalRetried, queued)
    }

    constructor (strategy: string)
      ensures View() == Boot(strategy)
    {
      nodes, order, tasks, schedulerIndex, circuitBreakers := map[], [], map[], 0, map[];
      schedulingStrategy := strategy;
      totalSubmitted, totalSuccess, totalFailed, totalRetried, queued := 0, 0, 0, 0, 0;
    }

    method SelectNodeForTask(tried: set<string>, now: nat, seed: nat) returns (pick: Option<NodeInfo>)
      modifies this`circuitBreakers, this`schedulerIndex
      ensures pick == PickNode(old(View()), tried, now, seed)
      ensures View() == AfterSelect(old(View()), tried, now, seed)
      ensures pick.None? ==> schedulerIndex == old(schedulerIndex)
    {
      var excluded := AskBreakers(tried, now);
      if schedulingStrategy == LEAST_LOADED {
        pick := SelectLeastLoaded(Table(nodes, order), excluded, seed);
      } else {
        var candidates := Candidates(nodes, order, excluded, false);
        if candidates == [] {
          pick := None;
        } else {
          var idx := schedulerIndex % |candidates|;
          schedulerIndex := Bump(schedulerIndex);
          pick := Some(candidates[idx]);
        }
      }
    }

    /** The loop over `circuit_breakers.iter_mut()`: every breaker is asked, and refusals join the excluded set. */
    method AskBreakers(tried: set<string>, now: nat) returns (excluded: set<string>)
      modifies this`circuitBreakers
      ensures excluded == tried + Blocked(old(circuitBreakers), now)
      ensures circuitBreakers == AskAll(old(circuitBreakers), now)
    {
      excluded := tried;
      ghost var before := circuitBreakers;
      var pending := circuitBreakers.Keys;
      while pending != {}
        invariant pending <= before.Keys == circuitBreakers.Keys
        invariant forall n | n in pending :: circuitBreakers[n] == before[n]
        invariant forall n | n in before && n !in pending :: circuitBreakers[n] == CB.AfterAsk(before[n], now)
        invariant excluded == tried + (Blocked(before, now) - pending)
        decreases pending
      {
        var nodeId :| nodeId in pending;
        if !CB.Allows(circuitBreakers[nodeId], now) {
          excluded := excluded + {nodeId};
        }
        circuitBreakers := circuitBreakers[nodeId := CB.AfterAsk(circuitBreakers[nodeId], now)];
        pending := pending - {nodeId};
      }
    }

    /** The write-locked blocks of `dispatch_task`, selected by where the dispatch stands. */
    method CriticalSection(id: string, d: Dispatch, now: nat)
      modifies this
      ensures View() == Effect(old(View()), id, d, now)
    {
      match d.pc {
        case Counting => totalSubmitted := totalSubmitted + 1;
        case Enqueueing => queued := queued + 1;
        case Dequeueing => queued := SaturatingSub(queued, 1);
        case CountingRetry(_) => totalRetried := totalRetried + 1;
        case RecordingSuccess(n, _, _) => RecordOutcome(n, true, now);
        case RecordingFailure(n) => RecordOutcome(n, false, now);
        case StoringSuccess(n, output, ms) =>
          tasks := tasks[id := TaskResult(id, n, true, output, ms, None)];
          totalSuccess := totalSuccess + 1;
        case GivingUp =>
          totalFailed := totalFailed + 1;
          tasks := tasks[id := TaskResult(id, "none", false, [], 0, Some(d.lastError))];
        case StoringFailure =>
          tasks := tasks[id := TaskResult(id, "none", false, [], 0, Some(ALL_FAILED + d.lastError))];
          totalFailed := totalFailed + 1;
        case _ =>
      }
    }

    method RecordOutcome(node: string, ok: bool, now: nat)
      modifies this`circuitBreakers
      ensures var b := BreakerOf(old(circuitBreakers), node);
        circuitBreakers == old(circuitBreakers)[node := if ok then CB.AfterSuccess(b) else CB.AfterFailure(b, now)]
    {
      if node !in circuitBreakers {
        circuitBreakers := circuitBreakers[node := CB.Default()];
      }
      var b := circuitBreakers[node];
      circuitBreakers := circuitBreakers[node := if ok then CB.AfterSuccess(b) else CB.AfterFailure(b, now)];
    }

    method RegisterNode(id: string, maxConcurrentTasks: Option<nat>, rehashed: seq<string>)
      modifies this`nodes, this`order
      ensures var max := if maxConcurrentTasks.Some? then maxConcurrentTasks.value else 10;
        && nodes == old(nodes)[id := NodeInfo(id, 0, true, max)]
        && Table(nodes, order) == Register(old(Table(nodes, order)), id, max, rehashed)
    {
      var node := NodeInfo(id, 0, true, match maxConcurrentTasks case Some(m) => m case None => 10);
      if id !in nodes {
        order := rehashed;
      }
      nodes := nodes[id := node];
    }

    /** One health-check round over a snapshot of the nodes; between its updates other writers may run. */
    method CheckAllNodes(replies: ProbeReplies, others: Others) returns (healthyCount: nat)
      modifies this`nodes, this`order
      ensures Table(nodes, order) == ProbeRound(old(Table(nodes, order)), old(order), replies, others)
      ensures healthyCount == RepliesAmong(old(order), replies)
    {
      var snapshot := order;
      healthyCount := 0;
      for i := 0 to |snapshot|
        invariant Table(nodes, order) == ProbeRound(old(Table(nodes, order)), snapshot[..i], replies, others)
        invariant healthyCount == RepliesAmong(snapshot[..i], replies)
      {
        assert snapshot[..i + 1][..i] == snapshot[..i];
        var id, now := snapshot[i], others(i, Table(nodes, order));
        nodes, order := now.nodes, now.order;
        match replies(id) {
          case Some(active) =>
            if id in nodes {
              nodes := nodes[id := nodes[id].(healthy := true, activeTasks := active)];
            }
            healthyCount := healthyCount + 1;
          case None =>
            if id in nodes {
              nodes := nodes[id := nodes[id].(healthy := false)];
            }
        }
      }
      assert snapshot[..|snapshot|] == snapshot;
    }
  }
}
