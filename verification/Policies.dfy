/** Documented policies the code does not follow: when it makes a difference, and runs in which it does. */
module Policies {
  import opened Common
  import opened Scheduling
  import opened DispatchLoop
  import opened ControlPlane
  import opened DispatchRuns
  import opened SelectionRuns
  import CB = CircuitBreakers

  // --- A capacity refusal as a breaker failure ----------------------------------------------

  /** `node` refused an RPC for want of capacity. */
  predicate Refuses(w: World, e: Event, node: string)
  {
    && e.Returned? && e.outcome == AtCapacity
    && e.id in w.runs && w.runs[e.id].pc.Calling? && w.runs[e.id].pc.node == node
  }

  predicate Reporting(pc: Pc)
  {
    pc.RecordingSuccess? || pc.RecordingFailure?
  }

  /** Steps of the dispatch that told a breaker of an outcome. */
  function Reports(t: Trace): nat
  {
    if t.Start? then 0 else Reports(t.before) + Bit(t.event.Go? && Reporting(State(t.before).pc))
  }

  lemma StepReports(d: Dispatch, i: Input)
    requires Accepts(d, i)
    ensures Bit(i.Go? && Reporting(d.pc)) + Bit(i == Replied(AtCapacity)) + Bit(Reporting(Advance(d, i).pc))
      == Bit(i.Replied?) + Bit(Reporting(d.pc))
  {
  }

  lemma {:induction false} TraceReports(t: Trace)
    requires Valid(t)
    ensures Reports(t) + CapacityReplies(t) + Bit(Reporting(State(t).pc)) == Replies(t)
  {
    if t.Then? {
      TraceReports(t.before);
      StepReports(State(t.before), t.event);
    }
  }

  /** In every interleaving each reply a dispatch gets is reported to a breaker once, or is about to be, except the
      refusals, which never are. */
  lemma {:induction false} RefusalsUnreported(strategy: string, r: Interleaving, id: string)
    requires Possible(strategy, r) && id in At(strategy, r).runs
    ensures var t := TraceOf(strategy, r, id);
      Replies(t) == Reports(t) + Bit(Reporting(At(strategy, r).runs[id].pc)) + CapacityReplies(t)
  {
    Projection(strategy, r, id);
    TraceReports(TraceOf(strategy, r, id));
  }

  /** The history the documented policy would log: refusals are failures too. */
  function DocumentedHistory(strategy: string, r: Interleaving, node: string): CB.History
  {
    if r.Start? then Start
    else
      var h, w, e := DocumentedHistory(strategy, r.before, node), At(strategy, r.before), r.event;
      if Refuses(w, e, node) then Then(h, CB.Failure(w.clock)) else Logged(w, e, node, h)
  }

  /** The documented policy would exclude the node now. */
  ghost predicate DocumentedBlocks(strategy: string, r: Interleaving, node: string)
  {
    !CB.Allows(CB.Replay(CB.Default(), DocumentedHistory(strategy, r, node)), At(strategy, r).clock)
  }

  /** Refusals since the node's last recorded success. */
  function RefusalsSinceSuccess(strategy: string, r: Interleaving, node: string): nat
  {
    if r.Start? then 0
    else
      var n, w, e := RefusalsSinceSuccess(strategy, r.before, node), At(strategy, r.before), r.event;
      if Records(w, e, node, true) then 0 else n + Bit(Refuses(w, e, node))
  }

  function LastRefusal(strategy: string, r: Interleaving, node: string): Option<nat>
  {
    if r.Start? then None
    else if Refuses(At(strategy, r.before), r.event, node) then Some(At(strategy, r.before).clock)
    else LastRefusal(strategy, r.before, node)
  }

  function Latest(a: Option<nat>, b: Option<nat>): Option<nat>
  {
    if a.None? then b else if b.None? || b.value <= a.value then a else b
  }

  predicate NotAfter(t: Option<nat>, now: nat)
  {
    t.Some? ==> t.value <= now
  }

  /** The documented history, told from the actual one and the refusals. */
  ghost predicate Summarises(h: CB.History, d: CB.History, refusals: nat, last: Option<nat>, now: nat)
  {
    && CB.FailuresSinceSuccess(d) == CB.FailuresSinceSuccess(h) + refusals
    && CB.LastFailure(d) == Latest(CB.LastFailure(h), last)
    && NotAfter(CB.LastFailure(h), now) && NotAfter(last, now)
    && CB.MonotoneUntil(d, now)
  }

  lemma StepSummarises(w: World, e: Event, node: string, h: CB.History, d: CB.History, refusals: nat, last: Option<nat>)
    requires Summarises(h, d, refusals, last, w.clock)
    ensures Summarises(
      Logged(w, e, node, h),
      if Refuses(w, e, node) then Then(d, CB.Failure(w.clock)) else Logged(w, e, node, d),
      if Records(w, e, node, true) then 0 else refusals + Bit(Refuses(w, e, node)),
      if Refuses(w, e, node) then Some(w.clock) else last,
      w.clock)
  {
  }

  lemma ClockOnly(h: CB.History, d: CB.History, refusals: nat, last: Option<nat>, now: nat, later: nat)
    requires Summarises(h, d, refusals, last, now) && now <= later
    ensures Summarises(h, d, refusals, last, later)
  {
  }

  lemma {:induction false} DocumentedSummary(strategy: string, r: Interleaving, node: string)
    ensures Summarises(
      HistoryOf(strategy, r, node), DocumentedHistory(strategy, r, node),
      RefusalsSinceSuccess(strategy, r, node), LastRefusal(strategy, r, node), At(strategy, r).clock)
  {
    if r.Then? {
      var w := At(strategy, r.before);
      DocumentedSummary(strategy, r.before, node);
      StepSummarises(w, r.event, node, HistoryOf(strategy, r.before, node), DocumentedHistory(strategy, r.before, node),
        RefusalsSinceSuccess(strategy, r.before, node), LastRefusal(strategy, r.before, node));
      ClockOnly(HistoryOf(strategy, r, node), DocumentedHistory(strategy, r, node),
        RefusalsSinceSuccess(strategy, r, node), LastRefusal(strategy, r, node), w.clock, At(strategy, r).clock);
    }
  }

  predicate Recent(t: Option<nat>, now: nat)
  {
    t.Some? ==> now < t.value + CB.COOLDOWN_MS
  }

  /** The code and the documented policy differ about a node if and only if failures and refusals together reach the
      threshold and the latest of them is recent, while the failures alone are too few or too old. Then the code admits
      the node and the policy would not; the other way round never happens. */
  lemma {:induction false} RefusalsMatterExactly(strategy: string, r: Interleaving, node: string)
    requires Possible(strategy, r)
    ensures var w := At(strategy, r);
      var h, refusals := HistoryOf(strategy, r, node), RefusalsSinceSuccess(strategy, r, node);
      var failures, last := CB.FailuresSinceSuccess(h), CB.LastFailure(h);
      && ((node in Blocked(w.state.breakers, w.clock)) != DocumentedBlocks(strategy, r, node) <==>
            && failures + refusals >= CB.FAILURE_THRESHOLD
            && Recent(Latest(last, LastRefusal(strategy, r, node)), w.clock)
            && (failures < CB.FAILURE_THRESHOLD || !Recent(last, w.clock)))
      && (node in Blocked(w.state.breakers, w.clock) ==> DocumentedBlocks(strategy, r, node))
  {
    var w := At(strategy, r);
    BlockedByLog(strategy, r, node);
    DocumentedSummary(strategy, r, node);
    CB.ReplaySummary(CB.FAILURE_THRESHOLD, CB.COOLDOWN_MS, DocumentedHistory(strategy, r, node), w.clock);
    BreakersFollowHistory(strategy, r, node);
    CB.ReplaySummary(CB.FAILURE_THRESHOLD, CB.COOLDOWN_MS, HistoryOf(strategy, r, node), w.clock);
  }

  // --- A run in which they differ -----------------------------------------------------------

  const STRATEGY := "round_robin"

  const ONE_NODE := Table(map["a" := NodeInfo("a", 0, true, 10)], ["a"])

  /** One idle node, no breaker, and a dispatch at `pc` that the node has refused k times. */
  ghost predicate Stands(w: World, pc: Pc, k: nat, now: nat, wake: nat)
  {
    && w.state.table == ONE_NODE && w.state.breakers == map[] && w.state.strategy == STRATEGY
    && "t" in w.runs && w.runs["t"] == Dispatch(pc, {}, "", 0, k, 0)
    && w.clock == now && "t" in w.wakeAt && w.wakeAt["t"] == wake
  }

  lemma OnlyPick(s: AppState, now: nat)
    requires s.table == ONE_NODE && s.breakers == map[] && s.strategy == STRATEGY
    ensures var pick := PickNode(s, {}, now, 0); pick.Some? && pick.value.id == "a"
    ensures AfterSelect(s, {}, now, 0) == s.(schedulerIndex := Bump(s.schedulerIndex))
  {
    assert {} + Blocked(s.breakers, now) == {};
    assert ["a"][1..] == [];
    assert Candidates(s.table.nodes, s.table.order, {}, false) == [NodeInfo("a", 0, true, 10)];
    assert AskAll(s.breakers, now) == map[];
  }

  lemma PickStep(w: World, k: nat, now: nat)
    requires Stands(w, Choosing, k, now, now)
    ensures Enabled(w, Chosen("t", 0)) && Stands(Next(w, Chosen("t", 0)), Calling("a"), k, now, now)
  {
    OnlyPick(w.state, w.clock);
  }

  lemma RefuseStep(w: World, k: nat, now: nat)
    requires Stands(w, Calling("a"), k, now, now) && k < MAX_CAPACITY_WAITS
    ensures Refuses(w, Returned("t", AtCapacity), "a") && Enabled(w, Returned("t", AtCapacity))
    ensures Stands(Next(w, Returned("t", AtCapacity)), Yielding, k + 1, now, now + CAPACITY_NAP_MS)
  {
  }

  lemma SleepStep(w: World, k: nat, now: nat)
    requires Stands(w, Yielding, k, now, now + CAPACITY_NAP_MS)
    ensures var later := Next(w, Tick(CAPACITY_NAP_MS));
      && Stands(later, Yielding, k, now + CAPACITY_NAP_MS, now + CAPACITY_NAP_MS) && Enabled(later, Went("t"))
      && Stands(Next(later, Went("t")), Choosing, k, now + CAPACITY_NAP_MS, now + CAPACITY_NAP_MS)
  {
  }

  /** The run ends with the dispatch at `pc` after k refusals, all since the start, the last at `last`. */
  ghost predicate Ends(r: Interleaving, pc: Pc, k: nat, now: nat, wake: nat, last: Option<nat>)
  {
    && Possible(STRATEGY, r) && Stands(At(STRATEGY, r), pc, k, now, wake)
    && RefusalsSinceSuccess(STRATEGY, r, "a") == k && LastRefusal(STRATEGY, r, "a") == last
  }

  /** Some run does. */
  ghost predicate Reaches(pc: Pc, k: nat, now: nat, wake: nat, last: Option<nat>)
  {
    exists r :: Ends(r, pc, k, now, wake, last)
  }

  lemma Arrive()
    ensures Reaches(Choosing, 0, 0, 0, None)
  {
    var r := Then(Then(Start, Registered("a", 10, ["a"])), Spawned("t"));
    var w := Genesis(STRATEGY).(state := Boot(STRATEGY).(table := ONE_NODE), runs := map["t" := Initial()]);
    assert Possible(STRATEGY, r) && At(STRATEGY, r) == w;
    assert RefusalsSinceSuccess(STRATEGY, r, "a") == 0 && LastRefusal(STRATEGY, r, "a") == None;
    var later := Then(r, Went("t"));
    assert Possible(STRATEGY, later) && At(STRATEGY, later) == Next(w, Went("t"));
    assert Stands(Next(w, Went("t")), Choosing, 0, 0, 0);
    assert Ends(later, Choosing, 0, 0, 0, None);
  }

  lemma PickOnce(k: nat, now: nat, last: Option<nat>)
    requires Reaches(Choosing, k, now, now, last)
    ensures Reaches(Calling("a"), k, now, now, last)
  {
    var r :| Ends(r, Choosing, k, now, now, last);
    PickStep(At(STRATEGY, r), k, now);
    assert Ends(Then(r, Chosen("t", 0)), Calling("a"), k, now, now, last);
  }

  lemma RefuseOnce(k: nat, now: nat, last: Option<nat>)
    requires Reaches(Calling("a"), k, now, now, last) && k < MAX_CAPACITY_WAITS
    ensures Reaches(Yielding, k + 1, now, now + CAPACITY_NAP_MS, Some(now))
  {
    var r :| Ends(r, Calling("a"), k, now, now, last);
    RefuseStep(At(STRATEGY, r), k, now);
    assert Ends(Then(r, Returned("t", AtCapacity)), Yielding, k + 1, now, now + CAPACITY_NAP_MS, Some(now));
  }

  lemma SleepOnce(k: nat, now: nat, later: nat, last: Option<nat>)
    requires Reaches(Yielding, k, now, later, last) && later == now + CAPACITY_NAP_MS
    ensures Reaches(Choosing, k, later, later, last)
  {
    var r :| Ends(r, Yielding, k, now, later, last);
    SleepStep(At(STRATEGY, r), k, now);
    var waited := Then(r, Tick(CAPACITY_NAP_MS));
    assert Ends(waited, Yielding, k, later, later, last);
    assert Ends(Then(waited, Went("t")), Choosing, k, later, later, last);
  }

  lemma OneRefusal(k: nat, now: nat, later: nat, last: Option<nat>)
    requires Reaches(Choosing, k, now, now, last) && k < MAX_CAPACITY_WAITS && later == now + CAPACITY_NAP_MS
    ensures Reaches(Choosing, k + 1, later, later, Some(now))
  {
    PickOnce(k, now, last);
    RefuseOnce(k, now, last);
    SleepOnce(k + 1, now, later, Some(now));
  }

  lemma {:induction false} Refusals(k: nat) returns (now: nat, last: Option<nat>)
    requires k <= MAX_CAPACITY_WAITS
    ensures Reaches(Choosing, k, now, now, last)
    ensures now == k * CAPACITY_NAP_MS && (k > 0 ==> last == Some(now - CAPACITY_NAP_MS))
  {
    if k == 0 {
      Arrive();
      now, last := 0, None;
    } else {
      now, last := Refusals(k - 1);
      OneRefusal(k - 1, now, now + CAPACITY_NAP_MS, last);
      now, last := now + CAPACITY_NAP_MS, Some(now);
    }
  }

  /** The next selection would pick `node`. */
  ghost predicate PicksNext(r: Interleaving, node: string)
  {
    var w := At(STRATEGY, r);
    NodeId(PickNode(w.state, {}, w.clock, 0)) == Some(node)
  }

  /** Five refusals in half a second: the policy would exclude the node, the code goes on picking it. */
  lemma {:induction false} RefusedNodeIsPicked()
    ensures exists r ::
      Possible(STRATEGY, r) && DocumentedBlocks(STRATEGY, r, "a") && PicksNext(r, "a")
  {
    var now, last := Refusals(CB.FAILURE_THRESHOLD);
    var r :| Ends(r, Choosing, CB.FAILURE_THRESHOLD, now, now, last);
    OnlyPick(At(STRATEGY, r).state, now);
    RefusalsMatterExactly(STRATEGY, r, "a");
    BreakersFollowHistory(STRATEGY, r, "a");
    CB.ReplaySummary(CB.FAILURE_THRESHOLD, CB.COOLDOWN_MS, HistoryOf(STRATEGY, r, "a"), now);
  }

  // --- A run in which one task is retried twice ---------------------------------------------

  const TWO_NODES := Table(map["a" := NodeInfo("a", 0, true, 10), "b" := NodeInfo("b", 0, true, 10)], ["a", "b"])

  /** Two idle nodes, closed breakers, and a dispatch in state `d`, awake within `wake`. */
  ghost predicate Working(w: World, d: Dispatch, wake: nat)
  {
    && w.state.table == TWO_NODES && w.state.strategy == STRATEGY
    && (forall n | n in w.state.breakers ::
          var b := w.state.breakers[n];
          b.state == CB.Closed && b.failureThreshold == CB.FAILURE_THRESHOLD && b.failureCount <= d.errorRetries)
    && "t" in w.runs && w.runs["t"] == d
    && ("t" in w.wakeAt ==> w.wakeAt["t"] <= w.clock + wake)
  }

  lemma GoStep(w: World, d: Dispatch)
    requires Working(w, d, 0) && Accepts(d, Go) && d.errorRetries < 3
    ensures Enabled(w, Went("t")) && Working(Next(w, Went("t")), AfterGo(d), SleepMs(AfterGo(d).pc))
    ensures Next(w, Went("t")).state.schedulerIndex == w.state.schedulerIndex
  {
  }

  lemma ReplyStep(w: World, d: Dispatch, o: Outcome)
    requires Working(w, d, 0) && d.pc.Calling?
    ensures Enabled(w, Returned("t", o))
    ensures Working(Next(w, Returned("t", o)), AfterReply(d, d.pc.node, o), SleepMs(AfterReply(d, d.pc.node, o).pc))
  {
  }

  lemma TickStep(w: World, d: Dispatch, wake: nat)
    requires Working(w, d, wake)
    ensures Working(Next(w, Tick(wake)), d, 0)
  {
  }

  lemma CandidatesOfTwo(exclude: set<string>)
    requires exclude == {} || exclude == {"a"}
    ensures var ns := Candidates(TWO_NODES.nodes, TWO_NODES.order, exclude, false);
      if exclude == {} then |ns| == 2 && ns[0].id == "a" else |ns| == 1 && ns[0].id == "b"
  {
    var m, a, b := TWO_NODES.nodes, NodeInfo("a", 0, true, 10), NodeInfo("b", 0, true, 10);
    assert ["a", "b"][1..] == ["b"] && ["b"][1..] == [];
    assert Candidates(m, ["b"], exclude, false) == [b];
    assert Candidates(m, ["a", "b"], exclude, false) == if exclude == {} then [a, b] else [b];
  }

  lemma PickTwo(w: World, d: Dispatch, node: string)
    requires Working(w, d, 0) && d.pc.Choosing?
    requires (d.tried == {} && w.state.schedulerIndex == 0 && node == "a") || (d.tried == {"a"} && node == "b")
    ensures InputOf(w, Chosen("t", 0)) == Chose(Some(node)) && Enabled(w, Chosen("t", 0))
    ensures Working(Next(w, Chosen("t", 0)), AfterChoice(d, Some(node)), 0)
    ensures Next(w, Chosen("t", 0)).state.schedulerIndex == Bump(w.state.schedulerIndex)
  {
    assert Blocked(w.state.breakers, w.clock) == {};
    assert d.tried + Blocked(w.state.breakers, w.clock) == d.tried;
    CandidatesOfTwo(d.tried);
  }

  /** The run ends in a world after n picks of the dispatch that followed an error. */
  ghost predicate EndsIn(r: Interleaving, w: World, n: nat)
  {
    Possible(STRATEGY, r) && At(STRATEGY, r) == w && RetryPicks(TraceOf(STRATEGY, r, "t")) == n
  }

  /** Some run does. */
  ghost predicate Reached(w: World, n: nat)
  {
    exists r :: EndsIn(r, w, n)
  }

  lemma Move(w: World, e: Event, n: nat)
    requires Reached(w, n) && Enabled(w, e) && !e.Chosen?
    ensures Reached(Next(w, e), n)
  {
    var r :| EndsIn(r, w, n);
    StepRetryPicks(STRATEGY, r, e, "t");
    assert EndsIn(Then(r, e), Next(w, e), n);
  }

  lemma MovePick(w: World, node: string, n: nat)
    requires Reached(w, n) && Enabled(w, Chosen("t", 0)) && InputOf(w, Chosen("t", 0)) == Chose(Some(node))
    ensures Reached(Next(w, Chosen("t", 0)), n + Bit(w.runs["t"].errorRetries > 0))
  {
    var r :| EndsIn(r, w, n);
    StepRetryPicks(STRATEGY, r, Chosen("t", 0), "t");
    Projection(STRATEGY, r, "t");
    ErrorsAreTallies(TraceOf(STRATEGY, r, "t"));
    assert EndsIn(Then(r, Chosen("t", 0)), Next(w, Chosen("t", 0)), n + Bit(w.runs["t"].errorRetries > 0));
  }

  /** Some run leads to the dispatch in state `d`, awake, after n picks that followed an error. */
  ghost predicate Works(d: Dispatch, n: nat, index: nat)
  {
    exists w :: Working(w, d, 0) && Reached(w, n) && w.state.schedulerIndex == index
  }

  /** One more step, and the sleep after it. */
  lemma StepOn(d: Dispatch, d': Dispatch, n: nat, index: nat, i: Input)
    requires Works(d, n, index) && Accepts(d, i) && !i.Chose? && d.errorRetries < 3 && d' == Advance(d, i)
    ensures Works(d', n, index)
  {
    var w :| Working(w, d, 0) && Reached(w, n) && w.state.schedulerIndex == index;
    var wake, e := SleepMs(d'.pc), if i.Go? then Went("t") else Returned("t", i.outcome);
    if i.Go? { GoStep(w, d); } else { ReplyStep(w, d, i.outcome); }
    Move(w, e, n);
    TickStep(Next(w, e), d', wake);
    Move(Next(w, e), Tick(wake), n);
  }

  lemma PickOn(d: Dispatch, d': Dispatch, n: nat, index: Usize, node: string)
    requires Works(d, n, index) && d.pc.Choosing? && d' == AfterChoice(d, Some(node))
    requires (d.tried == {} && index == 0 && node == "a") || (d.tried == {"a"} && node == "b")
    ensures Works(d', n + Bit(d.errorRetries > 0), Bump(index))
  {
    var w :| Working(w, d, 0) && Reached(w, n) && w.state.schedulerIndex == index;
    PickTwo(w, d, node);
    MovePick(w, node, n);
  }

  lemma Begin()
    ensures Works(Initial(), 0, 0)
  {
    var r := Then(Start, Registered("a", 10, ["a"]));
    assert Possible(STRATEGY, r) && At(STRATEGY, r).state.table == ONE_NODE;
    r := Then(r, Registered("b", 10, ["a", "b"]));
    assert At(STRATEGY, r) == Genesis(STRATEGY).(state := Boot(STRATEGY).(table := TWO_NODES));
    var w := Next(At(STRATEGY, r), Spawned("t"));
    StepRetryPicks(STRATEGY, r, Spawned("t"), "t");
    assert EndsIn(Then(r, Spawned("t")), w, 0);
    assert Working(w, Initial(), 0) && Reached(w, 0);
  }

  lemma FirstPick(d: Dispatch)
    requires d == Dispatch(Calling("a"), {}, "", 0, 0, 0)
    ensures Works(d, 0, 1)
  {
    var choosing := d.(pc := Choosing);
    Begin();
    StepOn(Initial(), choosing, 0, 0, Go);
    PickOn(choosing, d, 0, 0, "a");
  }

  lemma FirstReply(d: Dispatch)
    requires d == Dispatch(RecordingFailure("a"), {"a"}, "", 0, 0, 0)
    ensures Works(d, 0, 1)
  {
    var calling := Dispatch(Calling("a"), {}, "", 0, 0, 0);
    FirstPick(calling);
    StepOn(calling, d, 0, 1, Replied(TransportFailed("")));
  }

  lemma FirstError(d: Dispatch)
    requires d == Dispatch(Choosing, {"a"}, "", 0, 0, 1)
    ensures Works(d, 0, 1)
  {
    var failed := Dispatch(RecordingFailure("a"), {"a"}, "", 0, 0, 0);
    FirstReply(failed);
    StepOn(failed, d.(pc := BackingOff), 0, 1, Go);
    StepOn(d.(pc := BackingOff), d, 0, 1, Go);
  }

  /** The other node is picked, a retry. */
  lemma Retry(d: Dispatch)
    requires d == Dispatch(Calling("b"), {"a"}, "", 0, 0, 1) && Works(d.(pc := Choosing), 0, 1)
    ensures Works(d, 1, 2)
  {
    PickOn(d.(pc := Choosing), d.(pc := CountingRetry("b")), 0, 1, "b");
    StepOn(d.(pc := CountingRetry("b")), d, 1, 2, Go);
  }

  lemma RefuseCall(d: Dispatch, d': Dispatch)
    requires d == Dispatch(Calling("b"), {"a"}, "", 0, 0, 1) && d' == Dispatch(Yielding, {"a"}, "", 0, 1, 1) && Works(d, 1, 2)
    ensures Works(d', 1, 2)
  {
    assert AfterReply(d, "b", AtCapacity) == d';
    StepOn(d, d', 1, 2, Replied(AtCapacity));
  }

  /** It refuses. */
  lemma RefuseRetry(d: Dispatch, d': Dispatch)
    requires d == Dispatch(Calling("b"), {"a"}, "", 0, 0, 1) && d' == Dispatch(Choosing, {"a"}, "", 0, 1, 1) && Works(d, 1, 2)
    ensures Works(d', 1, 2)
  {
    RefuseCall(d, d'.(pc := Yielding));
    StepOn(d'.(pc := Yielding), d', 1, 2, Go);
  }

  /** One error and one refusal: the one retried task has been counted twice over. */
  lemma {:induction false} RetriedTwice()
    ensures exists r ::
      var w := At(STRATEGY, r);
      && Possible(STRATEGY, r)
      && w.state.totalRetried + Count(w.runs, AboutToCountRetry) > |RetriedTasks(STRATEGY, r)|
  {
    var d := Dispatch(Choosing, {"a"}, "", 0, 0, 1);
    var d' := d.(capacityWaits := 1);
    FirstError(d);
    Retry(d.(pc := Calling("b")));
    RefuseRetry(d.(pc := Calling("b")), d');
    PickOn(d', d'.(pc := CountingRetry("b")), 1, 2, "b");
    var w :| Working(w, d'.(pc := CountingRetry("b")), 0) && Reached(w, 2) && w.state.schedulerIndex == 3;
    var r :| EndsIn(r, w, 2);
    RetriesCounted(STRATEGY, r);
    PicksCoverTasks(STRATEGY, r);
  }
}
