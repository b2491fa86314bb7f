/** Any number of dispatches interleaved with probes, registrations and the clock.

    One event is one critical section on the shared state, one sleep ending, or one RPC returning.
    The queued-counter decrement is one atomic step here; its two guards are in `LockLevel`. */
module DispatchRuns {
  import opened Common
  import opened Scheduling
  import opened DispatchLoop
  import opened ControlPlane

  datatype World = World(
    state: AppState,
    clock: nat,
    runs: map<string, Dispatch>,
    wakeAt: map<string, nat>)

  datatype Event =
    | Tick(ms: nat)
    | Registered(node: string, maxTasks: nat, order: seq<string>)
    | ProbeReturned(node: string, reply: Option<nat>)
    | Spawned(id: string)
    | Chosen(id: string, seed: nat)
    | Returned(id: string, outcome: Outcome)
    | Went(id: string)

  type Interleaving = Run<Event>

  function Genesis(strategy: string): World
  {
    World(Boot(strategy), 0, map[], map[])
  }

  predicate IsStep(e: Event)
  {
    e.Chosen? || e.Returned? || e.Went?
  }

  predicate StepOf(e: Event, id: string)
  {
    IsStep(e) && e.id == id
  }

  predicate Awake(w: World, id: string)
  {
    id in w.wakeAt ==> w.wakeAt[id] <= w.clock
  }

  ghost predicate Enabled(w: World, e: Event)
  {
    match e
    case Tick(_) => true
    case Registered(n, max, order) => Register(w.state.table, n, max, order).Valid()
    case ProbeReturned(_, _) => true
    case Spawned(id) => id !in w.runs
    case Chosen(id, _) => id in w.runs && w.runs[id].pc.Choosing?
    case Returned(id, _) => id in w.runs && w.runs[id].pc.Calling?
    case Went(id) => id in w.runs && Accepts(w.runs[id], Go) && Awake(w, id)
  }

  function NodeId(n: Option<NodeInfo>): Option<string>
  {
    if n.Some? then Some(n.value.id) else None
  }

  /** The input a step feeds to its own dispatch. */
  function InputOf(w: World, e: Event): Input
    requires IsStep(e) && e.id in w.runs
  {
    match e
    case Chosen(id, seed) => Chose(NodeId(PickNode(w.state, w.runs[id].tried, w.clock, seed)))
    case Returned(_, o) => Replied(o)
    case Went(_) => Go
  }

  /** What a step does to the shared state. */
  function SharedAfter(w: World, e: Event): AppState
    requires IsStep(e) && e.id in w.runs
  {
    match e
    case Chosen(id, seed) => AfterSelect(w.state, w.runs[id].tried, w.clock, seed)
    case Returned(_, _) => w.state
    case Went(id) => Effect(w.state, id, w.runs[id], w.clock)
  }

  function Next(w: World, e: Event): World
  {
    match e
    case Tick(ms) => w.(clock := w.clock + ms)
    case Registered(n, max, order) => w.(state := w.state.(table := Register(w.state.table, n, max, order)))
    case ProbeReturned(n, reply) => w.(state := w.state.(table := ApplyProbe(w.state.table, n, reply)))
    case Spawned(id) => w.(runs := w.runs[id := Initial()])
    case _ =>
      if e.id !in w.runs then w
      else
        var d := Take(w.runs[e.id], InputOf(w, e));
        World(SharedAfter(w, e), w.clock, w.runs[e.id := d], w.wakeAt[e.id := w.clock + SleepMs(d.pc)])
  }

  function At(strategy: string, r: Interleaving): World
  {
    match r
    case Start => Genesis(strategy)
    case Then(p, e) => Next(At(strategy, p), e)
  }

  ghost predicate Possible(strategy: string, r: Interleaving)
  {
    r.Then? ==> Possible(strategy, r.before) && Enabled(At(strategy, r.before), r.event)
  }

  // --- The node table stays a table ---------------------------------------------------------

  lemma StepTable(w: World, e: Event)
    requires Enabled(w, e) && w.state.table.Valid()
    ensures Next(w, e).state.table.Valid()
    ensures IsStep(e) ==> Next(w, e).state.table == w.state.table
  {
  }

  lemma {:induction false} TableAlwaysValid(strategy: string, r: Interleaving)
    requires Possible(strategy, r)
    ensures At(strategy, r).state.table.Valid()
  {
    if r.Then? {
      TableAlwaysValid(strategy, r.before);
      StepTable(At(strategy, r.before), r.event);
    }
  }

  lemma {:induction false} StrategyFixed(strategy: string, r: Interleaving)
    ensures At(strategy, r).state.strategy == strategy
  {
    if r.Then? { StrategyFixed(strategy, r.before); }
  }

  lemma PickIsUntried(s: AppState, tried: set<string>, now: nat, seed: nat)
    requires s.table.Valid()
    ensures var n := PickNode(s, tried, now, seed); n.Some? ==> n.value.id !in tried
  {
    var exclude := tried + Blocked(s.breakers, now);
    LeastLoadedExact(s.table, exclude, seed);
    PickSound(s.table, exclude, false, s.schedulerIndex);
  }

  // --- Each dispatch, seen alone, is a run of the flat machine ------------------------------

  function TraceOf(strategy: string, r: Interleaving, id: string): Trace
  {
    match r
    case Start => Start
    case Then(p, e) =>
      var t := TraceOf(strategy, p, id);
      if StepOf(e, id) && id in At(strategy, p).runs then Then(t, InputOf(At(strategy, p), e)) else t
  }

  lemma StepAccepted(w: World, e: Event)
    requires Enabled(w, e) && IsStep(e) && w.state.table.Valid()
    ensures Accepts(w.runs[e.id], InputOf(w, e))
    ensures Next(w, e).runs == w.runs[e.id := Advance(w.runs[e.id], InputOf(w, e))]
  {
    if e.Chosen? { PickIsUntried(w.state, w.runs[e.id].tried, w.clock, e.seed); }
  }

  /** Whatever interleaves, a dispatch is where its own trace says it is. */
  lemma {:induction false} Projection(strategy: string, r: Interleaving, id: string)
    requires Possible(strategy, r)
    ensures var w := At(strategy, r);
      if id in w.runs then Valid(TraceOf(strategy, r, id)) && State(TraceOf(strategy, r, id)) == w.runs[id]
      else TraceOf(strategy, r, id) == Start
  {
    if r.Then? {
      Projection(strategy, r.before, id);
      TableAlwaysValid(strategy, r.before);
      if IsStep(r.event) { StepAccepted(At(strategy, r.before), r.event); }
    }
  }

  /** In every interleaving, one dispatch stays within its budgets. */
  lemma InterleavedBounds(strategy: string, r: Interleaving, id: string)
    requires Possible(strategy, r)
    ensures var t := TraceOf(strategy, r, id);
      Rpcs(t) <= MAX_RPCS && Selections(t) <= MAX_SELECTIONS && Slept(t) <= MAX_SLEEP_MS && Steps(t) <= MAX_STEPS
  {
    Projection(strategy, r, id);
    DispatchBounds(TraceOf(strategy, r, id));
  }

  /** In every interleaving, the RPCs of one dispatch that end in an error go to pairwise distinct nodes. */
  lemma {:induction false} InterleavedErrorsDistinct(strategy: string, r: Interleaving, id: string)
    requires Possible(strategy, r) && id in At(strategy, r).runs
    ensures var d := At(strategy, r).runs[id];
      && Distinct(ErrorNodes(TraceOf(strategy, r, id)))
      && (forall n :: n in ErrorNodes(TraceOf(strategy, r, id)) <==> n in d.tried)
      && |d.tried| == d.errorRetries + Bit(d.pc.RecordingFailure?)
      && (d.pc.Calling? ==> d.pc.node !in d.tried)
  {
    Projection(strategy, r, id);
    ErrorNodesDistinct(TraceOf(strategy, r, id));
  }

  // --- The books ----------------------------------------------------------------------------

  predicate Unfinished(d: Dispatch)
  {
    !d.pc.Counting? && !d.pc.Done?
  }

  predicate InQueue(d: Dispatch)
  {
    d.pc.Waiting? || d.pc.Dequeueing?
  }

  predicate Successful(t: TaskResult)
  {
    t.success
  }

  predicate Unsuccessful(t: TaskResult)
  {
    !t.success
  }

  /** Submissions balance, results match the totals, and the queue gauge is exact. */
  ghost predicate BooksBalance(w: World)
  {
    && w.state.totalSubmitted == w.state.totalSuccess + w.state.totalFailed + Count(w.runs, Unfinished)
    && w.state.totalSuccess == Count(w.state.tasks, Successful)
    && w.state.totalFailed == Count(w.state.tasks, Unsuccessful)
    && w.state.queued == Count(w.runs, InQueue)
  }

  /** A result is stored exactly for the finished dispatches, under their own id. */
  ghost predicate ResultsMatch(w: World)
  {
    && (forall id :: id in w.state.tasks <==> id in w.runs && w.runs[id].pc.Done?)
    && (forall id | id in w.state.tasks :: w.state.tasks[id].taskId == id && w.state.tasks[id].success == w.runs[id].pc.ok)
  }

  /** What one critical section does to the totals and the stored results. */
  lemma EffectOnBooks(s: AppState, id: string, d: Dispatch, now: nat)
    ensures var u := Effect(s, id, d, now);
      && u.tasks == (if Storing(d.pc) then s.tasks[id := StoredResult(id, d)] else s.tasks)
      && u.totalSuccess == s.totalSuccess + Bit(d.pc.StoringSuccess?)
      && u.totalFailed == s.totalFailed + Bit(d.pc.GivingUp? || d.pc.StoringFailure?)
      && u.totalSubmitted == s.totalSubmitted + Bit(d.pc.Counting?)
      && u.queued == (if d.pc.Dequeueing? then SaturatingSub(s.queued, 1) else s.queued + Bit(d.pc.Enqueueing?))
  {
  }

  /** A dispatch finishes exactly in the step that stores its result, and waits exactly between the two queue updates. */
  lemma AdvanceOnBooks(d: Dispatch, i: Input)
    requires Accepts(d, i)
    ensures var d' := Advance(d, i);
      && (d'.pc.Done? <==> i.Go? && Storing(d.pc))
      && (d'.pc.Done? ==> d'.pc.ok == d.pc.StoringSuccess?)
      && !d'.pc.Counting?
      && !d.pc.Done?
      && (InQueue(d') <==> i.Go? && (d.pc.Enqueueing? || d.pc.Waiting?))
  {
  }

  lemma StepOnTasks(w: World, e: Event)
    requires Enabled(w, e)
    ensures Next(w, e).state.tasks ==
      if e.Went? && Storing(w.runs[e.id].pc) then w.state.tasks[e.id := StoredResult(e.id, w.runs[e.id])] else w.state.tasks
  {
    if e.Went? { EffectOnBooks(w.state, e.id, w.runs[e.id], w.clock); }
  }

  lemma StepOnRuns(w: World, e: Event)
    requires Enabled(w, e) && w.state.table.Valid()
    ensures IsStep(e) ==> Accepts(w.runs[e.id], InputOf(w, e)) && (InputOf(w, e).Go? <==> e.Went?)
    ensures Next(w, e).runs ==
      if e.Spawned? then w.runs[e.id := Initial()]
      else if IsStep(e) then w.runs[e.id := Advance(w.runs[e.id], InputOf(w, e))]
      else w.runs
  {
    if IsStep(e) { StepAccepted(w, e); }
  }

  lemma StepResults(w: World, e: Event)
    requires Enabled(w, e) && w.state.table.Valid() && ResultsMatch(w)
    ensures ResultsMatch(Next(w, e))
    ensures forall id | id in w.state.tasks :: id in Next(w, e).state.tasks && Next(w, e).state.tasks[id] == w.state.tasks[id]
  {
    StepOnTasks(w, e);
    StepOnRuns(w, e);
    if IsStep(e) { AdvanceOnBooks(w.runs[e.id], InputOf(w, e)); }
  }

  lemma StepCounts(w: World, e: Event)
    requires Enabled(w, e) && w.state.table.Valid() && IsStep(e)
    ensures var d := w.runs[e.id];
      && Count(Next(w, e).runs, Unfinished) == Count(w.runs, Unfinished) + Bit(e.Went? && d.pc.Counting?) - Bit(e.Went? && Storing(d.pc))
      && Count(Next(w, e).runs, InQueue) == Count(w.runs, InQueue) + Bit(e.Went? && d.pc.Enqueueing?) - Bit(e.Went? && d.pc.Dequeueing?)
  {
    StepOnRuns(w, e);
    var d := Advance(w.runs[e.id], InputOf(w, e));
    AdvanceOnBooks(w.runs[e.id], InputOf(w, e));
    CountUpdate(w.runs, Unfinished, e.id, d);
    CountUpdate(w.runs, InQueue, e.id, d);
  }

  lemma StepTotals(w: World, e: Event)
    requires Enabled(w, e) && w.state.table.Valid() && IsStep(e) && ResultsMatch(w)
    ensures var d, s, u := w.runs[e.id], w.state, Next(w, e).state;
      && u.totalSubmitted == s.totalSubmitted + Bit(e.Went? && d.pc.Counting?)
      && u.totalSuccess == s.totalSuccess + Bit(e.Went? && d.pc.StoringSuccess?)
      && u.totalFailed == s.totalFailed + Bit(e.Went? && Storing(d.pc) && !d.pc.StoringSuccess?)
      && u.queued == (if e.Went? && d.pc.Dequeueing? then SaturatingSub(s.queued, 1) else s.queued + Bit(e.Went? && d.pc.Enqueueing?))
      && Count(u.tasks, Successful) == Count(s.tasks, Successful) + Bit(e.Went? && d.pc.StoringSuccess?)
      && Count(u.tasks, Unsuccessful) == Count(s.tasks, Unsuccessful) + Bit(e.Went? && Storing(d.pc) && !d.pc.StoringSuccess?)
  {
    var d := w.runs[e.id];
    if e.Went? {
      EffectOnBooks(w.state, e.id, d, w.clock);
      if Storing(d.pc) {
        CountUpdate(w.state.tasks, Successful, e.id, StoredResult(e.id, d));
        CountUpdate(w.state.tasks, Unsuccessful, e.id, StoredResult(e.id, d));
      }
    }
  }

  lemma StepBooks(w: World, e: Event)
    requires Enabled(w, e) && w.state.table.Valid() && ResultsMatch(w) && BooksBalance(w)
    ensures BooksBalance(Next(w, e))
  {
    if e.Spawned? {
      CountUpdate(w.runs, Unfinished, e.id, Initial());
      CountUpdate(w.runs, InQueue, e.id, Initial());
    } else if IsStep(e) {
      StepCounts(w, e);
      StepTotals(w, e);
    }
  }

  /** Conservation over every interleaving of any number of dispatches, probes and registrations. */
  lemma {:induction false} Conservation(strategy: string, r: Interleaving)
    requires Possible(strategy, r)
    ensures BooksBalance(At(strategy, r)) && ResultsMatch(At(strategy, r))
  {
    if r.Then? {
      Conservation(strategy, r.before);
      TableAlwaysValid(strategy, r.before);
      StepResults(At(strategy, r.before), r.event);
      StepBooks(At(strategy, r.before), r.event);
    } else {
      assert Having(Genesis(strategy).runs, Unfinished) == {};
      assert Having(Genesis(strategy).runs, InQueue) == {};
      assert Having(Genesis(strategy).state.tasks, Successful) == {};
      assert Having(Genesis(strategy).state.tasks, Unsuccessful) == {};
    }
  }

  /** No continuation of a run replaces or removes a stored result. */
  lemma {:induction false} ResultsAreFinal(strategy: string, r: Interleaving, later: Interleaving, id: string)
    requires Possible(strategy, later) && Extends(r, later) && id in At(strategy, r).state.tasks
    ensures id in At(strategy, later).state.tasks
    ensures At(strategy, later).state.tasks[id] == At(strategy, r).state.tasks[id]
  {
    if r != later {
      ResultsAreFinal(strategy, r, later.before, id);
      TableAlwaysValid(strategy, later.before);
      Conservation(strategy, later.before);
      StepResults(At(strategy, later.before), later.event);
    }
  }

  lemma GoKeepsExplanation(t: Trace, result: TaskResult)
    ensures Explains(t, result) ==> Explains(Then(t, Go), result)
  {
  }

  lemma ExplainedWhenStored(strategy: string, r: Interleaving, id: string)
    requires Possible(strategy, r) && r.Then? && r.event == Went(id) && Storing(At(strategy, r.before).runs[id].pc)
    ensures id in At(strategy, r).state.tasks && Explains(TraceOf(strategy, r, id), At(strategy, r).state.tasks[id])
  {
    var w := At(strategy, r.before);
    Projection(strategy, r.before, id);
    var t := TraceOf(strategy, r.before, id);
    StepOnTasks(w, r.event);
    ResultExplained(t, id);
    GoKeepsExplanation(t, StoredResult(id, w.runs[id]));
  }

  /** Every stored result, in every interleaving, is accounted for by what its dispatch saw. */
  lemma {:induction false} ResultsAlwaysExplained(strategy: string, r: Interleaving, id: string)
    requires Possible(strategy, r) && id in At(strategy, r).state.tasks
    ensures Explains(TraceOf(strategy, r, id), At(strategy, r).state.tasks[id])
  {
    if r.Then? {
      var w := At(strategy, r.before);
      Conservation(strategy, r.before);
      StepOnTasks(w, r.event);
      if id in w.state.tasks {
        ResultsAlwaysExplained(strategy, r.before, id);
      } else {
        ExplainedWhenStored(strategy, r, id);
      }
    }
  }

  // --- Retries ------------------------------------------------------------------------------

  /** Nodes picked, over all dispatches, after an error of that dispatch. */
  ghost function RetryPicksIn(strategy: string, r: Interleaving): nat
  {
    if r.Start? then 0
    else
      RetryPicksIn(strategy, r.before) + Bit(PicksAgain(strategy, r.before, r.event))
  }

  predicate AboutToCountRetry(d: Dispatch)
  {
    d.pc.CountingRetry?
  }

  lemma EffectOnRetries(s: AppState, id: string, d: Dispatch, now: nat)
    ensures Effect(s, id, d, now).totalRetried == s.totalRetried + Bit(d.pc.CountingRetry?)
  {
  }

  lemma AdvanceOnRetries(d: Dispatch, i: Input)
    requires Accepts(d, i)
    ensures AboutToCountRetry(Advance(d, i)) <==> i.Chose? && i.node.Some? && d.errorRetries > 0
  {
  }

  lemma StepRetries(w: World, e: Event)
    requires Enabled(w, e) && w.state.table.Valid() && IsStep(e)
    ensures Next(w, e).state.totalRetried + Count(Next(w, e).runs, AboutToCountRetry)
      == w.state.totalRetried + Count(w.runs, AboutToCountRetry)
         + Bit(e.Chosen? && InputOf(w, e).node.Some? && w.runs[e.id].errorRetries > 0)
  {
    var d := w.runs[e.id];
    StepOnRuns(w, e);
    AdvanceOnRetries(d, InputOf(w, e));
    CountUpdate(w.runs, AboutToCountRetry, e.id, Advance(d, InputOf(w, e)));
    if e.Went? { EffectOnRetries(w.state, e.id, d, w.clock); }
  }

  /** `total_retried` counts one per node picked after an error, not one per task, less those still to be counted. */
  lemma {:induction false} RetriesCounted(strategy: string, r: Interleaving)
    requires Possible(strategy, r)
    ensures var w := At(strategy, r);
      w.state.totalRetried + Count(w.runs, AboutToCountRetry) == RetryPicksIn(strategy, r)
  {
    if r.Start? {
      assert Having(Genesis(strategy).runs, AboutToCountRetry) == {};
    } else {
      var w, e := At(strategy, r.before), r.event;
      RetriesCounted(strategy, r.before);
      TableAlwaysValid(strategy, r.before);
      if IsStep(e) {
        StepRetries(w, e);
        Projection(strategy, r.before, e.id);
        ErrorsAreTallies(TraceOf(strategy, r.before, e.id));
      } else if e.Spawned? {
        CountUpdate(w.runs, AboutToCountRetry, e.id, Initial());
      }
    }
  }

  /** Nodes one dispatch picked after an error. */
  function RetryPicks(t: Trace): nat
  {
    if t.Start? then 0
    else RetryPicks(t.before) + Bit(t.event.Chose? && t.event.node.Some? && ErrorNodes(t.before) != [])
  }

  /** The tasks that were retried at least once. */
  ghost function RetriedTasks(strategy: string, r: Interleaving): set<string>
  {
    set id | id in At(strategy, r).runs && RetryPicks(TraceOf(strategy, r, id)) >= 1
  }

  ghost predicate NoneRetriedTwice(strategy: string, r: Interleaving)
  {
    forall id | id in At(strategy, r).runs :: RetryPicks(TraceOf(strategy, r, id)) <= 1
  }

  /** The event is a pick after an error. */
  ghost predicate PicksAgain(strategy: string, r: Interleaving, e: Event)
  {
    && e.Chosen? && e.id in At(strategy, r).runs
    && InputOf(At(strategy, r), e).node.Some?
    && ErrorNodes(TraceOf(strategy, r, e.id)) != []
  }

  lemma StepRetryPicks(strategy: string, r: Interleaving, e: Event, id: string)
    requires Possible(strategy, Then(r, e))
    ensures RetryPicks(TraceOf(strategy, Then(r, e), id)) ==
      RetryPicks(TraceOf(strategy, r, id)) + Bit(PicksAgain(strategy, r, e) && e.id == id)
    ensures id in At(strategy, Then(r, e)).runs <==> id in At(strategy, r).runs || (e.Spawned? && e.id == id)
    ensures id !in At(strategy, r).runs ==> RetryPicks(TraceOf(strategy, r, id)) == 0
  {
    Projection(strategy, r, id);
  }

  lemma StepRetriedTasks(strategy: string, r: Interleaving, e: Event)
    requires Possible(strategy, Then(r, e))
    ensures RetriedTasks(strategy, Then(r, e)) ==
      RetriedTasks(strategy, r) + if PicksAgain(strategy, r, e) then {e.id} else {}
    ensures NoneRetriedTwice(strategy, Then(r, e)) <==>
      NoneRetriedTwice(strategy, r) && !(PicksAgain(strategy, r, e) && e.id in RetriedTasks(strategy, r))
  {
    forall id
      ensures RetryPicks(TraceOf(strategy, Then(r, e), id)) ==
        RetryPicks(TraceOf(strategy, r, id)) + Bit(PicksAgain(strategy, r, e) && e.id == id)
      ensures id in At(strategy, Then(r, e)).runs <==> id in At(strategy, r).runs || (e.Spawned? && e.id == id)
      ensures id !in At(strategy, r).runs ==> RetryPicks(TraceOf(strategy, r, id)) == 0
    {
      StepRetryPicks(strategy, r, e, id);
    }
  }

  lemma AddOne(s: set<string>, id: string)
    ensures |s + {id}| == |s| + Bit(id !in s)
  {
    if id in s { assert s + {id} == s; }
  }

  /** Every retried task was picked for once, and once more for each pick that found it already retried. */
  ghost predicate Cover(picks: nat, tasks: set<string>, noneTwice: bool)
  {
    picks >= |tasks| && (picks == |tasks| <==> noneTwice)
  }

  lemma CoverStep(picks: nat, tasks: set<string>, noneTwice: bool, id: string)
    requires Cover(picks, tasks, noneTwice)
    ensures Cover(picks + 1, tasks + {id}, noneTwice && id !in tasks)
  {
    AddOne(tasks, id);
  }

  lemma {:induction false} PicksCoverTasks(strategy: string, r: Interleaving)
    requires Possible(strategy, r)
    ensures Cover(RetryPicksIn(strategy, r), RetriedTasks(strategy, r), NoneRetriedTwice(strategy, r))
  {
    if r.Start? {
      assert RetriedTasks(strategy, r) == {};
    } else {
      PicksCoverTasks(strategy, r.before);
      StepRetriedTasks(strategy, r.before, r.event);
      if PicksAgain(strategy, r.before, r.event) {
        CoverStep(RetryPicksIn(strategy, r.before), RetriedTasks(strategy, r.before), NoneRetriedTwice(strategy, r.before), r.event.id);
      }
    }
  }

  /** `total_retried`, with the picks still to be counted, is the number of retried tasks if and only if no dispatch has
      picked twice after an error. */
  lemma {:induction false} RetriesAreTasks(strategy: string, r: Interleaving)
    requires Possible(strategy, r)
    ensures var w := At(strategy, r);
      w.state.totalRetried + Count(w.runs, AboutToCountRetry) == |RetriedTasks(strategy, r)| <==> NoneRetriedTwice(strategy, r)
  {
    RetriesCounted(strategy, r);
    PicksCoverTasks(strategy, r);
  }

  // --- Progress -----------------------------------------------------------------------------

  lemma {:induction false} WakesWithinASecond(strategy: string, r: Interleaving, id: string)
    requires Possible(strategy, r) && id in At(strategy, r).wakeAt
    ensures At(strategy, r).wakeAt[id] <= At(strategy, r).clock + QUEUE_NAP_MS
  {
    if r.Then? && id in At(strategy, r.before).wakeAt { WakesWithinASecond(strategy, r.before, id); }
  }

  lemma StepSleepElapses(w: World, e: Event, slept: nat)
    requires Enabled(w, e) && w.state.table.Valid() && IsStep(e)
    requires e.id in w.wakeAt ==> slept <= w.wakeAt[e.id] && (SleepMs(w.runs[e.id].pc) == 0 ==> w.wakeAt[e.id] <= w.clock)
    requires e.id !in w.wakeAt ==> slept == 0
    ensures var d := Next(w, e).runs[e.id];
      && slept + SleepMs(d.pc) <= Next(w, e).wakeAt[e.id]
      && (SleepMs(d.pc) == 0 ==> Next(w, e).wakeAt[e.id] <= w.clock)
  {
  }

  /** The sleeps a dispatch asked for take their time: none of it has been slept that the clock has not shown, but for the
      sleep it is in. */
  lemma {:induction false} SleepsElapse(strategy: string, r: Interleaving, id: string)
    requires Possible(strategy, r)
    ensures var w, slept := At(strategy, r), Slept(TraceOf(strategy, r, id));
      && (id in w.wakeAt ==> id in w.runs && slept <= w.wakeAt[id])
      && (id !in w.wakeAt ==> slept == 0)
      && (id in w.wakeAt && SleepMs(w.runs[id].pc) == 0 ==> w.wakeAt[id] <= w.clock)
  {
    if r.Then? {
      var w, e := At(strategy, r.before), r.event;
      SleepsElapse(strategy, r.before, id);
      TableAlwaysValid(strategy, r.before);
      Projection(strategy, r, id);
      if StepOf(e, id) { StepSleepElapses(w, e, Slept(TraceOf(strategy, r.before, id))); }
    }
  }

  /** A dispatch that is not asleep has had all its sleep on the clock. */
  lemma {:induction false} SleptIsOnTheClock(strategy: string, r: Interleaving, id: string)
    requires Possible(strategy, r) && id in At(strategy, r).runs && SleepMs(At(strategy, r).runs[id].pc) == 0
    ensures Slept(TraceOf(strategy, r, id)) <= At(strategy, r).clock
  {
    SleepsElapse(strategy, r, id);
  }

  /** An unfinished dispatch can always take its next step, after at most a second of waiting. */
  lemma Progress(strategy: string, r: Interleaving, id: string) returns (ms: nat, e: Event)
    requires Possible(strategy, r) && id in At(strategy, r).runs && !At(strategy, r).runs[id].pc.Done?
    ensures ms <= QUEUE_NAP_MS && StepOf(e, id)
    ensures Possible(strategy, Then(Then(r, Tick(ms)), e))
  {
    var w := At(strategy, r);
    var d := w.runs[id];
    if d.pc.Choosing? {
      ms, e := 0, Chosen(id, 0);
    } else if d.pc.Calling? {
      ms, e := 0, Returned(id, AtCapacity);
    } else {
      if id in w.wakeAt { WakesWithinASecond(strategy, r, id); }
      ms, e := if Awake(w, id) then 0 else w.wakeAt[id] - w.clock, Went(id);
    }
  }

  /** A dispatch whose result is not stored has steps left of its bounded supply. */
  lemma {:induction false} StepsLeft(strategy: string, r: Interleaving, id: string)
    requires Possible(strategy, r) && id in At(strategy, r).runs && id !in At(strategy, r).state.tasks
    ensures !At(strategy, r).runs[id].pc.Done?
    ensures Steps(TraceOf(strategy, r, id)) < MAX_STEPS
  {
    Conservation(strategy, r);
    Projection(strategy, r, id);
    MeasureBoundsSteps(TraceOf(strategy, r, id));
    LocalsAreTallies(TraceOf(strategy, r, id));
    UnfinishedHasMeasure(At(strategy, r).runs[id]);
  }

  lemma UnfinishedHasMeasure(d: Dispatch)
    requires BudgetsHold(d) && !d.pc.Done?
    ensures Measure(d) > 0
  {
  }

  predicate HasResult(w: World, id: string)
  {
    id in w.state.tasks && w.state.tasks[id].taskId == id
  }

  /** From every possible run, each dispatch can be brought to its stored result: the run has a possible extension that
      stores it. */
  lemma {:induction false} Completes(strategy: string, r: Interleaving, id: string)
    requires Possible(strategy, r) && id in At(strategy, r).runs
    ensures exists later :: Possible(strategy, later) && Extends(r, later) && HasResult(At(strategy, later), id)
    decreases MAX_STEPS - Steps(TraceOf(strategy, r, id))
  {
    Conservation(strategy, r);
    if id in At(strategy, r).state.tasks {
      assert Extends(r, r) && HasResult(At(strategy, r), id);
    } else {
      StepsLeft(strategy, r, id);
      var ms, e := Progress(strategy, r, id);
      var waited := Then(r, Tick(ms));
      assert Steps(TraceOf(strategy, Then(waited, e), id)) == Steps(TraceOf(strategy, waited, id)) + 1;
      Completes(strategy, Then(waited, e), id);
      var later :| Possible(strategy, later) && Extends(Then(waited, e), later) && HasResult(At(strategy, later), id);
      ExtendsFurther(r, waited, Then(waited, e));
      ExtendsFurther(r, Then(waited, e), later);
    }
  }
}
