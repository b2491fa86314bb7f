/** One dispatch: the nested retry loops of `dispatch_task`, and the flat machine they take the steps of.

    Everything outside the dispatch reaches it through three kinds of input: the answer of a node
    selection, the reply of an RPC, and the completion of a critical section or sleep. Results about
    all input sequences are therefore results about every environment. */
module DispatchLoop {
  import opened Common

  const MAX_ATTEMPTS := 3
  const BACKOFF_MS := 500
  const MAX_CAPACITY_WAITS := 30
  const CAPACITY_NAP_MS := 100
  const MAX_QUEUE_WAITS := 3
  const QUEUE_NAP_MS := 1000

  datatype TaskResult = TaskResult(
    taskId: string,
    nodeId: string,
    success: bool,
    output: Bytes,
    executionTimeMs: nat,
    error: Option<string>)

  datatype Outcome =
    | Succeeded(output: Bytes, ms: nat)
    | ExecutionFailed(error: string)
    | AtCapacity
    | TransportFailed(error: string)

  /** Where a dispatch stands; every constructor but the sleeps and `Calling` is one critical section. */
  datatype Pc =
    | Counting
    | Choosing
    | GivingUp
    | Enqueueing
    | Waiting
    | Dequeueing
    | CountingRetry(node: string)
    | Calling(node: string)
    | RecordingSuccess(node: string, output: Bytes, ms: nat)
    | StoringSuccess(node: string, output: Bytes, ms: nat)
    | RecordingFailure(node: string)
    | BackingOff
    | Yielding
    | StoringFailure
    | Done(ok: bool)

  datatype Dispatch = Dispatch(
    pc: Pc,
    tried: set<string>,
    lastError: string,
    noNodeCount: nat,
    capacityWaits: nat,
    errorRetries: nat)

  datatype Input = Go | Chose(node: Option<string>) | Replied(outcome: Outcome)

  const NO_NODES := "no nodes available"
  const AT_CAPACITY := "all nodes persistently at capacity"
  const ALL_FAILED := "All nodes failed: "

  function Initial(): Dispatch
  {
    Dispatch(Counting, {}, "", 0, 0, 0)
  }

  predicate Accepts(d: Dispatch, i: Input)
  {
    match i
    case Chose(n) => d.pc.Choosing? && (n.Some? ==> n.value !in d.tried)
    case Replied(_) => d.pc.Calling?
    case Go => !d.pc.Choosing? && !d.pc.Calling? && !d.pc.Done?
  }

  /** `select_node_for_task` answered. */
  function AfterChoice(d: Dispatch, choice: Option<string>): Dispatch
  {
    match choice
    case None =>
      var n := d.noNodeCount + 1;
      if n > MAX_QUEUE_WAITS then d.(noNodeCount := n, pc := GivingUp, lastError := NO_NODES)
      else d.(noNodeCount := n, pc := Enqueueing)
    case Some(n) => d.(pc := if d.errorRetries > 0 then CountingRetry(n) else Calling(n))
  }

  /** The RPC to `node` returned. */
  function AfterReply(d: Dispatch, node: string, outcome: Outcome): Dispatch
  {
    match outcome
    case Succeeded(output, ms) => d.(pc := RecordingSuccess(node, output, ms))
    case AtCapacity =>
      var n := d.capacityWaits + 1;
      if n > MAX_CAPACITY_WAITS then d.(capacityWaits := n, pc := StoringFailure, lastError := AT_CAPACITY)
      else d.(capacityWaits := n, pc := Yielding)
    case _ => d.(pc := RecordingFailure(node), tried := d.tried + {node}, lastError := outcome.error)
  }

  /** The critical section or sleep at the program counter finished. */
  function AfterGo(d: Dispatch): Dispatch
  {
    match d.pc
    case Enqueueing => d.(pc := Waiting)
    case Waiting => d.(pc := Dequeueing)
    case CountingRetry(n) => d.(pc := Calling(n))
    case RecordingSuccess(n, output, ms) => d.(pc := StoringSuccess(n, output, ms))
    case RecordingFailure(_) =>
      var n := d.errorRetries + 1;
      d.(errorRetries := n, pc := if n >= MAX_ATTEMPTS then StoringFailure else BackingOff)
    case StoringSuccess(_, _, _) => d.(pc := Done(true))
    case GivingUp => d.(pc := Done(false))
    case StoringFailure => d.(pc := Done(false))
    case _ => d.(pc := Choosing)
  }

  function Advance(d: Dispatch, i: Input): Dispatch
    requires Accepts(d, i)
  {
    match i
    case Go => AfterGo(d)
    case Chose(n) => AfterChoice(d, n)
    case Replied(o) => AfterReply(d, d.pc.node, o)
  }

  /** An input that does not fit the program counter changes nothing. */
  function Take(d: Dispatch, i: Input): Dispatch
  {
    if Accepts(d, i) then Advance(d, i) else d
  }

  predicate Storing(pc: Pc)
  {
    pc.GivingUp? || pc.StoringSuccess? || pc.StoringFailure?
  }

  /** The result written by the critical section the dispatch is about to run. */
  function StoredResult(taskId: string, d: Dispatch): TaskResult
    requires Storing(d.pc)
  {
    match d.pc
    case StoringSuccess(n, output, ms) => TaskResult(taskId, n, true, output, ms, None)
    case GivingUp => TaskResult(taskId, "none", false, [], 0, Some(d.lastError))
    case _ => TaskResult(taskId, "none", false, [], 0, Some(ALL_FAILED + d.lastError))
  }

  function SleepMs(pc: Pc): nat
  {
    match pc
    case Waiting => QUEUE_NAP_MS
    case BackingOff => BACKOFF_MS
    case Yielding => CAPACITY_NAP_MS
    case _ => 0
  }

  // --- Traces: what one dispatch did, read off its inputs -----------------------------------

  type Trace = Run<Input>

  function State(t: Trace): Dispatch
  {
    match t
    case Start => Initial()
    case Then(p, i) => Take(State(p), i)
  }

  predicate Valid(t: Trace)
  {
    t.Then? ==> Valid(t.before) && Accepts(State(t.before), t.event)
  }

  function Steps(t: Trace): nat
  {
    if t.Start? then 0 else Steps(t.before) + 1
  }

  function Selections(t: Trace): nat
  {
    if t.Start? then 0 else Selections(t.before) + Bit(t.event.Chose?)
  }

  function EmptySelections(t: Trace): nat
  {
    if t.Start? then 0 else EmptySelections(t.before) + Bit(t.event == Chose(None))
  }

  /** RPCs that have returned. */
  function Replies(t: Trace): nat
  {
    if t.Start? then 0 else Replies(t.before) + Bit(t.event.Replied?)
  }

  function CapacityReplies(t: Trace): nat
  {
    if t.Start? then 0 else CapacityReplies(t.before) + Bit(t.event == Replied(AtCapacity))
  }

  /** RPCs issued: those that returned and the one in flight. */
  function Rpcs(t: Trace): nat
  {
    Replies(t) + Bit(State(t).pc.Calling?)
  }

  /** Milliseconds of sleep requested. */
  function Slept(t: Trace): nat
  {
    if t.Start? then 0 else Slept(t.before) + SleepMs(State(t).pc)
  }

  predicate IsError(o: Outcome)
  {
    o.ExecutionFailed? || o.TransportFailed?
  }

  /** The nodes whose RPC ended in an execution or transport error, in order. */
  function ErrorNodes(t: Trace): seq<string>
  {
    if t.Start? then []
    else if t.event.Replied? && IsError(t.event.outcome) && State(t.before).pc.Calling? then
      ErrorNodes(t.before) + [State(t.before).pc.node]
    else ErrorNodes(t.before)
  }

  function LastReply(t: Trace): Option<Outcome>
  {
    if t.Start? then None else if t.event.Replied? then Some(t.event.outcome) else LastReply(t.before)
  }

  function LastPick(t: Trace): Option<string>
  {
    if t.Start? then None
    else if t.event.Chose? && t.event.node.Some? then t.event.node
    else LastPick(t.before)
  }

  // --- The invariant of one dispatch --------------------------------------------------------

  predicate Distinct<T(==)>(s: seq<T>)
  {
    forall i, j | 0 <= i < j < |s| :: s[i] != s[j]
  }

  ghost predicate BudgetsHold(d: Dispatch)
  {
    && d.noNodeCount <= MAX_QUEUE_WAITS + 1
    && d.capacityWaits <= MAX_CAPACITY_WAITS + 1
    && d.errorRetries <= MAX_ATTEMPTS
    && (d.noNodeCount > MAX_QUEUE_WAITS ==> d.pc.GivingUp? || d.pc == Done(false))
    && (d.capacityWaits > MAX_CAPACITY_WAITS || d.errorRetries == MAX_ATTEMPTS ==> d.pc.StoringFailure? || d.pc == Done(false))
    && (d.pc.GivingUp? ==> d.noNodeCount == MAX_QUEUE_WAITS + 1)
    && (d.pc.StoringFailure? ==> d.capacityWaits == MAX_CAPACITY_WAITS + 1 || d.errorRetries == MAX_ATTEMPTS)
    && (d.pc.Enqueueing? || d.pc.Waiting? || d.pc.Dequeueing? ==> d.noNodeCount >= 1)
    && (d.pc.CountingRetry? ==> d.errorRetries >= 1)
    && (d.pc == Done(false) ==>
          d.noNodeCount > MAX_QUEUE_WAITS || d.capacityWaits > MAX_CAPACITY_WAITS || d.errorRetries == MAX_ATTEMPTS)
    // at most one budget runs out
    && (d.noNodeCount > MAX_QUEUE_WAITS ==> d.capacityWaits <= MAX_CAPACITY_WAITS && d.errorRetries < MAX_ATTEMPTS)
    && (d.capacityWaits > MAX_CAPACITY_WAITS ==> d.errorRetries < MAX_ATTEMPTS)
  }

  function Errors(d: Dispatch): nat
  {
    d.errorRetries + Bit(d.pc.RecordingFailure?)
  }

  /** The replies a dispatch has had, told from its locals. */
  function RepliesOf(d: Dispatch): nat
  {
    Errors(d) + d.capacityWaits + Bit(d.pc.RecordingSuccess? || d.pc.StoringSuccess? || d.pc == Done(true))
  }

  /** The selections a dispatch has made, told from its locals. */
  function SelectionsOf(d: Dispatch): nat
  {
    d.noNodeCount + RepliesOf(d) + Bit(d.pc.CountingRetry? || d.pc.Calling?)
  }

  /** The sleep a dispatch has requested, told from its locals: the round that exhausts a budget does not sleep. */
  function SleptOf(d: Dispatch): int
  {
    1000 * (d.noNodeCount - Bit(d.pc.Enqueueing? || d.noNodeCount > 3))
    + 500 * (d.errorRetries - Bit(d.errorRetries == 3))
    + 100 * (d.capacityWaits - Bit(d.capacityWaits > 30))
  }

  lemma StepBudgets(d: Dispatch, i: Input)
    requires BudgetsHold(d) && Accepts(d, i)
    ensures BudgetsHold(Advance(d, i))
  {
  }

  lemma StepTallies(d: Dispatch, i: Input)
    requires Accepts(d, i)
    ensures var d' := Advance(d, i);
      && d'.noNodeCount == d.noNodeCount + Bit(i == Chose(None))
      && d'.capacityWaits == d.capacityWaits + Bit(i == Replied(AtCapacity))
      && Errors(d') == Errors(d) + Bit(i.Replied? && IsError(i.outcome))
  {
  }

  lemma StepCalls(d: Dispatch, i: Input)
    requires Accepts(d, i)
    ensures var d' := Advance(d, i);
      && RepliesOf(d') == RepliesOf(d) + Bit(i.Replied?)
      && SelectionsOf(d') == SelectionsOf(d) + Bit(i.Chose?)
  {
  }

  lemma StepSleeps(d: Dispatch, i: Input)
    requires BudgetsHold(d) && Accepts(d, i)
    ensures SleptOf(Advance(d, i)) == SleptOf(d) + SleepMs(Advance(d, i).pc)
  {
  }

  lemma {:induction false} BudgetsAlwaysHold(t: Trace)
    requires Valid(t)
    ensures BudgetsHold(State(t))
  {
    if t.Then? {
      BudgetsAlwaysHold(t.before);
      StepBudgets(State(t.before), t.event);
    }
  }

  lemma {:induction false} WaitsAreTallies(t: Trace)
    requires Valid(t)
    ensures EmptySelections(t) == State(t).noNodeCount
    ensures CapacityReplies(t) == State(t).capacityWaits
  {
    if t.Then? {
      WaitsAreTallies(t.before);
      StepTallies(State(t.before), t.event);
    }
  }

  lemma {:induction false} ErrorsAreTallies(t: Trace)
    requires Valid(t)
    ensures |ErrorNodes(t)| == Errors(State(t))
  {
    if t.Then? {
      ErrorsAreTallies(t.before);
      StepTallies(State(t.before), t.event);
    }
  }

  lemma {:induction false} RepliesAreTallies(t: Trace)
    requires Valid(t)
    ensures Replies(t) == RepliesOf(State(t))
  {
    if t.Then? {
      RepliesAreTallies(t.before);
      StepCalls(State(t.before), t.event);
    }
  }

  lemma {:induction false} SelectionsAreTallies(t: Trace)
    requires Valid(t)
    ensures Selections(t) == SelectionsOf(State(t))
  {
    if t.Then? {
      SelectionsAreTallies(t.before);
      StepCalls(State(t.before), t.event);
    }
  }

  lemma {:induction false} SleepIsTallied(t: Trace)
    requires Valid(t)
    ensures Slept(t) == SleptOf(State(t))
  {
    if t.Then? {
      SleepIsTallied(t.before);
      BudgetsAlwaysHold(t.before);
      StepSleeps(State(t.before), t.event);
    }
  }

  /** The locals of a dispatch are exactly the tallies of its trace. */
  lemma {:induction false} LocalsAreTallies(t: Trace)
    requires Valid(t)
    ensures BudgetsHold(State(t))
    ensures EmptySelections(t) == State(t).noNodeCount
    ensures CapacityReplies(t) == State(t).capacityWaits
    ensures |ErrorNodes(t)| == Errors(State(t))
    ensures Replies(t) == RepliesOf(State(t))
    ensures Selections(t) == SelectionsOf(State(t))
    ensures Slept(t) == SleptOf(State(t))
  {
    BudgetsAlwaysHold(t);
    WaitsAreTallies(t);
    ErrorsAreTallies(t);
    RepliesAreTallies(t);
    SelectionsAreTallies(t);
    SleepIsTallied(t);
  }

  /** The node in hand is untried, and the tried set has one node per error. */
  ghost predicate TriedMatches(d: Dispatch)
  {
    && (d.pc.CountingRetry? || d.pc.Calling? ==> d.pc.node !in d.tried)
    && |d.tried| == Errors(d)
  }

  lemma StepTried(d: Dispatch, i: Input)
    requires Accepts(d, i) && TriedMatches(d)
    ensures TriedMatches(Advance(d, i))
  {
  }

  lemma {:induction false} TriedAlwaysMatches(t: Trace)
    requires Valid(t)
    ensures TriedMatches(State(t))
  {
    if t.Then? {
      TriedAlwaysMatches(t.before);
      StepTried(State(t.before), t.event);
    }
  }

  lemma StepTriedGrows(d: Dispatch, i: Input)
    requires Accepts(d, i)
    ensures Advance(d, i).tried == d.tried + if i.Replied? && IsError(i.outcome) then {d.pc.node} else {}
  {
  }

  lemma {:induction false} ErrorNodesAreTried(t: Trace)
    requires Valid(t)
    ensures forall n :: n in ErrorNodes(t) <==> n in State(t).tried
  {
    if t.Then? {
      ErrorNodesAreTried(t.before);
      StepTriedGrows(State(t.before), t.event);
    }
  }

  lemma AppendDistinct(s: seq<string>, n: string)
    requires Distinct(s) && n !in s
    ensures Distinct(s + [n])
  {
  }

  lemma {:induction false} ErrorNodesApart(t: Trace)
    requires Valid(t)
    ensures Distinct(ErrorNodes(t))
  {
    if t.Then? {
      ErrorNodesApart(t.before);
      var d := State(t.before);
      if t.event.Replied? && IsError(t.event.outcome) {
        TriedAlwaysMatches(t.before);
        ErrorNodesAreTried(t.before);
        AppendDistinct(ErrorNodes(t.before), d.pc.node);
      }
    }
  }

  /** Nodes that answered with an error are pairwise distinct, and are exactly the tried set. */
  lemma {:induction false} ErrorNodesDistinct(t: Trace)
    requires Valid(t)
    ensures Distinct(ErrorNodes(t))
    ensures forall n :: n in ErrorNodes(t) <==> n in State(t).tried
    ensures TriedMatches(State(t))
  {
    ErrorNodesApart(t);
    ErrorNodesAreTried(t);
    TriedAlwaysMatches(t);
  }

  // --- Termination --------------------------------------------------------------------------

  const MAX_RPCS := 33
  const MAX_SELECTIONS := 36
  const MAX_SLEEP_MS := 7000
  const MAX_STEPS := 147

  /** The most steps a dispatch about to select can still take, told from what is left of the three budgets: four per
      queue wait, four per capacity wait, and for the errors four at first, five once each pick is a counted retry. */
  function Left(d: Dispatch): int
  {
    4 * (MAX_QUEUE_WAITS - d.noNodeCount)
    + 4 * (MAX_CAPACITY_WAITS - d.capacityWaits)
    + 5 * (MAX_ATTEMPTS - d.errorRetries) - Bit(d.errorRetries == 0)
  }

  /** The steps left from any program counter. */
  function Measure(d: Dispatch): int
  {
    match d.pc
    case Done(_) => 0
    case GivingUp => 1
    case StoringFailure => 1
    case StoringSuccess(_, _, _) => 1
    case RecordingSuccess(_, _, _) => 2
    case RecordingFailure(_) =>
      2 + if d.errorRetries + 1 < MAX_ATTEMPTS then Left(d.(errorRetries := d.errorRetries + 1)) else 0
    case Calling(_) => Left(d) - 1 - Bit(d.errorRetries > 0)
    case CountingRetry(_) => Left(d) - 1
    case Choosing => Left(d)
    case Waiting => Left(d) + 2
    case Enqueueing => Left(d) + 3
    case _ => Left(d) + 1
  }

  lemma GoSpends(d: Dispatch)
    requires BudgetsHold(d) && Accepts(d, Go)
    ensures 0 <= Measure(AfterGo(d)) < Measure(d)
  {
  }

  lemma ChoiceSpends(d: Dispatch, n: Option<string>)
    requires BudgetsHold(d) && Accepts(d, Chose(n))
    ensures 0 <= Measure(AfterChoice(d, n)) < Measure(d)
  {
  }

  lemma ReplySpends(d: Dispatch, o: Outcome)
    requires BudgetsHold(d) && Accepts(d, Replied(o))
    ensures 0 <= Measure(AfterReply(d, d.pc.node, o)) < Measure(d)
  {
  }

  lemma StepSpends(d: Dispatch, i: Input)
    requires BudgetsHold(d) && Accepts(d, i)
    ensures 0 <= Measure(Advance(d, i)) < Measure(d)
  {
    match i {
      case Go => GoSpends(d);
      case Chose(n) => ChoiceSpends(d, n);
      case Replied(o) => ReplySpends(d, o);
    }
  }

  /** Every accepted input spends the measure, and it never goes negative: the dispatch loop terminates. */
  lemma {:induction false} MeasureBoundsSteps(t: Trace)
    requires Valid(t)
    ensures 0 <= Measure(State(t)) <= MAX_STEPS - Steps(t)
  {
    if t.Then? {
      MeasureBoundsSteps(t.before);
      LocalsAreTallies(t.before);
      StepSpends(State(t.before), t.event);
    }
  }

  lemma BudgetsBound(d: Dispatch)
    requires BudgetsHold(d)
    ensures RepliesOf(d) + Bit(d.pc.Calling?) <= MAX_RPCS
    ensures SelectionsOf(d) <= MAX_SELECTIONS
    ensures SleptOf(d) <= MAX_SLEEP_MS
  {
  }

  /** Whatever the environment answers, one dispatch stays within these bounds. */
  lemma DispatchBounds(t: Trace)
    requires Valid(t)
    ensures Rpcs(t) <= 33
    ensures Selections(t) <= 36
    ensures Slept(t) <= 7000
    ensures Steps(t) <= 147
  {
    LocalsAreTallies(t);
    BudgetsBound(State(t));
    MeasureBoundsSteps(t);
  }

  // --- Why a dispatch ended -----------------------------------------------------------------

  ghost predicate Explains(t: Trace, result: TaskResult)
  {
    if result.success then
      && LastReply(t) == Some(Succeeded(result.output, result.executionTimeMs))
      && LastPick(t) == Some(result.nodeId)
      && result.error == None
    else
      && result.nodeId == "none" && result.output == [] && result.executionTimeMs == 0
      && (|| (EmptySelections(t) == 4 && result.error == Some("no nodes available"))
          || (CapacityReplies(t) == 31 && result.error == Some("All nodes failed: " + "all nodes persistently at capacity"))
          || (|ErrorNodes(t)| == 3 && Distinct(ErrorNodes(t)) && ErrorOf(LastReply(t)).Some?
              && result.error == Some("All nodes failed: " + ErrorOf(LastReply(t)).value)))
  }

  function ErrorOf(o: Option<Outcome>): Option<string>
  {
    match o
    case Some(ExecutionFailed(e)) => Some(e)
    case Some(TransportFailed(e)) => Some(e)
    case _ => None
  }

  /** What the program counter and the last error say about the latest pick and reply. */
  ghost predicate Remembers(d: Dispatch, pick: Option<string>, reply: Option<Outcome>)
  {
    && (d.pc.CountingRetry? || d.pc.Calling? ==> pick == Some(d.pc.node))
    && (d.pc.RecordingSuccess? || d.pc.StoringSuccess? ==>
          pick == Some(d.pc.node) && reply == Some(Succeeded(d.pc.output, d.pc.ms)))
    && (d.pc.RecordingFailure? ==> pick == Some(d.pc.node) && ErrorOf(reply) == Some(d.lastError))
    && (d.pc.GivingUp? ==> d.lastError == NO_NODES)
    && (d.pc.StoringFailure? ==>
          if d.errorRetries == MAX_ATTEMPTS then ErrorOf(reply) == Some(d.lastError) else d.lastError == AT_CAPACITY)
  }

  lemma StepRemembers(d: Dispatch, i: Input, pick: Option<string>, reply: Option<Outcome>)
    requires BudgetsHold(d) && Accepts(d, i) && Remembers(d, pick, reply)
    ensures Remembers(
        Advance(d, i),
        if i.Chose? && i.node.Some? then i.node else pick,
        if i.Replied? then Some(i.outcome) else reply)
  {
  }

  lemma {:induction false} PcRemembers(t: Trace)
    requires Valid(t)
    ensures Remembers(State(t), LastPick(t), LastReply(t))
  {
    if t.Then? {
      PcRemembers(t.before);
      BudgetsAlwaysHold(t.before);
      StepRemembers(State(t.before), t.event, LastPick(t.before), LastReply(t.before));
    }
  }

  /** A stored result is accounted for by the trace: the reply that succeeded, or the one budget that ran out. */
  lemma ResultExplained(t: Trace, taskId: string)
    requires Valid(t) && Storing(State(t).pc)
    ensures Explains(t, StoredResult(taskId, State(t)))
  {
    PcRemembers(t);
    LocalsAreTallies(t);
    ErrorNodesDistinct(t);
  }
}
