/** The two nested loops of `dispatch_task` against an arbitrary environment, and the flat machine they refine. */
module NestedLoops {
  import opened Common
  import opened DispatchLoop

  type Picker = (nat, set<string>) -> Option<string>

  /** Every answer in the trace is the environment's answer to the question asked at that point. */
  ghost predicate AnsweredBy(t: Trace, pick: Picker, reply: nat -> Outcome)
  {
    t.Then? ==>
      && AnsweredBy(t.before, pick, reply)
      && (t.event.Chose? ==> t.event.node == pick(Selections(t.before), State(t.before).tried))
      && (t.event.Replied? ==> t.event.outcome == reply(Replies(t.before)))
  }

  /** The environment's answers leave the flat machine no choice: a trace is determined by its length. */
  lemma {:induction false} AnswersDetermineTrace(t: Trace, u: Trace, pick: Picker, reply: nat -> Outcome)
    requires Valid(t) && Valid(u) && AnsweredBy(t, pick, reply) && AnsweredBy(u, pick, reply)
    requires Steps(t) == Steps(u)
    ensures t == u
  {
    if t.Then? { AnswersDetermineTrace(t.before, u.before, pick, reply); }
  }

  lemma PushAnswer(t: Trace, i: Input, pick: Picker, reply: nat -> Outcome) returns (t': Trace)
    requires Valid(t) && Accepts(State(t), i) && AnsweredBy(t, pick, reply)
    requires i.Chose? ==> i.node == pick(Selections(t), State(t).tried)
    requires i.Replied? ==> i.outcome == reply(Replies(t))
    ensures Valid(t') && State(t') == Advance(State(t), i) && AnsweredBy(t', pick, reply)
    ensures Replies(t') == Replies(t) + Bit(i.Replied?)
    ensures Selections(t') == Selections(t) + Bit(i.Chose?)
    ensures Slept(t') == Slept(t) + SleepMs(State(t').pc)
  {
    t' := Then(t, i);
  }

  // --- The loops in big steps ---------------------------------------------------------------

  datatype Progress = Progress(d: Dispatch, rpcs: nat, selections: nat, sleptMs: nat)

  predicate Choosable(p: Progress)
  {
    && p.d.pc.Choosing?
    && p.d.noNodeCount <= MAX_QUEUE_WAITS && p.d.capacityWaits <= MAX_CAPACITY_WAITS && p.d.errorRetries < MAX_ATTEMPTS
  }

  /** The inner loop: ask for a node, sleeping a second after each of the first three empty answers. */
  function Schedule(p: Progress, pick: Picker): (q: Progress)
    requires Choosable(p)
    ensures q.d.pc.GivingUp? || (q.d.pc.Calling? && Choosable(q.(d := q.d.(pc := Choosing))))
    ensures q.d == p.d.(pc := q.d.pc, noNodeCount := q.d.noNodeCount, lastError := if q.d.pc.GivingUp? then NO_NODES else p.d.lastError)
    ensures q.rpcs == p.rpcs
    decreases MAX_QUEUE_WAITS - p.d.noNodeCount
  {
    var q := p.(selections := p.selections + 1);
    match pick(p.selections, p.d.tried)
    case Some(n) => q.(d := q.d.(pc := Calling(n)))
    case None =>
      var d := q.d.(noNodeCount := q.d.noNodeCount + 1);
      if d.noNodeCount > MAX_QUEUE_WAITS then q.(d := d.(pc := GivingUp, lastError := NO_NODES))
      else Schedule(q.(d := d, sleptMs := q.sleptMs + QUEUE_NAP_MS), pick)
  }

  /** One round of the retry loop in one step: from the chosen node to the next selection or to storing a result. */
  function AfterRound(d: Dispatch, node: string, result: Outcome): Dispatch
  {
    match result
    case Succeeded(output, ms) => d.(pc := StoringSuccess(node, output, ms))
    case AtCapacity =>
      var d := d.(capacityWaits := d.capacityWaits + 1);
      if d.capacityWaits > MAX_CAPACITY_WAITS then d.(pc := StoringFailure, lastError := AT_CAPACITY) else d.(pc := Choosing)
    case _ =>
      var d := d.(tried := d.tried + {node}, lastError := result.error, errorRetries := d.errorRetries + 1);
      d.(pc := if d.errorRetries >= MAX_ATTEMPTS then StoringFailure else Choosing)
  }

  function SleepInRound(d: Dispatch, result: Outcome): nat
  {
    match result
    case Succeeded(_, _) => 0
    case AtCapacity => if d.capacityWaits + 1 > MAX_CAPACITY_WAITS then 0 else CAPACITY_NAP_MS
    case _ => if d.errorRetries + 1 >= MAX_ATTEMPTS then 0 else BACKOFF_MS
  }

  function CallRound(q: Progress, reply: nat -> Outcome): Progress
    requires q.d.pc.Calling?
  {
    var result := reply(q.rpcs);
    Progress(AfterRound(q.d, q.d.pc.node, result), q.rpcs + 1, q.selections, q.sleptMs + SleepInRound(q.d, result))
  }

  /** The outer loop, up to the critical section that stores the result. */
  function Rounds(p: Progress, pick: Picker, reply: nat -> Outcome): (q: Progress)
    requires Choosable(p)
    ensures Storing(q.d.pc)
    decreases MAX_ATTEMPTS - p.d.errorRetries + MAX_CAPACITY_WAITS - p.d.capacityWaits
  {
    var q := Schedule(p, pick);
    if q.d.pc.GivingUp? then q
    else
      var r := CallRound(q, reply);
      if r.d.pc.Choosing? then Rounds(r, pick, reply) else r
  }

  const BEGUN := Progress(Initial().(pc := Choosing), 0, 0, 0)

  // --- The big steps are runs of the flat machine -------------------------------------------

  ghost predicate Honest(pick: Picker)
  {
    forall k, tried :: pick(k, tried).Some? ==> pick(k, tried).value !in tried
  }

  ghost predicate Tracks(t: Trace, pick: Picker, reply: nat -> Outcome, p: Progress)
  {
    && Valid(t) && AnsweredBy(t, pick, reply) && State(t) == p.d
    && p.rpcs == Replies(t) && p.selections == Selections(t) && p.sleptMs == Slept(t)
  }

  lemma QueueSimulated(t: Trace, pick: Picker, reply: nat -> Outcome, p: Progress) returns (t': Trace)
    requires Tracks(t, pick, reply, p) && p.d.pc.Enqueueing?
    ensures Tracks(t', pick, reply, p.(d := p.d.(pc := Choosing), sleptMs := p.sleptMs + QUEUE_NAP_MS))
  {
    t' := PushAnswer(t, Go, pick, reply);
    t' := PushAnswer(t', Go, pick, reply);
    t' := PushAnswer(t', Go, pick, reply);
  }

  /** One turn of the inner loop is one selection of the flat machine, then a nap, a counted retry, or neither. */
  lemma {:induction false} ScheduleTurn(p: Progress, q: Progress, pick: Picker)
    requires Choosable(p) && q == p.(d := AfterChoice(p.d, pick(p.selections, p.d.tried)), selections := p.selections + 1)
    ensures q.d.pc.Enqueueing? ==> Choosable(q.(d := q.d.(pc := Choosing)))
    ensures Schedule(p, pick) ==
      if q.d.pc.Enqueueing? then Schedule(q.(d := q.d.(pc := Choosing), sleptMs := q.sleptMs + QUEUE_NAP_MS), pick)
      else if q.d.pc.CountingRetry? then q.(d := q.d.(pc := Calling(q.d.pc.node)))
      else q
  {
  }

  lemma {:induction false} ScheduleSimulated(t: Trace, pick: Picker, reply: nat -> Outcome, p: Progress) returns (t': Trace)
    requires Honest(pick) && Choosable(p) && Tracks(t, pick, reply, p)
    ensures Tracks(t', pick, reply, Schedule(p, pick))
    decreases MAX_QUEUE_WAITS - p.d.noNodeCount
  {
    t' := PushAnswer(t, Chose(pick(p.selections, p.d.tried)), pick, reply);
    var q := p.(d := AfterChoice(p.d, pick(p.selections, p.d.tried)), selections := p.selections + 1);
    ScheduleTurn(p, q, pick);
    if q.d.pc.Enqueueing? {
      t' := QueueSimulated(t', pick, reply, q);
      t' := ScheduleSimulated(t', pick, reply, q.(d := q.d.(pc := Choosing), sleptMs := q.sleptMs + QUEUE_NAP_MS));
    } else if q.d.pc.CountingRetry? {
      t' := PushAnswer(t', Go, pick, reply);
    }
  }

  /** After the reply the flat machine records, sleeps and stores in steps of their own. */
  lemma RoundSimulated(t: Trace, pick: Picker, reply: nat -> Outcome, q: Progress) returns (t': Trace)
    requires Tracks(t, pick, reply, q) && q.d.pc.Calling?
    ensures Tracks(t', pick, reply, CallRound(q, reply))
  {
    var result := reply(q.rpcs);
    var d := AfterReply(q.d, q.d.pc.node, result);
    t' := PushAnswer(t, Replied(result), pick, reply);
    assert Tracks(t', pick, reply, Progress(d, q.rpcs + 1, q.selections, q.sleptMs + SleepMs(d.pc)));
    if d.pc != StoringFailure {
      t' := PushAnswer(t', Go, pick, reply);
      if AfterGo(d).pc.BackingOff? { t' := PushAnswer(t', Go, pick, reply); }
    }
  }

  lemma {:induction false} RoundsSimulated(t: Trace, pick: Picker, reply: nat -> Outcome, p: Progress) returns (t': Trace)
    requires Honest(pick) && Choosable(p) && Tracks(t, pick, reply, p)
    ensures Tracks(t', pick, reply, Rounds(p, pick, reply))
    decreases MAX_ATTEMPTS - p.d.errorRetries + MAX_CAPACITY_WAITS - p.d.capacityWaits
  {
    t' := ScheduleSimulated(t, pick, reply, p);
    var q := Schedule(p, pick);
    if q.d.pc.Calling? {
      t' := RoundSimulated(t', pick, reply, q);
      var r := CallRound(q, reply);
      if r.d.pc.Choosing? {
        t' := RoundsSimulated(t', pick, reply, r);
      }
    }
  }

  /** The nested loops take exactly the steps of the flat machine, answered by the same environment. */
  lemma LoopsAreMachine(pick: Picker, reply: nat -> Outcome) returns (t: Trace)
    requires Honest(pick)
    ensures Tracks(t, pick, reply, Rounds(BEGUN, pick, reply))
  {
    t := PushAnswer(Start, Go, pick, reply);
    t := RoundsSimulated(t, pick, reply, BEGUN);
  }

  lemma RoundsBounded(pick: Picker, reply: nat -> Outcome)
    requires Honest(pick)
    ensures var q := Rounds(BEGUN, pick, reply);
      q.rpcs <= MAX_RPCS && q.selections <= MAX_SELECTIONS && q.sleptMs <= MAX_SLEEP_MS
  {
    var t := LoopsAreMachine(pick, reply);
    DispatchBounds(t);
  }

  // --- The nested loops themselves ----------------------------------------------------------

  /** The inner scheduling loop of the source. */
  method ChooseNode(pick: Picker, p: Progress) returns (node: Option<string>, q: Progress)
    requires Choosable(p)
    ensures q == Schedule(p, pick)
    ensures node == if q.d.pc.Calling? then Some(q.d.pc.node) else None
  {
    var noNodeCount: nat, selections: nat, sleptMs: nat := p.d.noNodeCount, p.selections, p.sleptMs;
    while true
      invariant noNodeCount <= MAX_QUEUE_WAITS
      invariant Schedule(Progress(p.d.(noNodeCount := noNodeCount), p.rpcs, selections, sleptMs), pick) == Schedule(p, pick)
      decreases MAX_QUEUE_WAITS - noNodeCount
    {
      node := pick(selections, p.d.tried);
      selections := selections + 1;
      if node.Some? {
        q := Progress(p.d.(pc := Calling(node.value), noNodeCount := noNodeCount), p.rpcs, selections, sleptMs);
        return;
      }
      noNodeCount := noNodeCount + 1;
      if noNodeCount > MAX_QUEUE_WAITS {
        q := Progress(p.d.(pc := GivingUp, lastError := NO_NODES, noNodeCount := noNodeCount), p.rpcs, selections, sleptMs);
        return;
      }
      sleptMs := sleptMs + QUEUE_NAP_MS;
    }
  }

  /** The locals at the head of the retry loop. */
  function Head(triedNodes: set<string>, lastError: string, noNodeCount: nat, capacityWaits: nat, errorRetries: nat,
                rpcs: nat, selections: nat, sleptMs: nat): Progress
  {
    Progress(Dispatch(Choosing, triedNodes, lastError, noNodeCount, capacityWaits, errorRetries), rpcs, selections, sleptMs)
  }

  /** One round leads from `p` to `r`: the rounds to come from `p` are those from `r`, or there are none. */
  ghost predicate Leads(p: Progress, r: Progress, pick: Picker, reply: nat -> Outcome)
    requires Choosable(p)
  {
    if r.d.pc.Choosing? then Choosable(r) && Rounds(p, pick, reply) == Rounds(r, pick, reply) else Rounds(p, pick, reply) == r
  }

  lemma {:induction false} RoundLeads(p: Progress, q: Progress, pick: Picker, reply: nat -> Outcome)
    requires Choosable(p) && q == Schedule(p, pick)
    ensures if q.d.pc.GivingUp? then Leads(p, q, pick, reply) else Leads(p, CallRound(q, reply), pick, reply)
  {
  }

  /** What one reply does to the locals, and whether the loop ends. */
  method HandleReply(q: Progress, node: string, result: Outcome) returns (r: Progress)
    requires q.d.pc == Calling(node)
    ensures r == Progress(AfterRound(q.d, node, result), q.rpcs + 1, q.selections, q.sleptMs + SleepInRound(q.d, result))
  {
    var triedNodes, lastError := q.d.tried, q.d.lastError;
    var capacityWaits, errorRetries, sleptMs := q.d.capacityWaits, q.d.errorRetries, q.sleptMs;
    var pc := Choosing;
    match result {
      case Succeeded(output, ms) =>
        pc := StoringSuccess(node, output, ms);
      case AtCapacity =>
        capacityWaits := capacityWaits + 1;
        if capacityWaits > MAX_CAPACITY_WAITS {
          lastError := AT_CAPACITY;
          pc := StoringFailure;
        } else {
          sleptMs := sleptMs + CAPACITY_NAP_MS;
        }
      case _ =>
        lastError := result.error;
        triedNodes := triedNodes + {node};
        errorRetries := errorRetries + 1;
        if errorRetries >= MAX_ATTEMPTS {
          pc := StoringFailure;
        } else {
          sleptMs := sleptMs + BACKOFF_MS;
        }
    }
    r := Progress(Dispatch(pc, triedNodes, lastError, q.d.noNodeCount, capacityWaits, errorRetries), q.rpcs + 1, q.selections, sleptMs);
  }

  /** One pass through the body of the retry loop. */
  method OneRound(p: Progress, pick: Picker, reply: nat -> Outcome) returns (r: Progress)
    requires Choosable(p)
    ensures Leads(p, r, pick, reply)
    ensures r.d.pc.Choosing? ==>
      r.d.errorRetries + r.d.capacityWaits == p.d.errorRetries + p.d.capacityWaits + 1
    ensures r.d.pc.GivingUp? ==> r.d.lastError == NO_NODES
  {
    var node, q := ChooseNode(pick, p);
    RoundLeads(p, q, pick, reply);
    r := q;
    if node.Some? {
      r := HandleReply(q, node.value, reply(q.rpcs));
      assert r == CallRound(q, reply);
    }
  }

  /** The retry loop of the source, from its first round. */
  method RetryLoop(taskId: string, start: Progress, pick: Picker, reply: nat -> Outcome)
    returns (stored: TaskResult, rpcs: nat, selections: nat, sleptMs: nat)
    requires Choosable(start)
    ensures var q := Rounds(start, pick, reply);
      && stored == StoredResult(taskId, q.d)
      && rpcs == q.rpcs && selections == q.selections && sleptMs == q.sleptMs
  {
    rpcs, selections, sleptMs := start.rpcs, start.selections, start.sleptMs;
    var triedNodes, lastError := start.d.tried, start.d.lastError;
    var noNodeCount, capacityWaits, errorRetries := start.d.noNodeCount, start.d.capacityWaits, start.d.errorRetries;

    while true
      invariant Choosable(Head(triedNodes, lastError, noNodeCount, capacityWaits, errorRetries, rpcs, selections, sleptMs))
      invariant Rounds(start, pick, reply) == Rounds(
        Head(triedNodes, lastError, noNodeCount, capacityWaits, errorRetries, rpcs, selections, sleptMs), pick, reply)
      decreases MAX_ATTEMPTS - errorRetries + MAX_CAPACITY_WAITS - capacityWaits
    {
      var r := OneRound(
        Head(triedNodes, lastError, noNodeCount, capacityWaits, errorRetries, rpcs, selections, sleptMs), pick, reply);
      triedNodes, lastError := r.d.tried, r.d.lastError;
      noNodeCount, capacityWaits, errorRetries := r.d.noNodeCount, r.d.capacityWaits, r.d.errorRetries;
      rpcs, selections, sleptMs := r.rpcs, r.selections, r.sleptMs;
      if r.d.pc.StoringSuccess? {
        stored := TaskResult(taskId, r.d.pc.node, true, r.d.pc.output, r.d.pc.ms, None);
        return;
      }
      if !r.d.pc.Choosing? {
        stored := TaskResult(taskId, "none", false, [], 0, Some(if r.d.pc.GivingUp? then NO_NODES else ALL_FAILED + lastError));
        return;
      }
    }
  }

  /** One dispatch against an arbitrary environment: `pick(k, tried)` answers the k-th selection and `reply(k)` the k-th
      RPC. */
  method DispatchTask(taskId: string, pick: Picker, reply: nat -> Outcome)
    returns (stored: TaskResult, rpcs: nat, selections: nat, sleptMs: nat)
    requires Honest(pick)
    ensures var q := Rounds(BEGUN, pick, reply);
      && stored == StoredResult(taskId, q.d)
      && rpcs == q.rpcs && selections == q.selections && sleptMs == q.sleptMs
    ensures rpcs <= MAX_RPCS && selections <= MAX_SELECTIONS && sleptMs <= MAX_SLEEP_MS
  {
    RoundsBounded(pick, reply);
    stored, rpcs, selections, sleptMs := RetryLoop(taskId, BEGUN, pick, reply);
  }
}
