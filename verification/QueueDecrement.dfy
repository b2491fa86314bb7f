/** What the two guards of the queue decrement do to a dispatch, as written: it never gets past them. */
module QueueDecrement {
  import opened Common
  import opened DispatchLoop
  import opened NestedLoops
  import DR = DispatchRuns
  import opened LockLevel

  // --- One dispatch -------------------------------------------------------------------------

  /** As written, nothing a dispatch at the decrement waits for ever comes. */
  predicate AcceptsAsWritten(d: Dispatch, i: Input)
  {
    Accepts(d, i) && !d.pc.Dequeueing?
  }

  predicate ValidAsWritten(t: Trace)
  {
    t.Then? ==> ValidAsWritten(t.before) && AcceptsAsWritten(State(t.before), t.event)
  }

  /** At most one selection came back empty, and if one did the dispatch is on its way to the decrement or at it. */
  predicate HeldUp(d: Dispatch)
  {
    && d.noNodeCount <= 1
    && (d.noNodeCount == 1 <==> d.pc.Enqueueing? || d.pc.Waiting? || d.pc.Dequeueing?)
    && !d.pc.GivingUp?
  }

  lemma StepHeldUp(d: Dispatch, i: Input)
    requires HeldUp(d) && AcceptsAsWritten(d, i)
    ensures HeldUp(Advance(d, i))
  {
  }

  lemma {:induction false} AlwaysHeldUp(t: Trace)
    requires ValidAsWritten(t)
    ensures Valid(t) && HeldUp(State(t))
  {
    if t.Then? {
      AlwaysHeldUp(t.before);
      StepHeldUp(State(t.before), t.event);
    }
  }

  lemma {:induction false} NeverAtDecrement(t: Trace)
    requires Valid(t) && EmptySelections(t) == 0
    ensures ValidAsWritten(t)
  {
    if t.Then? {
      NeverAtDecrement(t.before);
      BudgetsAlwaysHold(t.before);
      WaitsAreTallies(t.before);
    }
  }

  /** A dispatch that is done is done: the same answers lead to no longer trace. */
  lemma {:induction false} DoneIsLast(t: Trace, u: Trace, pick: Picker, reply: nat -> Outcome)
    requires Valid(t) && Valid(u) && AnsweredBy(t, pick, reply) && AnsweredBy(u, pick, reply)
    requires State(t).pc.Done? && Steps(t) <= Steps(u)
    ensures t == u
  {
    if Steps(t) == Steps(u) {
      AnswersDetermineTrace(t, u, pick, reply);
    } else {
      DoneIsLast(t, u.before, pick, reply);
      assert false;
    }
  }

  /** The dispatch can be carried to its end, as written, against this environment. */
  ghost predicate EndsAsWritten(pick: Picker, reply: nat -> Outcome)
  {
    exists t :: ValidAsWritten(t) && AnsweredBy(t, pick, reply) && State(t).pc.Done?
  }

  lemma WholeRun(pick: Picker, reply: nat -> Outcome) returns (t: Trace)
    requires Honest(pick)
    ensures Valid(t) && AnsweredBy(t, pick, reply) && State(t).pc.Done?
    ensures EmptySelections(t) == State(t).noNodeCount == Rounds(BEGUN, pick, reply).d.noNodeCount
  {
    t := LoopsAreMachine(pick, reply);
    t := PushAnswer(t, Go, pick, reply);
    WaitsAreTallies(t);
  }

  /** One dispatch on its own, with no other to hold the lock: against every environment it ends, as written, if and only if
      none of the selections it makes comes back empty. */
  lemma {:induction false} EndsUnlessSelectionEmpty(pick: Picker, reply: nat -> Outcome)
    requires Honest(pick)
    ensures EndsAsWritten(pick, reply) <==> Rounds(BEGUN, pick, reply).d.noNodeCount == 0
  {
    var u := WholeRun(pick, reply);
    if State(u).noNodeCount == 0 {
      NeverAtDecrement(u);
    } else if EndsAsWritten(pick, reply) {
      var t :| ValidAsWritten(t) && AnsweredBy(t, pick, reply) && State(t).pc.Done?;
      AlwaysHeldUp(t);
      if Steps(t) <= Steps(u) { DoneIsLast(t, u, pick, reply); } else { DoneIsLast(u, t, pick, reply); }
    }
  }

  // --- Any number of dispatches and the lock ------------------------------------------------

  /** In every run with the guards as written, no dispatch ever takes the step past the decrement. */
  lemma {:induction false} TracesAsWritten(strategy: string, r: LockRun, id: string)
    requires Possible(true, strategy, r)
    ensures ValidAsWritten(DR.TraceOf(strategy, Unlocked(r), id))
  {
    if r.Then? {
      TracesAsWritten(strategy, r.before, id);
      AlwaysOrderly(true, strategy, r.before);
      RefinesInterleaving(true, strategy, r.before);
      RefinesInterleaving(true, strategy, r);
      DR.Projection(strategy, Unlocked(r.before), id);
      DR.Projection(strategy, Unlocked(r), id);
    }
  }

  /** Each dispatch has met at most one empty selection, and then stands on its way to the decrement or at it. */
  lemma {:induction false} NeverPastDecrement(strategy: string, r: LockRun, id: string)
    requires Possible(true, strategy, r) && id in At(strategy, r).w.runs
    ensures var d := At(strategy, r).w.runs[id];
      HeldUp(d) && d.noNodeCount == EmptySelections(DR.TraceOf(strategy, Unlocked(r), id))
  {
    TracesAsWritten(strategy, r, id);
    RefinesInterleaving(true, strategy, r);
    DR.Projection(strategy, Unlocked(r), id);
    AlwaysHeldUp(DR.TraceOf(strategy, Unlocked(r), id));
    WaitsAreTallies(DR.TraceOf(strategy, Unlocked(r), id));
  }

  /** Some selection of the dispatch came back empty. */
  ghost predicate MetEmptySelection(strategy: string, r: LockRun, id: string)
  {
    EmptySelections(DR.TraceOf(strategy, Unlocked(r), id)) > 0
  }

  lemma {:induction false} StillMet(strategy: string, r: LockRun, later: LockRun, id: string)
    requires Extends(r, later) && MetEmptySelection(strategy, r, id)
    ensures MetEmptySelection(strategy, later, id)
  {
    if r != later { StillMet(strategy, r, later.before, id); }
  }

  /** A dispatch that meets one empty selection never ends, in any continuation, and never has a result. */
  lemma {:induction false} EmptySelectionIsFatal(strategy: string, r: LockRun, later: LockRun, id: string)
    requires Possible(true, strategy, later) && Extends(r, later) && MetEmptySelection(strategy, r, id)
    ensures var w := At(strategy, later).w; id in w.runs && !w.runs[id].pc.Done? && id !in w.state.tasks
  {
    StillMet(strategy, r, later, id);
    RefinesInterleaving(true, strategy, later);
    DR.Projection(strategy, Unlocked(later), id);
    DR.Conservation(strategy, Unlocked(later));
    NeverPastDecrement(strategy, later, id);
  }

  /** So every stored result is of a dispatch whose selections all answered, and "no nodes available" is never stored. */
  lemma {:induction false} NoNodesNeverStored(strategy: string, r: LockRun, id: string)
    requires Possible(true, strategy, r) && id in At(strategy, r).w.state.tasks
    ensures !MetEmptySelection(strategy, r, id) && At(strategy, r).w.state.tasks[id].error != Some(NO_NODES)
  {
    if MetEmptySelection(strategy, r, id) { EmptySelectionIsFatal(strategy, r, r, id); }
    RefinesInterleaving(true, strategy, r);
    DR.ResultsAlwaysExplained(strategy, Unlocked(r), id);
    NotNoNodes(AT_CAPACITY);
    var reply := LastReply(DR.TraceOf(strategy, Unlocked(r), id));
    if ErrorOf(reply).Some? { NotNoNodes(ErrorOf(reply).value); }
  }

  lemma NotNoNodes(error: string)
    ensures ALL_FAILED + error != NO_NODES
  {
    assert (ALL_FAILED + error)[0] == 'A' && NO_NODES[0] == 'n';
  }

  /** As long as no selection has come back empty the two guards do no harm: every unfinished dispatch can move, or waits
      for a lock that moves. */
  lemma {:induction false} HarmlessUntilEmptySelection(strategy: string, r: LockRun, id: string)
    requires Possible(true, strategy, r) && forall k :: !MetEmptySelection(strategy, r, k)
    requires id in At(strategy, r).w.runs && !At(strategy, r).w.runs[id].pc.Done?
    ensures CanGoOn(true, At(strategy, r), id)
  {
    forall k
      ensures !Stuck(true, At(strategy, r), k)
    {
      assert !MetEmptySelection(strategy, r, k);
      if k in At(strategy, r).w.runs { NeverPastDecrement(strategy, r, k); }
    }
    DispatchProgress(true, strategy, r, id);
  }

  // --- When every dispatch ends -------------------------------------------------------------

  /** Nothing is left that an unfinished dispatch could do or wait for. */
  ghost predicate Quiescent(strategy: string, r: LockRun)
  {
    forall id | id in At(strategy, r).w.runs && !At(strategy, r).w.runs[id].pc.Done? :: !CanGoOn(true, At(strategy, r), id)
  }

  lemma OnlyRunsMeet(strategy: string, r: LockRun, id: string)
    requires Possible(true, strategy, r) && id !in At(strategy, r).w.runs
    ensures !MetEmptySelection(strategy, r, id)
  {
    RefinesInterleaving(true, strategy, r);
    DR.Projection(strategy, Unlocked(r), id);
  }

  /** Any number of dispatches under the lock as written: once nothing more can move, every one of them has ended if and
      only if no selection of any of them came back empty. */
  lemma {:induction false} AllEndExactly(strategy: string, r: LockRun)
    requires Possible(true, strategy, r) && Quiescent(strategy, r)
    ensures (forall id | id in At(strategy, r).w.runs :: At(strategy, r).w.runs[id].pc.Done?)
      <==> (forall id | id in At(strategy, r).w.runs :: !MetEmptySelection(strategy, r, id))
  {
    var runs := At(strategy, r).w.runs;
    if id :| id in runs && MetEmptySelection(strategy, r, id) {
      EmptySelectionIsFatal(strategy, r, r, id);
    } else {
      forall k
        ensures !MetEmptySelection(strategy, r, k)
      {
        if k !in runs { OnlyRunsMeet(strategy, r, k); }
      }
      forall id | id in runs
        ensures runs[id].pc.Done?
      {
        if !runs[id].pc.Done? { HarmlessUntilEmptySelection(strategy, r, id); }
      }
    }
  }

  /** A reader that waits for its own write guard: the lock does not move. */
  lemma WedgedLock(s: Level, ms: nat, ev: Event)
    requires Stuck(true, s, "t") && s.lock == Lock(None, {Task("t")}, [Request(Task("t"), Write)])
    ensures !(Enabled(true, Next(s, Free(DR.Tick(ms))), ev) && MovesOrWaits(s.lock, "t", ev))
  {
    assert s.lock.queue[0].actor == Task("t");
  }

  /** The other side happens: one task and no node lead to a run in which nothing can move and nothing has ended. */
  lemma {:induction false} WedgeIsQuiescent(strategy: string)
    ensures exists r ::
      && Possible(true, strategy, r) && Quiescent(strategy, r)
      && "t" in At(strategy, r).w.runs && !At(strategy, r).w.runs["t"].pc.Done?
  {
    StuckIsReachable(strategy);
    var stuck :| Possible(true, strategy, stuck) && StuckAlone(At(strategy, stuck));
    AlwaysOrderly(true, strategy, stuck);
    var r := Then(stuck, Ask(Task("t"), Write));
    assert At(strategy, r).lock == Lock(None, {Task("t")}, [Request(Task("t"), Write)]);
    forall ms, ev | Enabled(true, Next(At(strategy, r), Free(DR.Tick(ms))), ev)
      ensures !MovesOrWaits(At(strategy, r).lock, "t", ev)
    {
      WedgedLock(At(strategy, r), ms, ev);
    }
  }

  /** Its own selections do not save a dispatch: once another is stuck, one submitted afterwards has no result in any
      continuation, though none of its selections came back empty. */
  lemma {:induction false} StuckStarvesOthers(strategy: string, r: LockRun, other: string, id: string, later: LockRun)
    requires Possible(true, strategy, r) && Stuck(true, At(strategy, r), other) && id !in At(strategy, r).w.runs
    requires Possible(true, strategy, later) && Extends(Then(r, Free(DR.Spawned(id))), later)
    ensures Possible(true, strategy, Then(r, Free(DR.Spawned(id)))) && id in At(strategy, later).w.runs
    ensures id !in At(strategy, later).w.state.tasks && !MetEmptySelection(strategy, later, id)
  {
    var spawned := Then(r, Free(DR.Spawned(id)));
    RefinesInterleaving(true, strategy, r);
    DR.Conservation(strategy, Unlocked(r));
    DR.Projection(strategy, Unlocked(r), id);
    StarvedStandsStill(strategy, spawned, other, id, later);
  }

  /** A freshly spawned dispatch waits for its first write lock for ever. */
  lemma {:induction false} StarvedStandsStill(strategy: string, r: LockRun, other: string, id: string, later: LockRun)
    requires Possible(true, strategy, later) && Extends(r, later) && Stuck(true, At(strategy, r), other)
    requires id in At(strategy, r).w.runs && At(strategy, r).w.runs[id] == Initial() && id !in At(strategy, r).w.state.tasks
    requires !MetEmptySelection(strategy, r, id)
    ensures id in At(strategy, later).w.runs && At(strategy, later).w.runs[id] == Initial()
    ensures id !in At(strategy, later).w.state.tasks && !MetEmptySelection(strategy, later, id)
  {
    StuckForever(true, strategy, r, later, other);
    if r != later {
      StarvedStandsStill(strategy, r, other, id, later.before);
      StuckForever(true, strategy, r, later.before, other);
    }
  }

  /** Such a pair of dispatches exists. */
  lemma {:induction false} StarvationIsReachable(strategy: string)
    ensures exists r ::
      && Possible(true, strategy, r) && "u" in At(strategy, r).w.runs && !MetEmptySelection(strategy, r, "u")
      && forall later | Possible(true, strategy, later) && Extends(r, later) :: "u" !in At(strategy, later).w.state.tasks
  {
    StuckIsReachable(strategy);
    var stuck :| Possible(true, strategy, stuck) && StuckAlone(At(strategy, stuck));
    var r := Then(stuck, Free(DR.Spawned("u")));
    assert Extends(r, r);
    StuckStarvesOthers(strategy, stuck, "t", "u", r);
    forall later | Possible(true, strategy, later) && Extends(r, later)
      ensures "u" !in At(strategy, later).w.state.tasks
    {
      StuckStarvesOthers(strategy, stuck, "t", "u", later);
    }
  }
}
