/** With the decrement under one write guard, the lock starves nobody for good: every dispatch can be brought to its
    result. */
module LockCompletion {
  import opened Common
  import opened DispatchLoop
  import opened LockLevel
  import DR = DispatchRuns

  predicate Idle(l: Lock)
  {
    l == Lock(None, {}, [])
  }

  /** What the lock still has to grant and to take back. */
  function Pending(l: Lock): nat
  {
    2 * |l.queue| + |l.readers| + Bit(l.writer.Some?)
  }

  /** A lock that is held or wanted can move, and then less is pending, until it is idle. */
  lemma {:induction false} Drain(strategy: string, r: LockRun)
    requires Possible(false, strategy, r)
    ensures exists later :: Possible(false, strategy, later) && Extends(r, later) && Idle(At(strategy, later).lock)
    decreases Pending(At(strategy, r).lock)
  {
    assert Extends(r, r);
    var s := At(strategy, r);
    if !Idle(s.lock) {
      AlwaysOrderly(false, strategy, r);
      var ev := Grant;
      if s.lock.writer.Some? {
        WritersFinish(false, s);
        ev :| Enabled(false, s, ev) && ev.Act? && ev.actor == s.lock.writer.value;
      } else if a :| a in s.lock.readers {
        ev := if a.Task? then Dial(a.id) else Leave(a.k);
      }
      Drain(strategy, Then(r, ev));
      var later :| Possible(false, strategy, later) && Extends(Then(r, ev), later) && Idle(At(strategy, later).lock);
      ExtendsFurther(r, Then(r, ev), later);
    }
  }

  /** The steps dispatch `id` has taken in the run. */
  function StepsOf(strategy: string, r: LockRun, id: string): nat
  {
    Steps(DR.TraceOf(strategy, Unlocked(r), id))
  }

  lemma {:induction false} StepsGrow(strategy: string, r: LockRun, later: LockRun, id: string)
    requires Extends(r, later) && id in At(strategy, r).w.runs
    ensures StepsOf(strategy, later, id) >= StepsOf(strategy, r, id) && id in At(strategy, later).w.runs
  {
    if r != later { StepsGrow(strategy, r, later.before, id); }
  }

  lemma Push(strategy: string, r: LockRun, s: Level, ev: Event) returns (r': LockRun, s': Level)
    requires Possible(false, strategy, r) && At(strategy, r) == s && Enabled(false, s, ev)
    ensures Possible(false, strategy, r') && At(strategy, r') == s' == Next(s, ev) && r' == Then(r, ev)
  {
    r', s' := Then(r, ev), Next(s, ev);
  }

  /** The event is a step of the dispatch, with or without the lock. */
  predicate OwnStep(ev: Event, id: string)
  {
    (ev.Free? || ev.Act?) && DR.StepOf(ev.e, id)
  }

  lemma OwnStepCounts(strategy: string, r: LockRun, ev: Event, id: string)
    requires Possible(false, strategy, Then(r, ev)) && OwnStep(ev, id) && id in At(strategy, r).w.runs
    ensures StepsOf(strategy, Then(r, ev), id) == StepsOf(strategy, r, id) + 1
  {
    RefinesInterleaving(false, strategy, r);
  }

  /** The dispatch wakes up. */
  lemma Wake(strategy: string, r: LockRun, id: string) returns (before: LockRun, ev: Event)
    requires Possible(false, strategy, r) && id in At(strategy, r).w.runs && Sleeping(At(strategy, r).w.runs[id].pc)
    ensures Possible(false, strategy, Then(before, ev)) && Extends(r, before) && OwnStep(ev, id)
  {
    var s := At(strategy, r);
    var ms := if DR.Awake(s.w, id) then 0 else s.w.wakeAt[id] - s.w.clock;
    before, s := Push(strategy, r, s, Free(DR.Tick(ms)));
    ev := Free(DR.Went(id));
  }

  /** The RPC is sent, if it was not yet, and returns. */
  lemma Call(strategy: string, r: LockRun, id: string) returns (before: LockRun, ev: Event)
    requires Possible(false, strategy, r) && Idle(At(strategy, r).lock) && AwakeUnlessSleeping(At(strategy, r).w)
    requires id in At(strategy, r).w.runs && At(strategy, r).w.runs[id].pc.Calling?
    ensures Possible(false, strategy, Then(before, ev)) && Extends(r, before) && OwnStep(ev, id)
  {
    var s := At(strategy, r);
    before, ev := r, Free(DR.Returned(id, AtCapacity));
    if id !in s.dialed {
      before, s := Push(strategy, before, s, Ask(Task(id), Read));
      before, s := Push(strategy, before, s, Grant);
      before, s := Push(strategy, before, s, Dial(id));
      assert Extends(r, before.before.before);
    }
  }

  /** The dispatch gets the write lock and runs its critical section. */
  lemma Section(strategy: string, r: LockRun, id: string) returns (before: LockRun, ev: Event)
    requires Possible(false, strategy, r) && Idle(At(strategy, r).lock) && AwakeUnlessSleeping(At(strategy, r).w)
    requires id in At(strategy, r).w.runs && FirstGuard(false, At(strategy, r), id) == Some(Write)
    ensures Possible(false, strategy, Then(before, ev)) && Extends(r, before) && OwnStep(ev, id)
  {
    var s := At(strategy, r);
    ev := Act(Task(id), if s.w.runs[id].pc.Choosing? then DR.Chosen(id, 0) else DR.Went(id));
    before, s := Push(strategy, r, s, Ask(Task(id), Write));
    before, s := Push(strategy, before, s, Grant);
    assert Extends(r, before.before);
  }

  /** From an idle lock an unfinished dispatch takes its next step. */
  lemma TakeStep(strategy: string, r: LockRun, id: string) returns (later: LockRun)
    requires Possible(false, strategy, r) && Idle(At(strategy, r).lock)
    requires id in At(strategy, r).w.runs && !At(strategy, r).w.runs[id].pc.Done?
    ensures Possible(false, strategy, later) && Extends(r, later)
    ensures StepsOf(strategy, later, id) > StepsOf(strategy, r, id)
  {
    AlwaysOrderly(false, strategy, r);
    var pc, before, ev := At(strategy, r).w.runs[id].pc, r, Grant;
    if Sleeping(pc) {
      before, ev := Wake(strategy, r, id);
    } else if pc.Calling? {
      before, ev := Call(strategy, r, id);
    } else {
      before, ev := Section(strategy, r, id);
    }
    StepsGrow(strategy, r, before, id);
    OwnStepCounts(strategy, before, ev, id);
    later := Then(before, ev);
  }

  /** From every run of the lock with one guard, whoever holds it and whoever waits, each dispatch can be brought to its
      stored result. */
  lemma {:induction false} CompletesUnderLock(strategy: string, r: LockRun, id: string)
    requires Possible(false, strategy, r) && id in At(strategy, r).w.runs
    ensures exists later :: Possible(false, strategy, later) && Extends(r, later) && DR.HasResult(At(strategy, later).w, id)
    decreases MAX_STEPS - StepsOf(strategy, r, id)
  {
    Drain(strategy, r);
    var idle :| Possible(false, strategy, idle) && Extends(r, idle) && Idle(At(strategy, idle).lock);
    StepsGrow(strategy, r, idle, id);
    RefinesInterleaving(false, strategy, idle);
    DR.Conservation(strategy, Unlocked(idle));
    if id !in At(strategy, idle).w.state.tasks {
      DR.StepsLeft(strategy, Unlocked(idle), id);
      var next := TakeStep(strategy, idle, id);
      StepsGrow(strategy, idle, next, id);
      ExtendsFurther(r, idle, next);
      CompletesUnderLock(strategy, next, id);
      var later :| Possible(false, strategy, later) && Extends(next, later) && DR.HasResult(At(strategy, later).w, id);
      ExtendsFurther(r, next, later);
    }
  }
}
