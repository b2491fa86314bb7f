/** Execution timeouts: one epoch counter per engine, one deadline per store, one timer per execution; and the memory
    limiter whose denials colour the reported error. */
module Sandbox {
  import opened Common

  // --- The memory limiter -------------------------------------------------------------------

  /** The denied flag after a request to grow. */
  predicate DeniedAfter(denied: bool, desired: nat, maxBytes: nat)
  {
    denied || desired > maxBytes
  }

  class LimitState {
    const maxBytes: nat
    var denied: bool

    constructor (maxBytes: nat)
      ensures this.maxBytes == maxBytes && !denied
    {
      this.maxBytes, denied := maxBytes, false;
    }

    /** Grants exactly what fits; a denial is remembered for good. */
    method MemoryGrowing(desired: nat) returns (granted: bool)
      modifies this
      ensures granted <==> desired <= maxBytes
      ensures denied <==> old(denied) || desired > maxBytes
    {
      if desired > maxBytes {
        denied := true;
        return false;
      }
      return true;
    }
  }

  // --- Failed guest calls -------------------------------------------------------------------

  /** How a guest call fails: the epoch trap, another trap, or an error that is no trap. */
  datatype GuestError = Interrupt | OtherTrap | NotATrap(message: string)

  predicate Mentions(text: string, word: string)
  {
    exists i | 0 <= i <= |text| :: word <= text[i..]
  }

  /** `map_trap_error`: errors that are no traps are told apart by their text. */
  function MapTrapError(e: GuestError): Outcome
  {
    match e
    case Interrupt => Timeout
    case OtherTrap => Trap
    case NotATrap(m) => if Mentions(m, "interrupt") || Mentions(m, "Interrupt") then Timeout else Trap
  }

  // --- Overlapping executions on one engine -------------------------------------------------

  datatype Timer = Armed | Fired | Aborted

  /** `OtherError` is an invalid module, a missing export or a bad length: no guest call failed. */
  datatype Outcome = Returned | Timeout | Trap | MemoryLimitExceeded | OtherError | JoinError

  /** `Preparing` is validation and compilation, before the store's deadline is set. */
  datatype Stage = Preparing | Guest | Ended(outcome: Outcome)

  datatype Execution = Execution(timer: Timer, stage: Stage, deadline: nat, maxBytes: nat, denied: bool)

  datatype World = World(epoch: nat, runs: map<nat, Execution>)

  datatype Event =
    | Started(x: nat, maxBytes: nat)
    | DeadlineSet(x: nat)
    | TimerFired(x: nat)
    | TimerAborted(x: nat)
    | Grew(x: nat, desired: nat)
    | Checked(x: nat)
    | Trapped(x: nat, error: GuestError)
    | Finished(x: nat)
    | GaveUp(x: nat)
    | Panicked(x: nat)

  type EpochRun = Run<Event>

  /** The epoch check at the next loop back-edge or call. */
  predicate WouldTrap(w: World, x: nat)
    requires x in w.runs
  {
    w.epoch >= w.runs[x].deadline
  }

  /** A timer goes off while it is armed, even if its execution is over; it is aborted only after a result came back. */
  predicate Enabled(w: World, e: Event)
  {
    match e
    case Started(x, _) => x !in w.runs
    case DeadlineSet(x) => x in w.runs && w.runs[x].stage.Preparing?
    case TimerFired(x) => x in w.runs && w.runs[x].timer.Armed?
    case TimerAborted(x) =>
      x in w.runs && w.runs[x].timer.Armed? && w.runs[x].stage.Ended? && !w.runs[x].stage.outcome.JoinError?
    case GaveUp(x) => x in w.runs && !w.runs[x].stage.Ended?
    case Panicked(x) => x in w.runs && !w.runs[x].stage.Ended?
    case Trapped(x, error) => x in w.runs && w.runs[x].stage.Guest? && !error.Interrupt?
    case _ => e.x in w.runs && w.runs[e.x].stage.Guest?
  }

  /** A failed guest call: any denied growth, however long ago, turns the error into a memory-limit error. */
  function ErrorFor(denied: bool, e: GuestError): Outcome
  {
    if denied then MemoryLimitExceeded else MapTrapError(e)
  }

  function Next(w: World, e: Event): World
  {
    if e.Started? then w.(runs := w.runs[e.x := Execution(Armed, Preparing, 0, e.maxBytes, false)])
    else if e.x !in w.runs then w
    else
      var run := w.runs[e.x];
      match e
      case DeadlineSet(x) => w.(runs := w.runs[x := run.(stage := Guest, deadline := w.epoch + 1)])
      case TimerFired(x) => World(w.epoch + 1, w.runs[x := run.(timer := Fired)])
      case TimerAborted(x) => w.(runs := w.runs[x := run.(timer := Aborted)])
      case Grew(x, desired) => w.(runs := w.runs[x := run.(denied := DeniedAfter(run.denied, desired, run.maxBytes))])
      case Checked(x) =>
        if WouldTrap(w, x) then w.(runs := w.runs[x := run.(stage := Ended(ErrorFor(run.denied, Interrupt)))]) else w
      case Trapped(x, error) => w.(runs := w.runs[x := run.(stage := Ended(ErrorFor(run.denied, error)))])
      case Finished(x) => w.(runs := w.runs[x := run.(stage := Ended(Returned))])
      case GaveUp(x) => w.(runs := w.runs[x := run.(stage := Ended(OtherError))])
      case Panicked(x) => w.(runs := w.runs[x := run.(stage := Ended(JoinError))])
      case _ => w
  }

  function At(r: EpochRun): World
  {
    match r
    case Start => World(0, map[])
    case Then(p, e) => Next(At(p), e)
  }

  predicate Possible(r: EpochRun)
  {
    r.Then? ==> Possible(r.before) && Enabled(At(r.before), r.event)
  }

  // --- The epoch protocol -------------------------------------------------------------------

  function TimersFired(r: EpochRun): nat
  {
    if r.Start? then 0 else TimersFired(r.before) + Bit(r.event.TimerFired?)
  }

  /** Some timer, its own or another's, fired after execution x set its deadline. */
  predicate FiredSinceDeadline(r: EpochRun, x: nat)
  {
    r.Then? &&
    (if r.event == DeadlineSet(x) then false
     else if r.event.TimerFired? && DeadlineIsSet(r.before, x) then true
     else FiredSinceDeadline(r.before, x))
  }

  predicate DeadlineIsSet(r: EpochRun, x: nat)
  {
    r.Then? && (r.event == DeadlineSet(x) || DeadlineIsSet(r.before, x))
  }

  ghost predicate DeadlineTells(w: World, x: nat, set_: bool, fired: bool)
  {
    && (set_ ==> x in w.runs && !w.runs[x].stage.Preparing?)
    && (x in w.runs && w.runs[x].stage.Guest? ==> set_)
    && (fired ==> set_)
    && (set_ ==> w.runs[x].deadline <= w.epoch + 1 && (w.epoch >= w.runs[x].deadline <==> fired))
  }

  lemma StepDeadline(w: World, e: Event, x: nat, set_: bool, fired: bool)
    requires Enabled(w, e) && DeadlineTells(w, x, set_, fired)
    ensures DeadlineTells(Next(w, e), x,
        e == DeadlineSet(x) || set_,
        if e == DeadlineSet(x) then false else (e.TimerFired? && set_) || fired)
  {
  }

  lemma {:induction false} DeadlineInvariant(r: EpochRun, x: nat)
    requires Possible(r)
    ensures DeadlineTells(At(r), x, DeadlineIsSet(r, x), FiredSinceDeadline(r, x))
  {
    if r.Then? {
      DeadlineInvariant(r.before, x);
      StepDeadline(At(r.before), r.event, x, DeadlineIsSet(r.before, x), FiredSinceDeadline(r.before, x));
    }
  }

  /** For any number of overlapping executions: the next check of a running guest traps if and only if some timer, its
      own or another's, fired after that execution set its deadline. */
  lemma CheckTrapsExactly(r: EpochRun, x: nat)
    requires Possible(r) && x in At(r).runs && At(r).runs[x].stage.Guest?
    ensures WouldTrap(At(r), x) <==> FiredSinceDeadline(r, x)
  {
    DeadlineInvariant(r, x);
  }

  /** The epoch counts the timers fired, each at most once per execution. */
  lemma {:induction false} EpochCountsTimers(r: EpochRun)
    requires Possible(r)
    ensures At(r).epoch == TimersFired(r) == Count(At(r).runs, HasFired)
  {
    if r.Start? {
      assert Having(At(r).runs, HasFired) == {};
    } else {
      EpochCountsTimers(r.before);
      var w, e := At(r.before), r.event;
      CountUpdate(w.runs, HasFired, e.x, At(r).runs[e.x]);
      assert At(r).runs == w.runs[e.x := At(r).runs[e.x]];
    }
  }

  predicate HasFired(run: Execution)
  {
    run.timer.Fired?
  }

  // --- Who can stop whom --------------------------------------------------------------------

  /** Some timer other than x's fired between the two points. */
  ghost predicate ForeignTimerFired(r: EpochRun, later: EpochRun, x: nat)
    requires Extends(r, later)
  {
    r != later && (ForeignTimerFired(r, later.before, x) || (later.event.TimerFired? && later.event.x != x))
  }

  lemma StepSpent(w: World, e: Event, x: nat)
    requires Enabled(w, e) && x in w.runs && !w.runs[x].timer.Armed?
    ensures x in Next(w, e).runs && !Next(w, e).runs[x].timer.Armed? && e != TimerFired(x)
  {
  }

  /** A timer that fires before its own store's deadline is set, during a long compilation, does not stop that execution:
      from then on only another execution's timer can. */
  lemma {:induction false} EarlyTimerIsLost(r: EpochRun, later: EpochRun, x: nat)
    requires Possible(later) && Extends(r, later)
    requires r.Then? && r.event == DeadlineSet(x) && x in At(r).runs && At(r).runs[x].timer.Fired?
    ensures x in At(later).runs && !At(later).runs[x].timer.Armed?
    ensures FiredSinceDeadline(later, x) ==> ForeignTimerFired(r, later, x)
    ensures At(later).runs[x].stage.Guest? && !ForeignTimerFired(r, later, x) ==> !WouldTrap(At(later), x)
  {
    if r != later {
      EarlyTimerIsLost(r, later.before, x);
      StepSpent(At(later.before), later.event, x);
    }
    DeadlineInvariant(later, x);
  }

  /** Another execution's timer does interrupt: execution 0 times out while its own timer is still armed. */
  lemma ForeignTimerInterrupts() returns (r: EpochRun)
    ensures Possible(r) && 0 in At(r).runs
    ensures At(r).runs[0].stage == Ended(Timeout) && At(r).runs[0].timer == Armed
  {
    var setUp := Then(Then(Then(Start, Started(0, 0)), DeadlineSet(0)), Started(1, 0));
    assert At(setUp).runs == map[0 := Execution(Armed, Guest, 1, 0, false), 1 := Execution(Armed, Preparing, 0, 0, false)];
    r := Then(Then(setUp, TimerFired(1)), Checked(0));
  }

  // --- What is reported ---------------------------------------------------------------------

  predicate DeniedIn(r: EpochRun, x: nat)
  {
    r.Then? &&
    (|| DeniedIn(r.before, x)
     || (r.event.Grew? && r.event.x == x && x in At(r.before).runs && r.event.desired > At(r.before).runs[x].maxBytes))
  }

  lemma {:induction false} DeniedIsSticky(r: EpochRun, x: nat)
    requires Possible(r)
    ensures x in At(r).runs ==> At(r).runs[x].denied == DeniedIn(r, x)
    ensures x !in At(r).runs ==> !DeniedIn(r, x)
  {
    if r.Then? { DeniedIsSticky(r.before, x); }
  }

  /** The error of the guest call that ended execution x, if it was one. */
  function EndingError(r: EpochRun, x: nat): Option<GuestError>
  {
    if r.Start? then None
    else
      var w, e := At(r.before), r.event;
      if e == Checked(x) && x in w.runs && WouldTrap(w, x) then Some(Interrupt)
      else if e.Trapped? && e.x == x then Some(e.error)
      else EndingError(r.before, x)
  }

  /** The outcome of an execution, told from its failed guest call and its refused growths. */
  ghost predicate Explained(stage: Stage, error: Option<GuestError>, denied: bool)
  {
    && (stage == Ended(MemoryLimitExceeded) <==> error.Some? && denied)
    && (stage == Ended(Timeout) <==> error.Some? && !denied && SaysTimeout(error.value))
    && (stage == Ended(Trap) <==> error.Some? && !denied && !SaysTimeout(error.value))
  }

  /** The epoch trap, or an error that is no trap and whose text has the word in it. */
  predicate SaysTimeout(e: GuestError)
  {
    || e.Interrupt?
    || (e.NotATrap? && exists i | 0 <= i <= |e.message| :: "interrupt" <= e.message[i..] || "Interrupt" <= e.message[i..])
  }

  lemma MapIsSaying(e: GuestError)
    ensures MapTrapError(e) == if SaysTimeout(e) then Timeout else Trap
  {
  }

  /** The reported outcome of every execution, read off the run: a failed guest call is a memory-limit error if and only if
      some growth was refused, otherwise a timeout if and only if it was the epoch trap or says so, and otherwise a trap;
      without a failed call none of them is reported. An interrupt means some timer fired since the deadline. */
  lemma {:induction false} OutcomeExplained(r: EpochRun, x: nat)
    requires Possible(r)
    ensures x in At(r).runs ==> Explained(At(r).runs[x].stage, EndingError(r, x), DeniedIn(r, x))
    ensures EndingError(r, x).Some? ==> x in At(r).runs && At(r).runs[x].stage.Ended?
    ensures EndingError(r, x) == Some(Interrupt) ==> FiredSinceDeadline(r, x)
  {
    if r.Then? {
      OutcomeExplained(r.before, x);
      DeniedIsSticky(r.before, x);
      DeniedIsSticky(r, x);
      DeadlineInvariant(r.before, x);
      MapIsSaying(Interrupt);
      if r.event.Trapped? { MapIsSaying(r.event.error); }
    }
  }

  predicate Happened(r: EpochRun, e: Event)
  {
    r.Then? && (Happened(r.before, e) || r.event == e)
  }

  /** The other endings: a guest that finished, an execution given up for another reason, and a panic, each reported exactly
      when it happened. */
  lemma {:induction false} OtherEndings(r: EpochRun, x: nat)
    requires Possible(r)
    ensures (x in At(r).runs && At(r).runs[x].stage == Ended(Returned)) <==> Happened(r, Finished(x))
    ensures (x in At(r).runs && At(r).runs[x].stage == Ended(OtherError)) <==> Happened(r, GaveUp(x))
    ensures (x in At(r).runs && At(r).runs[x].stage == Ended(JoinError)) <==> Happened(r, Panicked(x))
  {
    if r.Then? {
      OtherEndings(r.before, x);
      if r.event.Trapped? { MapIsSaying(r.event.error); }
    }
  }

  predicate TimedOut(w: World, x: nat)
  {
    x in w.runs && w.runs[x].stage == Ended(Timeout)
  }

  /** If no timer fires nobody is interrupted: a timeout is then only ever reported for an error whose text says so. */
  lemma {:induction false} NoTimerNoInterrupt(r: EpochRun, x: nat)
    requires Possible(r) && TimersFired(r) == 0
    ensures EndingError(r, x) != Some(Interrupt)
    ensures TimedOut(At(r), x) ==> EndingError(r, x).Some? && EndingError(r, x).value.NotATrap?
    ensures x in At(r).runs && At(r).runs[x].stage.Guest? ==> !WouldTrap(At(r), x)
  {
    NoTimerSince(r, x);
    DeadlineInvariant(r, x);
    OutcomeExplained(r, x);
  }

  lemma {:induction false} NoTimerSince(r: EpochRun, x: nat)
    requires TimersFired(r) == 0
    ensures !FiredSinceDeadline(r, x)
  {
    if r.Then? { NoTimerSince(r.before, x); }
  }

  // --- Which timers are aborted -------------------------------------------------------------

  ghost predicate AbortedIn(r: EpochRun, x: nat)
  {
    Possible(r) && x in At(r).runs && At(r).runs[x].timer.Aborted?
  }

  lemma StepEnded(w: World, e: Event, x: nat)
    requires Enabled(w, e) && x in w.runs && w.runs[x].stage.Ended?
    ensures x in Next(w, e).runs && Next(w, e).runs[x].stage == w.runs[x].stage
    ensures Next(w, e).runs[x].timer == if e == TimerFired(x) then Fired else if e == TimerAborted(x) then Aborted else w.runs[x].timer
  {
  }

  lemma {:induction false} NeverAborted(r: EpochRun, later: EpochRun, x: nat)
    requires Possible(later) && Extends(r, later) && x in At(r).runs && At(r).runs[x].stage.Ended?
    requires At(r).runs[x].timer.Fired? || (At(r).runs[x].timer.Armed? && At(r).runs[x].stage.outcome.JoinError?)
    ensures x in At(later).runs && At(later).runs[x].stage == At(r).runs[x].stage
    ensures At(later).runs[x].timer.Fired? || (At(later).runs[x].timer.Armed? && At(r).runs[x].stage.outcome.JoinError?)
  {
    if r != later {
      NeverAborted(r, later.before, x);
      StepEnded(At(later.before), later.event, x);
    }
  }

  /** The timer of an ended execution is or can still be aborted if and only if it has not fired and the execution did not
      panic. After a panic it stays armed, and can still advance the epoch that every execution shares. */
  lemma {:induction false} AbortedUnlessPanicked(r: EpochRun, x: nat)
    requires Possible(r) && x in At(r).runs && At(r).runs[x].stage.Ended?
    ensures var run := At(r).runs[x];
      (exists later :: Extends(r, later) && AbortedIn(later, x)) <==>
        run.timer.Aborted? || (run.timer.Armed? && !run.stage.outcome.JoinError?)
    ensures At(r).runs[x].timer.Armed? ==>
      Possible(Then(r, TimerFired(x))) && At(Then(r, TimerFired(x))).epoch == At(r).epoch + 1
  {
    var run := At(r).runs[x];
    if run.timer.Aborted? {
      assert Extends(r, r) && AbortedIn(r, x);
    } else if run.timer.Armed? && !run.stage.outcome.JoinError? {
      var later := Then(r, TimerAborted(x));
      assert Extends(r, later.before);
      assert Extends(r, later) && AbortedIn(later, x);
    } else {
      forall later | Extends(r, later) && AbortedIn(later, x)
        ensures false
      {
        NeverAborted(r, later, x);
      }
    }
  }
}
