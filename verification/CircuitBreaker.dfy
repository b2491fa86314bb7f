/** The per-node circuit breaker, and the stateless reading of its call history that it refines. */
module CircuitBreakers {
  import opened Common

  datatype CircuitState = Closed | Open | HalfOpen

  datatype Breaker = Breaker(
    state: CircuitState,
    failureCount: nat,
    failureThreshold: nat,
    lastFailure: Option<nat>,
    cooldown: nat)

  const FAILURE_THRESHOLD := 5
  const COOLDOWN_MS := 30_000

  function Fresh(threshold: nat, cooldown: nat): Breaker
  {
    Breaker(Closed, 0, threshold, None, cooldown)
  }

  function Default(): Breaker
  {
    Fresh(FAILURE_THRESHOLD, COOLDOWN_MS)
  }

  /** Time since the last failure; zero when there is none. */
  function SinceFailure(b: Breaker, now: nat): nat
  {
    if b.lastFailure.Some? then SaturatingSub(now, b.lastFailure.value) else 0
  }

  predicate Allows(b: Breaker, now: nat)
  {
    b.state != Open || SinceFailure(b, now) >= b.cooldown
  }

  function AfterAsk(b: Breaker, now: nat): Breaker
  {
    if b.state == Open && SinceFailure(b, now) >= b.cooldown then b.(state := HalfOpen) else b
  }

  function AfterSuccess(b: Breaker): Breaker
  {
    b.(failureCount := 0, state := Closed)
  }

  function AfterFailure(b: Breaker, now: nat): Breaker
  {
    var state :=
      match b.state
      case Closed => if b.failureCount + 1 >= b.failureThreshold then Open else Closed
      case HalfOpen => Open
      case Open => Open;
    b.(failureCount := b.failureCount + 1, lastFailure := Some(now), state := state)
  }

  class CircuitBreaker {
    var state: CircuitState
    var failureCount: nat
    var lastFailure: Option<nat>
    const failureThreshold: nat
    const cooldown: nat

    function View(): Breaker
      reads this
    {
      Breaker(state, failureCount, failureThreshold, lastFailure, cooldown)
    }

    constructor ()
      ensures View() == Default()
    {
      state, failureCount, lastFailure := Closed, 0, None;
      failureThreshold, cooldown := FAILURE_THRESHOLD, COOLDOWN_MS;
    }

    method AllowRequest(now: nat) returns (ok: bool)
      modifies this
      ensures ok == Allows(old(View()), now)
      ensures View() == AfterAsk(old(View()), now)
    {
      match state {
        case Closed => return true;
        case Open =>
          var elapsed := match lastFailure case Some(t) => SaturatingSub(now, t) case None => 0;
          if elapsed >= cooldown {
            state := HalfOpen;
            return true;
          }
          return false;
        case HalfOpen => return true;
      }
    }

    method RecordSuccess()
      modifies this
      ensures View() == AfterSuccess(old(View()))
    {
      failureCount := 0;
      state := Closed;
    }

    method RecordFailure(now: nat)
      modifies this
      ensures View() == AfterFailure(old(View()), now)
    {
      failureCount := failureCount + 1;
      lastFailure := Some(now);
      match state {
        case Closed =>
          if failureCount >= failureThreshold {
            state := Open;
          }
        case HalfOpen => state := Open;
        case Open =>
      }
    }
  }

  // --- The history of one breaker -----------------------------------------------------------

  /** One call on a breaker, stamped with the clock. */
  datatype Call = Ask(at: nat) | Success(at: nat) | Failure(at: nat)

  type History = Run<Call>

  function Step(b: Breaker, c: Call): Breaker
  {
    match c
    case Ask(t) => AfterAsk(b, t)
    case Success(_) => AfterSuccess(b)
    case Failure(t) => AfterFailure(b, t)
  }

  function Replay(b: Breaker, h: History): Breaker
  {
    match h
    case Start => b
    case Then(p, c) => Step(Replay(b, p), c)
  }

  function FailuresSinceSuccess(h: History): nat
  {
    match h
    case Start => 0
    case Then(p, Ask(_)) => FailuresSinceSuccess(p)
    case Then(_, Success(_)) => 0
    case Then(p, Failure(_)) => FailuresSinceSuccess(p) + 1
  }

  function LastFailure(h: History): Option<nat>
  {
    match h
    case Start => None
    case Then(p, Failure(t)) => Some(t)
    case Then(p, _) => LastFailure(p)
  }

  /** Some `Ask` after the last failure came at or after that failure's cooldown. */
  predicate AskedAfterCooldown(h: History, cooldown: nat)
  {
    match h
    case Start => false
    case Then(p, Ask(t)) => AskedAfterCooldown(p, cooldown) || CooledDown(p, cooldown, t)
    case Then(p, Success(_)) => AskedAfterCooldown(p, cooldown)
    case Then(_, Failure(_)) => false
  }

  predicate CooledDown(h: History, cooldown: nat, now: nat)
  {
    LastFailure(h).Some? && now >= LastFailure(h).value + cooldown
  }

  /** The clock never runs backwards, and every call happened by `now`. */
  predicate MonotoneUntil(h: History, now: nat)
  {
    h.Then? ==> h.event.at <= now && MonotoneUntil(h.before, h.event.at)
  }

  /** What the stateful breaker must answer, read off the history alone. */
  ghost predicate AgreesWithHistory(b: Breaker, h: History, now: nat)
  {
    var healthy := FailuresSinceSuccess(h) < b.failureThreshold;
    && (Allows(b, now) <==> healthy || CooledDown(h, b.cooldown, now))
    && (b.state == Closed <==> healthy)
    && (b.state == HalfOpen <==> !healthy && AskedAfterCooldown(h, b.cooldown))
  }

  /** The inductive strengthening: the fields are exactly the history's summary. */
  lemma {:induction false} ReplaySummary(threshold: nat, cooldown: nat, h: History, now: nat)
    requires threshold >= 1 && MonotoneUntil(h, now)
    ensures var b := Replay(Fresh(threshold, cooldown), h);
      && b.failureThreshold == threshold && b.cooldown == cooldown
      && b.failureCount == FailuresSinceSuccess(h)
      && b.lastFailure == LastFailure(h)
      && (b.state == Closed <==> b.failureCount < threshold)
      && (b.state != Closed ==> b.lastFailure.Some?)
      && (b.state == HalfOpen <==> b.failureCount >= threshold && AskedAfterCooldown(h, cooldown))
      && (AskedAfterCooldown(h, cooldown) ==> CooledDown(h, cooldown, now))
      && (b.lastFailure.Some? ==> b.lastFailure.value <= now)
  {
    match h
    case Start =>
    case Then(p, c) => ReplaySummary(threshold, cooldown, p, c.at);
  }

  /** The breaker refines its history for every timed sequence of calls, exactly when the threshold is positive. */
  lemma RefinesHistory(threshold: nat, cooldown: nat)
    ensures threshold >= 1 <==>
      forall h: History, now | MonotoneUntil(h, now) ::
        AgreesWithHistory(Replay(Fresh(threshold, cooldown), h), h, now)
  {
    if threshold == 0 {
      var h: History := Start;
      assert MonotoneUntil(h, 0);
      assert !AgreesWithHistory(Replay(Fresh(threshold, cooldown), h), h, 0);
    } else {
      forall h: History, now | MonotoneUntil(h, now)
        ensures AgreesWithHistory(Replay(Fresh(threshold, cooldown), h), h, now)
      {
        ReplaySummary(threshold, cooldown, h, now);
      }
    }
  }

  /** A half-open breaker admits every request, not one probe, until an outcome is recorded. */
  lemma {:induction false} HalfOpenAdmitsEveryRequest(b: Breaker, h: History, now: nat)
    requires b.state == HalfOpen
    requires OnlyAsks(h)
    ensures Allows(Replay(b, h), now) && Replay(b, h) == b
  {
    if h.Then? { HalfOpenAdmitsEveryRequest(b, h.before, now); }
  }

  /** Times `allow_request` said yes since the last recorded outcome. */
  function Admitted(b: Breaker, h: History): nat
  {
    match h
    case Then(p, Ask(t)) => Admitted(b, p) + Bit(Allows(Replay(b, p), t))
    case _ => 0
  }

  /** Times it was asked at or after the cooldown since the last recorded outcome. */
  function AsksPastCooldown(cooldown: nat, h: History): nat
  {
    match h
    case Then(p, Ask(t)) => AsksPastCooldown(cooldown, p) + Bit(CooledDown(p, cooldown, t))
    case _ => 0
  }

  /** A tripped breaker says yes exactly when it is asked past the cooldown, however often. */
  lemma {:induction false} YesPastCooldown(threshold: nat, cooldown: nat, h: History, now: nat)
    requires threshold >= 1 && MonotoneUntil(h, now) && FailuresSinceSuccess(h) >= threshold
    ensures Admitted(Fresh(threshold, cooldown), h) == AsksPastCooldown(cooldown, h)
  {
    match h
    case Then(p, Ask(t)) =>
      YesPastCooldown(threshold, cooldown, p, t);
      ReplaySummary(threshold, cooldown, p, t);
    case _ =>
  }

  predicate OnlyAsks(h: History)
  {
    h.Then? ==> h.event.Ask? && OnlyAsks(h.before)
  }
}
