/** One trace that meets every bound of `DispatchLoop` exactly. */
module TightBounds {
  import opened Common
  import opened DispatchLoop

  ghost predicate Ends(t: Trace, d: Dispatch, n: nat)
  {
    Valid(t) && State(t) == d && Steps(t) == n
  }

  /** Some trace of n steps leads to `d`. */
  ghost predicate Reaches(d: Dispatch, n: nat)
  {
    exists t :: Ends(t, d, n)
  }

  lemma Step(d: Dispatch, d': Dispatch, n: nat, i: Input)
    requires Reaches(d, n) && Accepts(d, i) && d' == Advance(d, i)
    ensures Reaches(d', n + 1)
  {
    var t :| Ends(t, d, n);
    assert Ends(Then(t, i), d', n + 1);
  }

  lemma QueueRound(d: Dispatch, d': Dispatch, n: nat)
    requires Reaches(d, n) && d.pc.Choosing? && d.noNodeCount < MAX_QUEUE_WAITS && d' == d.(noNodeCount := d.noNodeCount + 1)
    ensures Reaches(d', n + 4)
  {
    Step(d, d'.(pc := Enqueueing), n, Chose(None));
    Step(d'.(pc := Enqueueing), d'.(pc := Waiting), n + 1, Go);
    Step(d'.(pc := Waiting), d'.(pc := Dequeueing), n + 2, Go);
    Step(d'.(pc := Dequeueing), d', n + 3, Go);
  }

  lemma {:induction false} QueueRounds(d: Dispatch, n: nat, k: nat)
    requires Reaches(d, n) && d.pc.Choosing? && d.noNodeCount + k <= MAX_QUEUE_WAITS
    ensures Reaches(d.(noNodeCount := d.noNodeCount + k), n + 4 * k)
  {
    if k > 0 {
      QueueRounds(d, n, k - 1);
      QueueRound(d.(noNodeCount := d.noNodeCount + k - 1), d.(noNodeCount := d.noNodeCount + k), n + 4 * (k - 1));
    }
  }

  /** After an error, a capacity round also counts a retry. */
  lemma CapacityRound(d: Dispatch, d': Dispatch, n: nat, node: string)
    requires Reaches(d, n) && d.pc.Choosing? && d.capacityWaits < MAX_CAPACITY_WAITS && d.errorRetries > 0 && node !in d.tried
    requires d' == d.(capacityWaits := d.capacityWaits + 1)
    ensures Reaches(d', n + 4)
  {
    Step(d, d.(pc := CountingRetry(node)), n, Chose(Some(node)));
    Step(d.(pc := CountingRetry(node)), d.(pc := Calling(node)), n + 1, Go);
    Step(d.(pc := Calling(node)), d'.(pc := Yielding), n + 2, Replied(AtCapacity));
    Step(d'.(pc := Yielding), d', n + 3, Go);
  }

  lemma {:induction false} CapacityRounds(d: Dispatch, n: nat, k: nat, node: string)
    requires Reaches(d, n) && d.pc.Choosing? && d.capacityWaits + k <= MAX_CAPACITY_WAITS
    requires d.errorRetries > 0 && node !in d.tried
    ensures Reaches(d.(capacityWaits := d.capacityWaits + k), n + 4 * k)
  {
    if k > 0 {
      CapacityRounds(d, n, k - 1, node);
      CapacityRound(d.(capacityWaits := d.capacityWaits + k - 1), d.(capacityWaits := d.capacityWaits + k), n + 4 * (k - 1), node);
    }
  }

  /** A pick, a counted retry after the first error, a failed call and its report. */
  lemma FailedCall(d: Dispatch, d': Dispatch, n: nat, node: string)
    requires Reaches(d, n) && d.pc.Choosing? && d.errorRetries < MAX_ATTEMPTS && node !in d.tried
    requires var e := d.(tried := d.tried + {node}, errorRetries := d.errorRetries + 1, lastError := "");
      d' == e.(pc := if e.errorRetries >= MAX_ATTEMPTS then StoringFailure else BackingOff)
    ensures Reaches(d', n + 3 + Bit(d.errorRetries > 0))
  {
    var calling, failed := d.(pc := Calling(node)), d.(pc := RecordingFailure(node), tried := d.tried + {node}, lastError := "");
    var m := n + 1 + Bit(d.errorRetries > 0);
    if d.errorRetries > 0 {
      Step(d, d.(pc := CountingRetry(node)), n, Chose(Some(node)));
      Step(d.(pc := CountingRetry(node)), calling, n + 1, Go);
    } else {
      Step(d, calling, n, Chose(Some(node)));
    }
    Step(calling, failed, m, Replied(ExecutionFailed("")));
    Step(failed, d', m + 1, Go);
  }

  /** One error, then every wait there is. */
  lemma AllWaits(d: Dispatch)
    requires d == Dispatch(Choosing, {"a"}, "", MAX_QUEUE_WAITS, MAX_CAPACITY_WAITS, 1)
    ensures Reaches(d, 137)
  {
    var first, second := Dispatch(Choosing, {}, "", 0, 0, 0), Dispatch(Choosing, {"a"}, "", 0, 0, 1);
    assert Ends(Start, Initial(), 0);
    Step(Initial(), first, 0, Go);
    FailedCall(first, second.(pc := BackingOff), 1, "a");
    Step(second.(pc := BackingOff), second, 4, Go);
    CapacityRounds(second, 5, MAX_CAPACITY_WAITS, "b");
    QueueRounds(second.(capacityWaits := MAX_CAPACITY_WAITS), 125, MAX_QUEUE_WAITS);
  }

  lemma SecondError(d: Dispatch)
    requires d == Dispatch(Choosing, {"a", "b"}, "", MAX_QUEUE_WAITS, MAX_CAPACITY_WAITS, 2)
    ensures Reaches(d, 142)
  {
    var first := d.(tried := {"a"}, errorRetries := 1);
    AllWaits(first);
    FailedCall(first, d.(pc := BackingOff), 137, "b");
    Step(d.(pc := BackingOff), d, 141, Go);
  }

  lemma LastError(d: Dispatch)
    requires d == Dispatch(Done(false), {"a", "b", "c"}, "", MAX_QUEUE_WAITS, MAX_CAPACITY_WAITS, MAX_ATTEMPTS)
    ensures Reaches(d, MAX_STEPS)
  {
    var second := d.(pc := Choosing, tried := {"a", "b"}, errorRetries := 2);
    SecondError(second);
    FailedCall(second, d.(pc := StoringFailure), 142, "c");
    Step(d.(pc := StoringFailure), d, 146, Go);
  }

  /** Some environment drives a dispatch to all four bounds at once, so none of them can be lowered. Its three waits in
      the queue are possible when the decrement is one atomic step. */
  lemma BoundsAttained() returns (t: Trace)
    ensures Valid(t)
    ensures Rpcs(t) == MAX_RPCS && Selections(t) == MAX_SELECTIONS && Slept(t) == MAX_SLEEP_MS && Steps(t) == MAX_STEPS
  {
    var d := Dispatch(Done(false), {"a", "b", "c"}, "", MAX_QUEUE_WAITS, MAX_CAPACITY_WAITS, MAX_ATTEMPTS);
    LastError(d);
    t :| Ends(t, d, MAX_STEPS);
    LocalsAreTallies(t);
  }
}
