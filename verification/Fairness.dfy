/** Round-robin fairness over any stretch of an interleaved run. */
module Fairness {
  import opened Common
  import opened Scheduling
  import opened DispatchLoop
  import opened ControlPlane
  import opened DispatchRuns

  // --- Counting residues --------------------------------------------------------------------

  lemma MulAtLeast(d: int, n: nat)
    requires d >= 1
    ensures d * n >= n
  {
  }

  lemma Distribute(a: int, b: int, n: int)
    ensures (a + b) * n == a * n + b * n
  {
  }

  lemma QuotientUnique(a: nat, n: nat, q: nat, s: nat)
    requires n > 0 && a == q * n + s && s < n
    ensures a / n == q && a % n == s
  {
    var d := a / n - q;
    Distribute(q, d, n);
    if d >= 1 { MulAtLeast(d, n); }
    if d <= -1 {
      MulAtLeast(-d, n);
      Distribute(d, -d, n);
    }
  }

  /** How many y below x leave remainder k. */
  function Below(x: nat, n: nat, k: nat): nat
    requires k < n
  {
    (x + n - 1 - k) / n
  }

  lemma BelowStep(x: nat, n: nat, k: nat)
    requires k < n
    ensures Below(x + 1, n, k) == Below(x, n, k) + Bit(x % n == k)
  {
    var q, s := x / n, x % n;
    assert x == q * n + s;
    if s > k {
      Distribute(q, 1, n);
      QuotientUnique(x + n - 1 - k, n, q + 1, s - 1 - k);
      QuotientUnique(x + n - k, n, q + 1, s - k);
    } else if s == k {
      Distribute(q, 1, n);
      QuotientUnique(x + n - 1 - k, n, q, n - 1);
      QuotientUnique(x + n - k, n, q + 1, 0);
    } else {
      QuotientUnique(x + n - 1 - k, n, q, s + n - 1 - k);
      QuotientUnique(x + n - k, n, q, s + n - k);
    }
  }

  lemma QuotientSpread(a: nat, m: nat, n: nat)
    requires n > 0
    ensures (a + m) / n == a / n + m / n + Bit(a % n + m % n >= n)
  {
    var q, s, p, t := a / n, a % n, m / n, m % n;
    assert a + m == (q + p) * n + (s + t) by { Distribute(q, p, n); }
    if s + t < n {
      QuotientUnique(a + m, n, q + p, s + t);
    } else {
      Distribute(q + p, 1, n);
      QuotientUnique(a + m, n, q + p + 1, s + t - n);
    }
  }

  lemma Ceiling(m: nat, n: nat)
    requires n > 0
    ensures (m + n - 1) / n == m / n + Bit(m % n != 0)
  {
    QuotientUnique(n - 1, n, 0, n - 1);
    QuotientSpread(n - 1, m, n);
  }

  lemma BelowSpread(c: nat, m: nat, n: nat, k: nat)
    requires k < n
    ensures m / n <= Below(c + m, n, k) - Below(c, n, k) <= (m + n - 1) / n
  {
    QuotientSpread(c + n - 1 - k, m, n);
    Ceiling(m, n);
  }

  // --- Turns of a wrapping cursor -----------------------------------------------------------

  /** Where the cursor stands m turns after c. */
  function Ring(c: Usize, m: nat): Usize
  {
    if m == 0 then c else Bump(Ring(c, m - 1))
  }

  lemma NextResidue(x: nat, n: nat)
    requires n > 0
    ensures (x + 1) % n == if x % n + 1 == n then 0 else x % n + 1
  {
    var q, s := x / n, x % n;
    Distribute(q, 1, n);
    if s + 1 == n { QuotientUnique(x + 1, n, q + 1, 0); } else { QuotientUnique(x + 1, n, q, s + 1); }
  }

  lemma {:induction false} RingWraps(c: Usize, m: nat)
    ensures Ring(c, m) == (c + m) % USIZE
  {
    if m == 0 {
      QuotientUnique(c, USIZE, 0, c);
    } else {
      RingWraps(c, m - 1);
      NextResidue(c + m - 1, USIZE);
    }
  }

  /** How often candidate k of n is pointed at by m consecutive cursor positions from c. */
  function Turns(c: Usize, n: nat, k: nat, m: nat): nat
    requires n > 0
  {
    if m == 0 then 0 else Turns(c, n, k, m - 1) + Bit(Ring(c, m - 1) % n == k)
  }

  lemma Associate(a: nat, b: nat, n: nat)
    ensures a * b >= 0 && a * b * n == a * (b * n)
  {
  }

  lemma ResidueOfResidue(x: nat, big: nat, n: nat)
    requires n > 0 && big > 0 && big % n == 0
    ensures x % big % n == x % n
  {
    var q, s, d := x / big, x % big, big / n;
    Associate(q, d, n);
    Distribute(q * d, s / n, n);
    QuotientUnique(x, n, q * d + s / n, s % n);
  }

  lemma WrapKeepsResidue(c: Usize, m: nat, n: nat)
    requires n > 0 && (c + m < USIZE || USIZE % n == 0)
    ensures Ring(c, m) % n == (c + m) % n
  {
    RingWraps(c, m);
    if c + m < USIZE { QuotientUnique(c + m, USIZE, 0, c + m); } else { ResidueOfResidue(c + m, USIZE, n); }
  }

  lemma {:induction false} TurnsAreBelow(c: Usize, n: nat, k: nat, m: nat)
    requires k < n && (c + m <= USIZE || USIZE % n == 0)
    ensures Turns(c, n, k, m) == Below(c + m, n, k) - Below(c, n, k)
  {
    if m > 0 {
      TurnsAreBelow(c, n, k, m - 1);
      WrapKeepsResidue(c, m - 1, n);
      BelowStep(c + m - 1, n, k);
    }
  }

  predicate FairShare(share: nat, m: nat, n: nat)
    requires n > 0
  {
    m / n <= share <= (m + n - 1) / n
  }

  /** Every candidate gets between floor(m/n) and ceil(m/n) of m consecutive turns, unless the cursor wraps at
      a modulus the candidates do not divide. */
  lemma TurnsFair(c: Usize, n: nat, k: nat, m: nat)
    requires k < n && (c + m <= USIZE || USIZE % n == 0)
    ensures FairShare(Turns(c, n, k, m), m, n)
  {
    TurnsAreBelow(c, n, k, m);
    BelowSpread(c, m, n, k);
  }

  lemma {:induction false} TurnsGrow(c: Usize, n: nat, k: nat, m: nat)
    requires n > 0 && m > 0
    ensures Turns(c, n, k, m) >= Bit(c % n == k)
  {
    if m > 1 { TurnsGrow(c, n, k, m - 1); }
  }

  /** When the candidates do not divide the word, a stretch starting at the last position before the wrap gives
      one of them a second turn before every other has had one. */
  lemma {:induction false} WrapIsUnfair(n: nat) returns (k: nat, m: nat)
    requires n > 0 && USIZE % n != 0
    ensures k < n && !FairShare(Turns(USIZE - 1, n, k, m), m, n)
  {
    var q, s := USIZE / n, USIZE % n;
    k, m := s - 1, s + 1;
    QuotientUnique(USIZE - 1, n, q, s - 1);
    TurnsGrow(USIZE - 1, n, k, s);
    RingWraps(USIZE - 1, s);
    QuotientUnique(USIZE - 1 + s, USIZE, 1, s - 1);
    QuotientUnique(s - 1, n, 0, s - 1);
    QuotientUnique(s + n, n, 1, s);
  }

  /** Rotation over n candidates is fair on every stretch, the wrap included, exactly when n divides the word size. */
  lemma FairAcrossWrap(n: nat)
    requires n > 0
    ensures (forall c: Usize, k: nat, m: nat | k < n :: FairShare(Turns(c, n, k, m), m, n)) <==> USIZE % n == 0
  {
    if USIZE % n == 0 {
      forall c: Usize, k: nat, m: nat | k < n
        ensures FairShare(Turns(c, n, k, m), m, n)
      {
        TurnsFair(c, n, k, m);
      }
    } else {
      var k, m := WrapIsUnfair(n);
    }
  }

  // --- The interleaved run ------------------------------------------------------------------

  function Ids(ns: seq<NodeInfo>): (ids: seq<string>)
    ensures |ids| == |ns| && forall i | 0 <= i < |ns| :: ids[i] == ns[i].id
  {
    seq(|ns|, i requires 0 <= i < |ns| => ns[i].id)
  }

  /** The ids of the candidate list a selection event saw, in order. */
  function CandidatesSeen(w: World, e: Event): seq<string>
    requires e.Chosen? && e.id in w.runs
  {
    var exclude := w.runs[e.id].tried + Blocked(w.state.breakers, w.clock);
    Ids(Candidates(w.state.table.nodes, w.state.table.order, exclude, false))
  }

  /** Every selection between the two points, by whichever dispatch, had the candidates `ids`, whatever probes did to their
      loads. */
  ghost predicate SameCandidates(strategy: string, r: Interleaving, later: Interleaving, ids: seq<string>)
    requires Extends(r, later)
  {
    r == later ||
    (&& SameCandidates(strategy, r, later.before, ids)
     && (later.event.Chosen? && later.event.id in At(strategy, later.before).runs ==>
           CandidatesSeen(At(strategy, later.before), later.event) == ids))
  }

  /** The nodes picked between the two points, in order. */
  ghost function Picks(strategy: string, r: Interleaving, later: Interleaving): seq<string>
    requires Extends(r, later)
  {
    if r == later then []
    else
      var w, e := At(strategy, later.before), later.event;
      var rest := Picks(strategy, r, later.before);
      if e.Chosen? && e.id in w.runs && InputOf(w, e).node.Some? then rest + [InputOf(w, e).node.value] else rest
  }

  /** The event picks a node. */
  ghost predicate Picked(w: World, e: Event)
  {
    e.Chosen? && e.id in w.runs && InputOf(w, e).node.Some?
  }

  /** Only a pick moves the cursor, and only under round-robin; a selection that comes back empty leaves it. */
  lemma CursorStep(w: World, e: Event)
    ensures Next(w, e).state.schedulerIndex ==
      if w.state.strategy != LEAST_LOADED && Picked(w, e) then Bump(w.state.schedulerIndex) else w.state.schedulerIndex
  {
  }

  lemma PickedFromSeen(w: World, e: Event)
    requires w.state.strategy != LEAST_LOADED && e.Chosen? && e.id in w.runs
    ensures InputOf(w, e).node ==
      if CandidatesSeen(w, e) == [] then None else Some(CandidatesSeen(w, e)[w.state.schedulerIndex % |CandidatesSeen(w, e)|])
  {
  }

  /** Over any stretch of any run, whatever the candidates were, the cursor has moved once round the ring per pick. */
  lemma {:induction false} CursorCounts(strategy: string, r: Interleaving, later: Interleaving)
    requires strategy != LEAST_LOADED && Extends(r, later)
    ensures At(strategy, later).state.schedulerIndex == Ring(At(strategy, r).state.schedulerIndex, |Picks(strategy, r, later)|)
  {
    if r != later {
      CursorCounts(strategy, r, later.before);
      StrategyFixed(strategy, later.before);
      CursorStep(At(strategy, later.before), later.event);
    }
  }

  /** The nodes picked in the run, in order. */
  ghost function AllPicks(strategy: string, r: Interleaving): seq<string>
  {
    ExtendsStart(r);
    Picks(strategy, Start, r)
  }

  /** In every run the round-robin cursor is the number of nodes picked so far, cut to 64 bits; empty selections do not
      count. Under least-loaded it never moves. */
  lemma {:induction false} CursorIsPicks(strategy: string, r: Interleaving)
    ensures At(strategy, r).state.schedulerIndex ==
      if strategy == "least_loaded" then 0 else |AllPicks(strategy, r)| % 0x1_0000_0000_0000_0000
  {
    if strategy == LEAST_LOADED {
      CursorStandsStill(r);
    } else {
      ExtendsStart(r);
      CursorCounts(strategy, Start, r);
      RingWraps(0, |AllPicks(strategy, r)|);
    }
  }

  lemma {:induction false} CursorStandsStill(r: Interleaving)
    ensures At(LEAST_LOADED, r).state.schedulerIndex == 0
  {
    if r.Then? {
      CursorStandsStill(r.before);
      StrategyFixed(LEAST_LOADED, r.before);
      CursorStep(At(LEAST_LOADED, r.before), r.event);
    }
  }

  ghost predicate Walks(picks: seq<string>, c: Usize, ids: seq<string>)
    requires ids != []
  {
    forall i | 0 <= i < |picks| :: picks[i] == ids[Ring(c, i) % |ids|]
  }

  lemma WalkOn(picks: seq<string>, c: Usize, ids: seq<string>, n: string)
    requires ids != [] && Walks(picks, c, ids) && n == ids[Ring(c, |picks|) % |ids|]
    ensures Walks(picks + [n], c, ids)
  {
  }

  /** The picks of the stretch walk the candidates from where the cursor stood. */
  lemma {:induction false} PicksFollowCursor(strategy: string, r: Interleaving, later: Interleaving, ids: seq<string>)
    requires strategy != LEAST_LOADED && Possible(strategy, later) && Extends(r, later)
    requires ids != [] && SameCandidates(strategy, r, later, ids)
    ensures Walks(Picks(strategy, r, later), At(strategy, r).state.schedulerIndex, ids)
  {
    if r != later {
      PicksFollowCursor(strategy, r, later.before, ids);
      var w, e := At(strategy, later.before), later.event;
      if e.Chosen? {
        CursorCounts(strategy, r, later.before);
        StrategyFixed(strategy, later.before);
        PickedFromSeen(w, e);
        WalkOn(Picks(strategy, r, later.before), At(strategy, r).state.schedulerIndex, ids, InputOf(w, e).node.value);
      }
    }
  }

  /** A candidate list never holds a node twice. */
  lemma {:induction false} CandidatesApart(t: Table, order: seq<string>, exclude: set<string>)
    requires forall k | k in t.nodes :: t.nodes[k].id == k
    requires Distinct(order)
    ensures Distinct(Ids(Candidates(t.nodes, order, exclude, false)))
  {
    if order != [] {
      CandidatesApart(t, order[1..], exclude);
      forall n | n in Candidates(t.nodes, order[1..], exclude, false)
        ensures n.id != order[0]
      {
        CandidatesExact(t.nodes, order[1..], exclude, false, n);
      }
    }
  }

  lemma {:induction false} SeenCandidatesApart(strategy: string, r: Interleaving, later: Interleaving, ids: seq<string>)
    requires Possible(strategy, later) && Extends(r, later) && SameCandidates(strategy, r, later, ids)
    requires Picks(strategy, r, later) != []
    ensures Distinct(ids)
  {
    var w, e := At(strategy, later.before), later.event;
    if e.Chosen? {
      TableAlwaysValid(strategy, later.before);
      CandidatesApart(w.state.table, w.state.table.order, w.runs[e.id].tried + Blocked(w.state.breakers, w.clock));
    } else {
      SeenCandidatesApart(strategy, r, later.before, ids);
    }
  }

  function Occurrences(picks: seq<string>, node: string): nat
  {
    if picks == [] then 0 else Occurrences(picks[..|picks| - 1], node) + Bit(picks[|picks| - 1] == node)
  }

  lemma {:induction false} OccurrencesAreTurns(picks: seq<string>, c: Usize, ids: seq<string>, k: nat)
    requires k < |ids| && Distinct(ids) && Walks(picks, c, ids)
    ensures Occurrences(picks, ids[k]) == Turns(c, |ids|, k, |picks|)
  {
    if picks != [] { OccurrencesAreTurns(picks[..|picks| - 1], c, ids, k); }
  }

  lemma WalksAreFair(picks: seq<string>, c: Usize, ids: seq<string>, k: nat)
    requires k < |ids| && (picks != [] ==> Distinct(ids)) && Walks(picks, c, ids)
    requires c + |picks| <= USIZE || USIZE % |ids| == 0
    ensures FairShare(Occurrences(picks, ids[k]), |picks|, |ids|)
  {
    if picks == [] {
      Ceiling(0, |ids|);
      QuotientUnique(0, |ids|, 0, 0);
    } else {
      OccurrencesAreTurns(picks, c, ids, k);
      TurnsFair(c, |ids|, k, |picks|);
    }
  }

  /** Over any stretch of any run in which the candidates are unchanged, whatever probes did to their loads, each is picked
      its fair share of times, whichever dispatches asked. */
  lemma {:induction false} RoundRobinFair(strategy: string, r: Interleaving, later: Interleaving, ids: seq<string>, k: nat)
    requires strategy != LEAST_LOADED && Possible(strategy, later) && Extends(r, later)
    requires k < |ids| && SameCandidates(strategy, r, later, ids)
    requires At(strategy, r).state.schedulerIndex + |Picks(strategy, r, later)| <= USIZE || USIZE % |ids| == 0
    ensures var picks := Picks(strategy, r, later);
      FairShare(Occurrences(picks, ids[k]), |picks|, |ids|)
  {
    PicksFollowCursor(strategy, r, later, ids);
    if Picks(strategy, r, later) != [] { SeenCandidatesApart(strategy, r, later, ids); }
    WalksAreFair(Picks(strategy, r, later), At(strategy, r).state.schedulerIndex, ids, k);
  }
}
