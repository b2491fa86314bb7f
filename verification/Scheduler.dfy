/** Node selection: the round-robin helpers and the least-loaded strategy. */
module Scheduling {
  import opened Common

  datatype NodeInfo = NodeInfo(id: string, activeTasks: nat, healthy: bool, maxConcurrentTasks: nat)

  /** `usize` of the 64-bit targets; the cursor wraps here. */
  const USIZE := 0x1_0000_0000_0000_0000

  type Usize = n: nat | n < USIZE

  /** The node table: its entries, and the order in which the hash map iterates over them. */
  datatype Table = Table(nodes: map<string, NodeInfo>, order: seq<string>)
  {
    ghost predicate Valid()
    {
      && (forall k | k in nodes :: nodes[k].id == k)
      && (forall k :: k in nodes <==> k in order)
      && (forall i, j | 0 <= i < j < |order| :: order[i] != order[j])
    }
  }

  // --- Candidate lists ----------------------------------------------------------------------

  predicate Usable(n: NodeInfo, exclude: set<string>)
  {
    n.healthy && n.id !in exclude
  }

  predicate HasHeadroom(n: NodeInfo)
  {
    n.activeTasks < n.maxConcurrentTasks
  }

  /** The usable nodes in iteration order; `headroom` also demands spare capacity. */
  function Candidates(nodes: map<string, NodeInfo>, order: seq<string>, exclude: set<string>, headroom: bool): seq<NodeInfo>
  {
    if order == [] then []
    else
      var rest := Candidates(nodes, order[1..], exclude, headroom);
      if order[0] in nodes && Usable(nodes[order[0]], exclude) && (headroom ==> HasHeadroom(nodes[order[0]]))
      then [nodes[order[0]]] + rest
      else rest
  }

  /** A candidate list holds exactly the registered nodes that pass the filter. */
  lemma {:induction false} CandidatesExact(nodes: map<string, NodeInfo>, order: seq<string>, exclude: set<string>, headroom: bool, n: NodeInfo)
    ensures n in Candidates(nodes, order, exclude, headroom) <==>
      exists k :: k in order && k in nodes && nodes[k] == n && Usable(n, exclude) && (headroom ==> HasHeadroom(n))
  {
    if order != [] {
      CandidatesExact(nodes, order[1..], exclude, headroom, n);
      assert order == [order[0]] + order[1..];
    }
  }

  // --- Least loaded -------------------------------------------------------------------------

  function MinActive(ns: seq<NodeInfo>): (m: nat)
    requires ns != []
    ensures exists i :: 0 <= i < |ns| && ns[i].activeTasks == m
    ensures forall i | 0 <= i < |ns| :: m <= ns[i].activeTasks
  {
    if |ns| == 1 then ns[0].activeTasks
    else
      var m := MinActive(ns[1..]);
      if ns[0].activeTasks <= m then ns[0].activeTasks else m
  }

  function WithActive(ns: seq<NodeInfo>, m: nat): (tied: seq<NodeInfo>)
    ensures forall n :: n in tied <==> n in ns && n.activeTasks == m
  {
    if ns == [] then []
    else if ns[0].activeTasks == m then [ns[0]] + WithActive(ns[1..], m)
    else WithActive(ns[1..], m)
  }

  /** `seed` stands for the sub-second clock that breaks ties. */
  function SelectLeastLoaded(t: Table, exclude: set<string>, seed: nat): Option<NodeInfo>
  {
    var available := Candidates(t.nodes, t.order, exclude, true);
    if available == [] then None
    else
      var tied := WithActive(available, MinActive(available));
      assert tied != [] by {
        var i :| 0 <= i < |available| && available[i].activeTasks == MinActive(available);
        assert available[i] in tied;
      }
      if |tied| == 1 then Some(tied[0]) else Some(tied[seed % |tied|])
  }

  // --- Round robin --------------------------------------------------------------------------

  function PickAt(ns: seq<NodeInfo>, index: nat): Option<NodeInfo>
  {
    if ns == [] then None else Some(ns[index % |ns|])
  }

  /** `usize::wrapping_add(1)`. */
  function Bump(index: Usize): Usize
  {
    if index + 1 == USIZE then 0 else index + 1
  }

  method SelectNodeExcluded(t: Table, index: Usize, exclude: set<string>) returns (pick: Option<NodeInfo>, next: Usize)
    ensures pick == PickAt(Candidates(t.nodes, t.order, exclude, false), index)
    ensures next == if pick.Some? then Bump(index) else index
  {
    var candidates := Candidates(t.nodes, t.order, exclude, false);
    if candidates == [] {
      return None, index;
    }
    pick := Some(candidates[index % |candidates|]);
    next := Bump(index);
  }

  /** `select_node` is the helper with nothing excluded. */
  method SelectNode(t: Table, index: Usize) returns (pick: Option<NodeInfo>, next: Usize)
    requires t.Valid()
    ensures pick.None? <==> forall k | k in t.nodes :: !t.nodes[k].healthy
    ensures pick.Some? ==> pick.value.healthy && pick.value.id in t.nodes && t.nodes[pick.value.id] == pick.value
    ensures next == if pick.Some? then Bump(index) else index
  {
    pick, next := SelectNodeExcluded(t, index, {});
    PickSound(t, {}, false, index);
    assert forall k | k in t.nodes :: Eligible(t, {}, false, k) <==> t.nodes[k].healthy;
  }

  // --- Soundness and completeness of both strategies ----------------------------------------

  ghost predicate Eligible(t: Table, exclude: set<string>, headroom: bool, k: string)
  {
    k in t.nodes && t.nodes[k].healthy && k !in exclude && (headroom ==> HasHeadroom(t.nodes[k]))
  }

  lemma CandidateIsEligible(t: Table, exclude: set<string>, headroom: bool, n: NodeInfo)
    requires t.Valid()
    ensures n in Candidates(t.nodes, t.order, exclude, headroom) <==>
      Eligible(t, exclude, headroom, n.id) && t.nodes[n.id] == n
  {
    CandidatesExact(t.nodes, t.order, exclude, headroom, n);
  }

  lemma PickSound(t: Table, exclude: set<string>, headroom: bool, index: nat)
    requires t.Valid()
    ensures var ns := Candidates(t.nodes, t.order, exclude, headroom);
      && (ns == [] <==> forall k :: !Eligible(t, exclude, headroom, k))
      && (ns != [] ==> var n := ns[index % |ns|]; Eligible(t, exclude, headroom, n.id) && t.nodes[n.id] == n)
  {
    var ns := Candidates(t.nodes, t.order, exclude, headroom);
    if ns == [] {
      forall k
        ensures !Eligible(t, exclude, headroom, k)
      {
        if k in t.nodes { CandidateIsEligible(t, exclude, headroom, t.nodes[k]); }
      }
    } else {
      CandidateIsEligible(t, exclude, headroom, ns[0]);
      CandidateIsEligible(t, exclude, headroom, ns[index % |ns|]);
    }
  }

  /** Least-loaded answers an eligible node of minimum load, and answers nothing only when no node is eligible. */
  lemma LeastLoadedExact(t: Table, exclude: set<string>, seed: nat)
    requires t.Valid()
    ensures var pick := SelectLeastLoaded(t, exclude, seed);
      && (pick.None? <==> forall k :: !Eligible(t, exclude, true, k))
      && (pick.Some? ==>
            && Eligible(t, exclude, true, pick.value.id)
            && t.nodes[pick.value.id] == pick.value
            && forall k | Eligible(t, exclude, true, k) :: pick.value.activeTasks <= t.nodes[k].activeTasks)
  {
    PickSound(t, exclude, true, 0);
    var pick := SelectLeastLoaded(t, exclude, seed);
    if pick.Some? {
      var available := Candidates(t.nodes, t.order, exclude, true);
      assert pick.value in WithActive(available, MinActive(available));
      CandidateIsEligible(t, exclude, true, pick.value);
      forall k | Eligible(t, exclude, true, k)
        ensures pick.value.activeTasks <= t.nodes[k].activeTasks
      {
        CandidateIsEligible(t, exclude, true, t.nodes[k]);
      }
    }
  }

  // --- Raw loads against load ratios --------------------------------------------------------

  /** The same nodes under other loads. */
  function WithLoads(t: Table, loads: string -> nat): Table
  {
    t.(nodes := map k | k in t.nodes :: t.nodes[k].(activeTasks := loads(k)))
  }

  /** `a` is loaded no more than `b` in proportion to its limit. */
  predicate RatioAtMost(a: NodeInfo, b: NodeInfo)
  {
    a.activeTasks * b.maxConcurrentTasks <= b.activeTasks * a.maxConcurrentTasks
  }

  /** The documented policy: no healthy, admitted node has a smaller load ratio than the pick. */
  ghost predicate PicksLeastRatio(t: Table, exclude: set<string>, seed: nat)
  {
    var pick := SelectLeastLoaded(t, exclude, seed);
    pick.Some? ==> forall k | Eligible(t, exclude, false, k) :: RatioAtMost(pick.value, t.nodes[k])
  }

  /** Any two healthy, admitted nodes have equal limits, or one of them has a limit of at most 1. */
  ghost predicate LimitsComparable(t: Table, exclude: set<string>)
  {
    forall j, k | Eligible(t, exclude, false, j) && Eligible(t, exclude, false, k) ::
      var a, b := t.nodes[j].maxConcurrentTasks, t.nodes[k].maxConcurrentTasks;
      a == b || a <= 1 || b <= 1
  }

  lemma Products(a: nat, b: nat, c: nat, d: nat)
    requires a <= b && c <= d
    ensures a * c <= b * d
  {
  }

  /** A node with headroom, against a full one, or one no less loaded of a comparable limit. */
  lemma RatioPair(p: NodeInfo, n: NodeInfo)
    requires HasHeadroom(p)
    requires HasHeadroom(n) ==>
      && p.activeTasks <= n.activeTasks
      && (p.maxConcurrentTasks == n.maxConcurrentTasks || p.maxConcurrentTasks <= 1 || n.maxConcurrentTasks <= 1)
    ensures RatioAtMost(p, n)
  {
    if !HasHeadroom(n) {
      Products(p.activeTasks, p.maxConcurrentTasks, n.maxConcurrentTasks, n.activeTasks);
    } else if p.activeTasks > 0 {
      Products(p.activeTasks, n.activeTasks, n.maxConcurrentTasks, p.maxConcurrentTasks);
    }
  }

  lemma RatioAgrees(t: Table, exclude: set<string>, seed: nat)
    requires t.Valid() && LimitsComparable(t, exclude)
    ensures PicksLeastRatio(t, exclude, seed)
  {
    LeastLoadedExact(t, exclude, seed);
    var pick := SelectLeastLoaded(t, exclude, seed);
    if pick.Some? {
      assert Eligible(t, exclude, true, pick.value.id) && Eligible(t, exclude, false, pick.value.id);
      forall k | Eligible(t, exclude, false, k)
        ensures RatioAtMost(pick.value, t.nodes[k])
      {
        assert HasHeadroom(t.nodes[k]) ==> Eligible(t, exclude, true, k);
        RatioPair(pick.value, t.nodes[k]);
      }
    }
  }

  lemma SmallRemainder(i: nat, n: nat)
    requires i < n
    ensures i % n == i
  {
  }

  lemma LeastIsMin(ns: seq<NodeInfo>, n: NodeInfo)
    requires n in ns && forall m | m in ns :: n.activeTasks <= m.activeTasks
    ensures MinActive(ns) == n.activeTasks
  {
    var i :| 0 <= i < |ns| && ns[i] == n;
    assert MinActive(ns) <= ns[i].activeTasks;
  }

  /** The tie-break can fall on any candidate of least load. */
  lemma {:induction false} TieCanFallOn(t: Table, exclude: set<string>, n: NodeInfo) returns (seed: nat)
    requires var available := Candidates(t.nodes, t.order, exclude, true);
      n in available && forall m | m in available :: n.activeTasks <= m.activeTasks
    ensures SelectLeastLoaded(t, exclude, seed) == Some(n)
  {
    var available := Candidates(t.nodes, t.order, exclude, true);
    var tied := WithActive(available, MinActive(available));
    LeastIsMin(available, n);
    assert n in tied;
    seed :| 0 <= seed < |tied| && tied[seed] == n;
    SmallRemainder(seed, |tied|);
    assert tied[seed % |tied|] == n;
  }

  /** Two nodes with one task each and every other node full: the tie can go to the smaller limit. */
  lemma {:induction false} RatioFails(t: Table, exclude: set<string>, j: string, k: string) returns (loads: string -> nat, seed: nat)
    requires t.Valid() && Eligible(t, exclude, false, j) && Eligible(t, exclude, false, k)
    requires 1 < t.nodes[j].maxConcurrentTasks < t.nodes[k].maxConcurrentTasks
    ensures !PicksLeastRatio(WithLoads(t, loads), exclude, seed)
  {
    loads := (x: string) => if x == j || x == k then 1 else if x in t.nodes then t.nodes[x].maxConcurrentTasks else 0;
    var u := WithLoads(t, loads);
    CandidateIsEligible(u, exclude, true, u.nodes[j]);
    forall n | n in Candidates(u.nodes, u.order, exclude, true)
      ensures n.activeTasks == 1
    {
      CandidateIsEligible(u, exclude, true, n);
    }
    seed := TieCanFallOn(u, exclude, u.nodes[j]);
    assert Eligible(u, exclude, false, k) && !RatioAtMost(u.nodes[j], u.nodes[k]);
  }

  /** Comparing raw loads picks the least load ratio, for all loads and tie-breaks, if and only if any two candidates have
      equal limits or one limit is at most 1. */
  lemma {:induction false} LeastRatioExactly(t: Table, exclude: set<string>)
    requires t.Valid()
    ensures (forall loads: string -> nat, seed: nat :: PicksLeastRatio(WithLoads(t, loads), exclude, seed))
      <==> LimitsComparable(t, exclude)
  {
    if LimitsComparable(t, exclude) {
      forall loads: string -> nat, seed: nat
        ensures PicksLeastRatio(WithLoads(t, loads), exclude, seed)
      {
        var u := WithLoads(t, loads);
        assert forall x :: Eligible(u, exclude, false, x) <==> Eligible(t, exclude, false, x);
        RatioAgrees(u, exclude, seed);
      }
    } else {
      var j, k :| Eligible(t, exclude, false, j) && Eligible(t, exclude, false, k)
        && 1 < t.nodes[j].maxConcurrentTasks < t.nodes[k].maxConcurrentTasks;
      var loads, seed := RatioFails(t, exclude, j, k);
    }
  }

  /** The documented candidates include full nodes: the code answers none where the policy has a pick if and only if some
      node is eligible and every eligible node is full. */
  lemma {:induction false} FullNodesRefused(t: Table, exclude: set<string>, seed: nat)
    requires t.Valid()
    ensures SelectLeastLoaded(t, exclude, seed).None? && (exists k :: Eligible(t, exclude, false, k)) <==>
      (exists k :: Eligible(t, exclude, false, k)) && forall k | Eligible(t, exclude, false, k) :: !HasHeadroom(t.nodes[k])
  {
    LeastLoadedExact(t, exclude, seed);
    assert forall k :: Eligible(t, exclude, true, k) <==> Eligible(t, exclude, false, k) && HasHeadroom(t.nodes[k]);
  }
}
