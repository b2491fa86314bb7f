/** Batch submission: one batch handler among any other dispatches, uploads, probes and registrations. */
module Batch {
  import opened Common
  import Registry
  import opened DispatchLoop
  import DR = DispatchRuns

  const BATCH_LIMIT := 100

  /** A batch item: does its input decode, does its inline module (if any) decode, and which module it names. */
  datatype Item = Item(inputDecodes: bool, inlineDecodes: Option<bool>, name: Option<string>, version: Option<string>)

  /** Why `resolve_task_inputs` refuses an item. */
  datatype Fault = BadInput | UnknownModule | NoModule | BadModule

  /** The first check that fails: the input, then the named module or, without a full name, the inline one. */
  function FaultOf(keys: set<string>, item: Item): Option<Fault>
  {
    if !item.inputDecodes then Some(BadInput)
    else if item.name.Some? && item.version.Some? then
      if Registry.Key(item.name.value, item.version.value) in keys then None else Some(UnknownModule)
    else
      match item.inlineDecodes
      case None => Some(NoModule)
      case Some(decodes) => if decodes then None else Some(BadModule)
  }

  predicate Resolves(keys: set<string>, item: Item)
  {
    FaultOf(keys, item) == None
  }

  datatype Phase =
    | Spawning
    | Joining
    | Answered(ids: seq<string>)
    | TooLarge
    | Unresolved(at: nat)

  datatype World = World(w: DR.World, keys: set<string>, items: seq<Item>, spawned: seq<string>, phase: Phase)

  datatype Event =
    | Elsewhere(e: DR.Event)
    | Uploaded(name: string, version: string)
    | TakeItem(id: string)
    | RefuseItem
    | Join

  type BatchRun = Run<Event>

  function Arrival(items: seq<Item>): Phase
  {
    if items == [] then Answered([]) else if |items| > BATCH_LIMIT then TooLarge else Spawning
  }

  function Genesis(strategy: string, items: seq<Item>): World
  {
    World(DR.Genesis(strategy), {}, items, [], Arrival(items))
  }

  ghost predicate Enabled(b: World, ev: Event)
  {
    match ev
    case Elsewhere(e) => DR.Enabled(b.w, e)
    case Uploaded(n, v) => Registry.Key(n, v) !in b.keys
    case TakeItem(id) =>
      b.phase.Spawning? && |b.spawned| < |b.items| && Resolves(b.keys, b.items[|b.spawned|]) && id !in b.w.runs
    case RefuseItem =>
      b.phase.Spawning? && |b.spawned| < |b.items| && !Resolves(b.keys, b.items[|b.spawned|])
    case Join => b.phase.Joining? && forall id | id in b.spawned :: id in b.w.runs && b.w.runs[id].pc.Done?
  }

  function Next(b: World, ev: Event): World
  {
    match ev
    case Elsewhere(e) => b.(w := DR.Next(b.w, e))
    case Uploaded(n, v) => b.(keys := b.keys + {Registry.Key(n, v)})
    case TakeItem(id) =>
      var spawned := b.spawned + [id];
      b.(w := DR.Next(b.w, DR.Spawned(id)), spawned := spawned, phase := if |spawned| == |b.items| then Joining else Spawning)
    case RefuseItem => b.(phase := Unresolved(|b.spawned|))
    case Join => b.(phase := Answered(b.spawned))
  }

  function At(strategy: string, items: seq<Item>, r: BatchRun): World
  {
    match r
    case Start => Genesis(strategy, items)
    case Then(p, e) => Next(At(strategy, items, p), e)
  }

  ghost predicate Possible(strategy: string, items: seq<Item>, r: BatchRun)
  {
    r.Then? ==> Possible(strategy, items, r.before) && Enabled(At(strategy, items, r.before), r.event)
  }

  // --- The dispatches underneath ------------------------------------------------------------

  function Inner(r: BatchRun): DR.Interleaving
  {
    match r
    case Start => Start
    case Then(p, Elsewhere(e)) => Then(Inner(p), e)
    case Then(p, TakeItem(id)) => Then(Inner(p), DR.Spawned(id))
    case Then(p, _) => Inner(p)
  }

  lemma {:induction false} RefinesInterleaving(strategy: string, items: seq<Item>, r: BatchRun)
    requires Possible(strategy, items, r)
    ensures DR.Possible(strategy, Inner(r)) && DR.At(strategy, Inner(r)) == At(strategy, items, r).w
  {
    if r.Then? { RefinesInterleaving(strategy, items, r.before); }
  }

  // --- The batch ----------------------------------------------------------------------------

  ghost predicate AllStored(w: DR.World, ids: seq<string>)
  {
    forall i | 0 <= i < |ids| :: ids[i] in w.state.tasks
  }

  ghost predicate Orderly(b: World)
  {
    && |b.spawned| <= |b.items|
    && Distinct(b.spawned)
    && (forall i | 0 <= i < |b.spawned| :: b.spawned[i] in b.w.runs)
    && match b.phase
       case Spawning => |b.spawned| < |b.items| <= 100
       case Joining => |b.spawned| == |b.items| <= 100
       case Answered(ids) => ids == b.spawned && |ids| == |b.items| <= 100 && AllStored(b.w, ids)
       case TooLarge => b.spawned == [] && |b.items| > 100
       case Unresolved(i) => |b.spawned| == i < |b.items| <= 100
  }

  lemma RunsNeverLeave(w: DR.World, e: DR.Event, id: string)
    ensures id in w.runs ==> id in DR.Next(w, e).runs
  {
  }

  lemma StepOrderly(b: World, ev: Event)
    requires Orderly(b) && Enabled(b, ev) && b.w.state.table.Valid() && DR.ResultsMatch(b.w)
    ensures Orderly(Next(b, ev))
  {
    match ev {
      case Elsewhere(e) =>
        forall id { RunsNeverLeave(b.w, e, id); }
        DR.StepResults(b.w, e);
      case _ =>
    }
  }

  /** In every run: the ids of a reply match the items in number and order, are distinct, and each already has a stored
      result; a batch that fails to resolve item i has spawned exactly the first i items; an oversized batch spawns none. */
  lemma {:induction false} BatchOutcome(strategy: string, items: seq<Item>, r: BatchRun)
    requires Possible(strategy, items, r)
    ensures Orderly(At(strategy, items, r)) && At(strategy, items, r).items == items
  {
    if r.Then? {
      BatchOutcome(strategy, items, r.before);
      RefinesInterleaving(strategy, items, r.before);
      DR.TableAlwaysValid(strategy, Inner(r.before));
      DR.Conservation(strategy, Inner(r.before));
      StepOrderly(At(strategy, items, r.before), r.event);
    }
  }

  /** The ids spawned for the batch, read off the run: the k-th was spawned when item k resolved. */
  function Taken(r: BatchRun): seq<string>
  {
    match r
    case Start => []
    case Then(p, TakeItem(id)) => Taken(p) + [id]
    case Then(p, _) => Taken(p)
  }

  /** Some upload in the run was made under this key. */
  predicate UploadedIn(r: BatchRun, key: string)
  {
    r.Then? && (UploadedIn(r.before, key) || (r.event.Uploaded? && Registry.Key(r.event.name, r.event.version) == key))
  }

  lemma {:induction false} KeysAreUploads(strategy: string, items: seq<Item>, r: BatchRun, key: string)
    ensures key in At(strategy, items, r).keys <==> UploadedIn(r, key)
  {
    if r.Then? { KeysAreUploads(strategy, items, r.before, key); }
  }

  /** The item can be dispatched: its input decodes, and it names a pair already uploaded or, short of a full name, carries
      inline bytes that decode. */
  predicate Acceptable(r: BatchRun, item: Item)
  {
    && item.inputDecodes
    && (item.name.Some? && item.version.Some? ==> UploadedIn(r, item.name.value + ":" + item.version.value))
    && (item.name.None? || item.version.None? ==> item.inlineDecodes == Some(true))
  }

  /** Every item before the first unacceptable one was acceptable when its turn came, in order, and that one was not. */
  ghost predicate ItemsTakenInOrder(items: seq<Item>, r: BatchRun)
  {
    r.Then? ==>
      && ItemsTakenInOrder(items, r.before)
      && (r.event.TakeItem? || r.event.RefuseItem? ==>
            var k := |Taken(r.before)|;
            k < |items| && (r.event.TakeItem? <==> Acceptable(r.before, items[k])))
  }

  lemma ResolvesIsAcceptable(strategy: string, items: seq<Item>, r: BatchRun, item: Item)
    ensures Resolves(At(strategy, items, r).keys, item) <==> Acceptable(r, item)
  {
    if item.name.Some? && item.version.Some? {
      var key := item.name.value + ":" + item.version.value;
      assert Registry.Key(item.name.value, item.version.value) == key;
      KeysAreUploads(strategy, items, r, key);
    }
  }

  lemma {:induction false} SpawnsFollowItems(strategy: string, items: seq<Item>, r: BatchRun)
    requires Possible(strategy, items, r)
    ensures Taken(r) == At(strategy, items, r).spawned && ItemsTakenInOrder(items, r)
  {
    if r.Then? {
      SpawnsFollowItems(strategy, items, r.before);
      BatchOutcome(strategy, items, r.before);
      if r.event.TakeItem? || r.event.RefuseItem? {
        ResolvesIsAcceptable(strategy, items, r.before, items[|Taken(r.before)|]);
      }
    }
  }

  /** Exactly which items are refused, and with what. */
  lemma FaultsExactly(keys: set<string>, item: Item)
    ensures var named := item.name.Some? && item.version.Some?;
      var known := named && item.name.value + ":" + item.version.value in keys;
      && (FaultOf(keys, item) == Some(BadInput) <==> !item.inputDecodes)
      && (FaultOf(keys, item) == Some(UnknownModule) <==> item.inputDecodes && named && !known)
      && (FaultOf(keys, item) == Some(NoModule) <==> item.inputDecodes && !named && item.inlineDecodes == None)
      && (FaultOf(keys, item) == Some(BadModule) <==> item.inputDecodes && !named && item.inlineDecodes == Some(false))
      && (FaultOf(keys, item) == None <==>
            item.inputDecodes && if named then known else item.inlineDecodes == Some(true))
  {
  }

  lemma LiftStep(strategy: string, items: seq<Item>, r: BatchRun, e: DR.Event)
    requires Possible(strategy, items, r) && DR.Possible(strategy, Then(Inner(r), e))
    requires DR.At(strategy, Inner(r)) == At(strategy, items, r).w
    ensures Possible(strategy, items, Then(r, Elsewhere(e)))
    ensures Inner(Then(r, Elsewhere(e))) == Then(Inner(r), e)
    ensures At(strategy, items, Then(r, Elsewhere(e))).w == DR.At(strategy, Then(Inner(r), e))
  {
  }

  /** Whatever the dispatches can go on to do, they can do under the batch. */
  lemma {:induction false} LiftRun(strategy: string, items: seq<Item>, r: BatchRun, inner: DR.Interleaving)
    requires Possible(strategy, items, r) && DR.Possible(strategy, inner) && Extends(Inner(r), inner)
    ensures exists later :: Possible(strategy, items, later) && Extends(r, later) && Inner(later) == inner
    decreases inner
  {
    if inner == Inner(r) {
      assert Extends(r, r);
    } else {
      LiftRun(strategy, items, r, inner.before);
      var later :| Possible(strategy, items, later) && Extends(r, later) && Inner(later) == inner.before;
      RefinesInterleaving(strategy, items, later);
      LiftStep(strategy, items, later, inner.event);
      assert Extends(r, Then(later, Elsewhere(inner.event)));
    }
  }

  /** However the batch ended, every item it spawned can still be brought to its one stored result. */
  lemma {:induction false} SpawnedItemsFinish(strategy: string, items: seq<Item>, r: BatchRun, id: string)
    requires Possible(strategy, items, r) && id in At(strategy, items, r).spawned
    ensures exists later ::
      Possible(strategy, items, later) && Extends(r, later) && DR.HasResult(At(strategy, items, later).w, id)
  {
    BatchOutcome(strategy, items, r);
    RefinesInterleaving(strategy, items, r);
    DR.Completes(strategy, Inner(r), id);
    var inner :| DR.Possible(strategy, inner) && Extends(Inner(r), inner) && DR.HasResult(DR.At(strategy, inner), id);
    LiftRun(strategy, items, r, inner);
    var later :| Possible(strategy, items, later) && Extends(r, later) && Inner(later) == inner;
    RefinesInterleaving(strategy, items, later);
  }

  // --- The handler's own loop ---------------------------------------------------------------

  datatype Refusal = BatchTooLarge | ItemUnresolved(at: nat, fault: Fault)

  /** `keysAt(i)` is the registry when item i is resolved, `uuid(i)` its fresh id, `join` the dispatch's return. */
  method SubmitTasksBatch(items: seq<Item>, keysAt: nat -> set<string>, uuid: nat -> string, join: string -> Option<string>)
    returns (reply: Result<seq<string>, Refusal>, spawned: seq<string>)
    ensures |spawned| <= |items| && forall i | 0 <= i < |spawned| :: spawned[i] == uuid(i) && Resolves(keysAt(i), items[i])
    ensures reply.Ok? <==> |items| <= 100 && |spawned| == |items|
    ensures reply.Ok? ==>
      && |reply.value| == |items|
      && forall i | 0 <= i < |items| :: reply.value[i] == match join(uuid(i)) case Some(id) => id case None => "error"
    ensures reply.Err? ==>
      if |items| > 100 then reply.error == BatchTooLarge && spawned == []
      else
        && |spawned| < |items|
        && FaultOf(keysAt(|spawned|), items[|spawned|]).Some?
        && reply.error == ItemUnresolved(|spawned|, FaultOf(keysAt(|spawned|), items[|spawned|]).value)
  {
    spawned := [];
    if items == [] {
      return Ok([]), [];
    }
    if |items| > BATCH_LIMIT {
      return Err(BatchTooLarge), [];
    }
    for i := 0 to |items|
      invariant |spawned| == i
      invariant forall j | 0 <= j < i :: spawned[j] == uuid(j) && Resolves(keysAt(j), items[j])
    {
      var fault := FaultOf(keysAt(i), items[i]);
      if fault.Some? {
        return Err(ItemUnresolved(i, fault.value)), spawned;
      }
      spawned := spawned + [uuid(i)];
    }
    var ids: seq<string> := [];
    for i := 0 to |spawned|
      invariant |ids| == i
      invariant forall j | 0 <= j < i :: ids[j] == match join(uuid(j)) case Some(id) => id case None => "error"
    {
      var id := match join(spawned[i]) case Some(id) => id case None => "error";
      ids := ids + [id];
    }
    reply := Ok(ids);
  }
}
