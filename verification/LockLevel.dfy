/** The same interleavings one level down, where every critical section waits for the shared `RwLock`.

    `asWritten` keeps the source's queue decrement, whose statement holds a read guard while it waits
    for the write guard; otherwise the decrement takes one write guard. */
module LockLevel {
  import opened Common
  import Scheduling
  import opened DispatchLoop
  import opened ControlPlane
  import DR = DispatchRuns

  datatype Mode = Read | Write

  /** A dispatch, or any other holder: a health-check update, a registration, a reading handler. */
  datatype Actor = Task(id: string) | Other(k: nat)

  datatype Request = Request(actor: Actor, mode: Mode)

  /** The fair lock: requests are granted in arrival order. */
  datatype Lock = Lock(writer: Option<Actor>, readers: set<Actor>, queue: seq<Request>)

  datatype Level = Level(w: DR.World, lock: Lock, dialed: set<string>)

  datatype Event =
    | Free(e: DR.Event)
    | Ask(actor: Actor, mode: Mode)
    | Grant
    | Act(actor: Actor, e: DR.Event)
    | Dial(id: string)
    | Leave(k: nat)

  type LockRun = Run<Event>

  function Genesis(strategy: string): Level
  {
    Level(DR.Genesis(strategy), Lock(None, {}, []), {})
  }

  predicate Sleeping(pc: Pc)
  {
    pc.Waiting? || pc.BackingOff? || pc.Yielding?
  }

  predicate Queued(l: Lock, a: Actor)
  {
    exists i :: 0 <= i < |l.queue| && l.queue[i].actor == a
  }

  predicate Holds(l: Lock, a: Actor)
  {
    l.writer == Some(a) || a in l.readers
  }

  /** The guard a dispatch asks for next: the pool lookup before an RPC reads, everything else writes. */
  function FirstGuard(asWritten: bool, s: Level, id: string): Option<Mode>
    requires id in s.w.runs
  {
    var pc := s.w.runs[id].pc;
    if Sleeping(pc) || pc.Done? then None
    else if pc.Calling? then if id in s.dialed then None else Some(Read)
    else if pc.Dequeueing? && asWritten then Some(Read)
    else Some(Write)
  }

  predicate Compatible(l: Lock, m: Mode)
  {
    l.writer.None? && (m == Write ==> l.readers == {})
  }

  ghost predicate MayAsk(asWritten: bool, s: Level, a: Actor, m: Mode)
  {
    && !Queued(s.lock, a)
    && match a
       case Other(_) => !Holds(s.lock, a)
       case Task(id) =>
         && id in s.w.runs && DR.Awake(s.w, id)
         && if Holds(s.lock, a) then asWritten && s.w.runs[id].pc.Dequeueing? && a in s.lock.readers && m == Write
            else FirstGuard(asWritten, s, id) == Some(m)
  }

  /** What a writer may do before it releases. */
  predicate UnderWrite(a: Actor, e: DR.Event)
  {
    match a
    case Task(id) => DR.StepOf(e, id) && !e.Returned?
    case Other(_) => e.Registered? || e.ProbeReturned?
  }

  predicate NeedsNoLock(s: Level, e: DR.Event)
  {
    || e.Tick? || e.Spawned?
    || (e.Returned? && e.id in s.dialed)
    || (e.Went? && e.id in s.w.runs && Sleeping(s.w.runs[e.id].pc))
  }

  ghost predicate Enabled(asWritten: bool, s: Level, ev: Event)
  {
    match ev
    case Free(e) => DR.Enabled(s.w, e) && NeedsNoLock(s, e)
    case Ask(a, m) => MayAsk(asWritten, s, a, m)
    case Grant => s.lock.queue != [] && Compatible(s.lock, s.lock.queue[0].mode)
    case Act(a, e) => s.lock.writer == Some(a) && DR.Enabled(s.w, e) && UnderWrite(a, e)
    case Dial(id) => Task(id) in s.lock.readers && id in s.w.runs && s.w.runs[id].pc.Calling?
    case Leave(k) => Other(k) in s.lock.readers
  }

  function Next(s: Level, ev: Event): Level
  {
    match ev
    case Free(e) => s.(w := DR.Next(s.w, e), dialed := if e.Returned? then s.dialed - {e.id} else s.dialed)
    case Ask(a, m) => s.(lock := s.lock.(queue := s.lock.queue + [Request(a, m)]))
    case Grant =>
      if s.lock.queue == [] then s
      else
        var q, rest := s.lock.queue[0], s.lock.queue[1..];
        s.(lock := if q.mode == Write then Lock(Some(q.actor), s.lock.readers, rest)
                   else Lock(s.lock.writer, s.lock.readers + {q.actor}, rest))
    case Act(a, e) => s.(w := DR.Next(s.w, e), lock := s.lock.(writer := None))
    case Dial(id) => s.(dialed := s.dialed + {id}, lock := s.lock.(readers := s.lock.readers - {Task(id)}))
    case Leave(k) => s.(lock := s.lock.(readers := s.lock.readers - {Other(k)}))
  }

  function At(strategy: string, r: LockRun): Level
  {
    match r
    case Start => Genesis(strategy)
    case Then(p, e) => Next(At(strategy, p), e)
  }

  ghost predicate Possible(asWritten: bool, strategy: string, r: LockRun)
  {
    r.Then? ==> Possible(asWritten, strategy, r.before) && Enabled(asWritten, At(strategy, r.before), r.event)
  }

  // --- Forgetting the lock gives an interleaving --------------------------------------------

  function Unlocked(r: LockRun): DR.Interleaving
  {
    match r
    case Start => Start
    case Then(p, Free(e)) => Then(Unlocked(p), e)
    case Then(p, Act(_, e)) => Then(Unlocked(p), e)
    case Then(p, _) => Unlocked(p)
  }

  /** Every lock-level run is an interleaving, so whatever holds of all interleavings holds here. That something can still
      happen does not carry over: a step enabled there may wait for the lock here. */
  lemma {:induction false} RefinesInterleaving(asWritten: bool, strategy: string, r: LockRun)
    requires Possible(asWritten, strategy, r)
    ensures DR.Possible(strategy, Unlocked(r)) && DR.At(strategy, Unlocked(r)) == At(strategy, r).w
  {
    if r.Then? { RefinesInterleaving(asWritten, strategy, r.before); }
  }

  // --- The two guards of one statement ------------------------------------------------------

  /** The dispatch holds the read guard of the queue decrement and can only wait for the write guard. */
  predicate Stuck(asWritten: bool, s: Level, id: string)
  {
    asWritten && Task(id) in s.lock.readers && id in s.w.runs && s.w.runs[id].pc.Dequeueing?
  }

  lemma StepStuck(asWritten: bool, s: Level, ev: Event, id: string)
    requires Enabled(asWritten, s, ev) && Stuck(asWritten, s, id) && s.lock.writer.None?
    ensures Stuck(asWritten, Next(s, ev), id) && Next(s, ev).lock.writer.None?
    ensures Next(s, ev).w.state == s.w.state
    ensures ev.Grant? ==> s.lock.queue[0].mode == Read
  {
  }

  /** Once a dispatch holds that read guard, no write lock is ever granted again: in every continuation it stays
      stuck, and the shared state never changes again. */
  lemma {:induction false} StuckForever(asWritten: bool, strategy: string, r: LockRun, later: LockRun, id: string)
    requires Possible(asWritten, strategy, later) && Extends(r, later)
    requires Stuck(asWritten, At(strategy, r), id)
    ensures Stuck(asWritten, At(strategy, later), id) && At(strategy, later).lock.writer.None?
    ensures At(strategy, later).w.state == At(strategy, r).w.state
  {
    if r == later {
      AlwaysOrderly(asWritten, strategy, r);
    } else {
      StuckForever(asWritten, strategy, r, later.before, id);
      StepStuck(asWritten, At(strategy, later.before), later.event, id);
    }
  }

  // --- Who holds and who waits --------------------------------------------------------------

  predicate GoodWriter(asWritten: bool, s: Level, a: Actor)
  {
    a.Task? ==> a.id in s.w.runs && FirstGuard(asWritten, s, a.id) == Some(Write)
  }

  predicate GoodReader(asWritten: bool, s: Level, a: Actor)
  {
    a.Task? ==> a.id in s.w.runs && FirstGuard(asWritten, s, a.id) == Some(Read)
  }

  predicate GoodRequest(asWritten: bool, s: Level, q: Request)
  {
    q.actor.Task? ==>
      && q.actor.id in s.w.runs
      && s.lock.writer != Some(q.actor)
      && if q.actor in s.lock.readers then Stuck(asWritten, s, q.actor.id) && q.mode == Write
         else FirstGuard(asWritten, s, q.actor.id) == Some(q.mode)
  }

  ghost predicate AwakeUnlessSleeping(w: DR.World)
  {
    && (forall id | id in w.wakeAt :: id in w.runs)
    && (forall id | id in w.runs && !Sleeping(w.runs[id].pc) :: DR.Awake(w, id))
  }

  ghost predicate Orderly(asWritten: bool, s: Level)
  {
    && (s.lock.writer.Some? ==> s.lock.readers == {} && GoodWriter(asWritten, s, s.lock.writer.value))
    && (forall a | a in s.lock.readers :: GoodReader(asWritten, s, a))
    && (forall i | 0 <= i < |s.lock.queue| :: GoodRequest(asWritten, s, s.lock.queue[i]))
    && (forall i, j | 0 <= i < j < |s.lock.queue| :: s.lock.queue[i].actor != s.lock.queue[j].actor)
    && (forall id | id in s.dialed :: id in s.w.runs && s.w.runs[id].pc.Calling?)
  }

  lemma StepAwake(w: DR.World, e: DR.Event)
    requires DR.Enabled(w, e) && AwakeUnlessSleeping(w)
    ensures AwakeUnlessSleeping(DR.Next(w, e))
  {
  }

  lemma OrderlyAsk(asWritten: bool, s: Level, a: Actor, m: Mode)
    requires Orderly(asWritten, s) && MayAsk(asWritten, s, a, m)
    ensures Orderly(asWritten, Next(s, Ask(a, m)))
  {
  }

  lemma OrderlyGrant(asWritten: bool, s: Level)
    requires Orderly(asWritten, s) && Enabled(asWritten, s, Grant)
    ensures Orderly(asWritten, Next(s, Grant))
  {
  }

  lemma OrderlyRelease(asWritten: bool, s: Level, ev: Event)
    requires Orderly(asWritten, s) && Enabled(asWritten, s, ev) && (ev.Dial? || ev.Leave?)
    ensures Orderly(asWritten, Next(s, ev))
  {
  }

  /** Runs other than the one `e` belongs to are left alone. */
  ghost predicate OthersKept(w: DR.World, w': DR.World, e: DR.Event)
  {
    forall id | id in w.runs && !DR.StepOf(e, id) :: id in w'.runs && w'.runs[id] == w.runs[id]
  }

  lemma StepKeepsOthers(w: DR.World, e: DR.Event)
    requires DR.Enabled(w, e)
    ensures OthersKept(w, DR.Next(w, e), e)
  {
  }

  /** The writer moves its own run only, and lets go. */
  lemma OrderlyAfterWriter(asWritten: bool, s: Level, a: Actor, e: DR.Event, w': DR.World)
    requires Orderly(asWritten, s) && s.lock.writer == Some(a) && UnderWrite(a, e) && OthersKept(s.w, w', e)
    ensures Orderly(asWritten, s.(w := w', lock := s.lock.(writer := None)))
  {
  }

  lemma OrderlyAct(asWritten: bool, s: Level, a: Actor, e: DR.Event)
    requires Orderly(asWritten, s) && Enabled(asWritten, s, Act(a, e))
    ensures Orderly(asWritten, Next(s, Act(a, e)))
  {
    StepKeepsOthers(s.w, e);
    OrderlyAfterWriter(asWritten, s, a, e, DR.Next(s.w, e));
  }

  /** A sleeper waking, or a returning RPC, moves a run that holds and wants no lock. */
  lemma OrderlyAfterFree(asWritten: bool, s: Level, e: DR.Event, w': DR.World)
    requires Orderly(asWritten, s) && NeedsNoLock(s, e) && OthersKept(s.w, w', e)
    ensures Orderly(asWritten, s.(w := w', dialed := if e.Returned? then s.dialed - {e.id} else s.dialed))
  {
  }

  lemma OrderlyFree(asWritten: bool, s: Level, e: DR.Event)
    requires Orderly(asWritten, s) && Enabled(asWritten, s, Free(e))
    ensures Orderly(asWritten, Next(s, Free(e)))
  {
    StepKeepsOthers(s.w, e);
    OrderlyAfterFree(asWritten, s, e, DR.Next(s.w, e));
  }

  lemma {:induction false} AlwaysOrderly(asWritten: bool, strategy: string, r: LockRun)
    requires Possible(asWritten, strategy, r)
    ensures Orderly(asWritten, At(strategy, r)) && AwakeUnlessSleeping(At(strategy, r).w)
  {
    if r.Then? {
      AlwaysOrderly(asWritten, strategy, r.before);
      var s := At(strategy, r.before);
      match r.event {
        case Free(e) => OrderlyFree(asWritten, s, e); StepAwake(s.w, e);
        case Ask(a, m) => OrderlyAsk(asWritten, s, a, m);
        case Grant => OrderlyGrant(asWritten, s);
        case Act(a, e) => OrderlyAct(asWritten, s, a, e); StepAwake(s.w, e);
        case _ => OrderlyRelease(asWritten, s, r.event);
      }
    }
  }

  // --- Progress -----------------------------------------------------------------------------

  /** The lock moves: someone is granted it or lets go of it. */
  predicate LockMoves(ev: Event)
  {
    ev.Grant? || ev.Act? || ev.Dial? || ev.Leave?
  }

  /** The writer can run a critical section of its own and let go. */
  ghost predicate WriterCanFinish(asWritten: bool, s: Level)
    requires s.lock.writer.Some?
  {
    exists ev :: Enabled(asWritten, s, ev) && ev.Act? && ev.actor == s.lock.writer.value
  }

  lemma WritersFinish(asWritten: bool, s: Level)
    requires Orderly(asWritten, s) && AwakeUnlessSleeping(s.w) && s.lock.writer.Some?
    ensures WriterCanFinish(asWritten, s)
  {
    var a, ev := s.lock.writer.value, Act(s.lock.writer.value, DR.ProbeReturned("", None));
    if a.Task? { ev := Act(a, if s.w.runs[a.id].pc.Choosing? then DR.Chosen(a.id, 0) else DR.Went(a.id)); }
    assert Enabled(asWritten, s, ev);
  }

  ghost predicate LockCanMove(asWritten: bool, s: Level)
  {
    exists ev :: Enabled(asWritten, s, ev) && LockMoves(ev)
  }

  /** Unless some dispatch is stuck between the two guards, a wanted lock always moves. */
  lemma LockNeverWedges(asWritten: bool, s: Level)
    requires Orderly(asWritten, s) && AwakeUnlessSleeping(s.w) && s.lock.queue != []
    requires forall id :: !Stuck(asWritten, s, id)
    ensures LockCanMove(asWritten, s)
  {
    if s.lock.writer.Some? {
      WritersFinish(asWritten, s);
    } else if a :| a in s.lock.readers {
      assert a.Task? ==> !Stuck(asWritten, s, a.id);
      assert Enabled(asWritten, s, if a.Task? then Dial(a.id) else Leave(a.k));
    } else {
      assert Enabled(asWritten, s, Grant);
    }
  }

  /** The dispatch itself moves, or it waits in the queue of a lock that moves. */
  predicate MovesOrWaits(l: Lock, id: string, ev: Event)
  {
    if Queued(l, Task(id)) then LockMoves(ev)
    else
      || ev == Dial(id)
      || ((ev.Act? || ev.Ask?) && ev.actor == Task(id))
      || (ev.Free? && DR.StepOf(ev.e, id))
  }

  /** After some waiting the dispatch can move, or the lock it waits for can. */
  ghost predicate CanGoOn(asWritten: bool, s: Level, id: string)
  {
    exists ms, ev :: Enabled(asWritten, Next(s, Free(DR.Tick(ms))), ev) && MovesOrWaits(s.lock, id, ev)
  }

  /** Every unfinished dispatch can move, or waits for a lock that moves, unless some dispatch is stuck between the
      two guards. With one guard nothing is ever stuck. */
  lemma {:induction false} DispatchProgress(asWritten: bool, strategy: string, r: LockRun, id: string)
    requires Possible(asWritten, strategy, r)
    requires id in At(strategy, r).w.runs && !At(strategy, r).w.runs[id].pc.Done?
    requires forall k :: !Stuck(asWritten, At(strategy, r), k)
    ensures CanGoOn(asWritten, At(strategy, r), id)
  {
    AlwaysOrderly(asWritten, strategy, r);
    var s := At(strategy, r);
    var pc, ms, ev := s.w.runs[id].pc, 0, Dial(id);
    assert !Stuck(asWritten, s, id);
    assert Next(s, Free(DR.Tick(0))) == s;
    if Queued(s.lock, Task(id)) {
      LockNeverWedges(asWritten, s);
      ev :| Enabled(asWritten, s, ev) && LockMoves(ev);
    } else if s.lock.writer == Some(Task(id)) {
      WritersFinish(asWritten, s);
      ev :| Enabled(asWritten, s, ev) && ev.Act? && ev.actor == Task(id);
    } else if Task(id) !in s.lock.readers {
      if Sleeping(pc) {
        ms := if DR.Awake(s.w, id) then 0 else s.w.wakeAt[id] - s.w.clock;
        ev := Free(DR.Went(id));
      } else if pc.Calling? && id in s.dialed {
        ev := Free(DR.Returned(id, AtCapacity));
      } else {
        ev := Ask(Task(id), FirstGuard(asWritten, s, id).value);
      }
    }
    assert Enabled(asWritten, Next(s, Free(DR.Tick(ms))), ev) && MovesOrWaits(s.lock, id, ev);
  }

  // --- The stuck state is reached -----------------------------------------------------------

  ghost predicate Ends(strategy: string, r: LockRun, s: Level)
  {
    Possible(true, strategy, r) && At(strategy, r) == s
  }

  /** Some run, with the guards as written, leads to `s`. */
  ghost predicate Reached(strategy: string, s: Level)
  {
    exists r :: Ends(strategy, r, s)
  }

  lemma Step(strategy: string, s: Level, ev: Event)
    requires Reached(strategy, s) && Enabled(true, s, ev)
    ensures Reached(strategy, Next(s, ev))
  {
    var r :| Ends(strategy, r, s);
    assert Ends(strategy, Then(r, ev), Next(s, ev));
  }

  /** Ask for the write lock, get it at once, run the critical section and release. */
  lemma RunSection(strategy: string, s: Level, id: string, e: DR.Event)
    requires Reached(strategy, s) && s.lock == Lock(None, {}, [])
    requires id in s.w.runs && DR.Awake(s.w, id) && FirstGuard(true, s, id) == Some(Write)
    requires DR.Enabled(s.w, e) && DR.StepOf(e, id) && !e.Returned?
    ensures Reached(strategy, s.(w := DR.Next(s.w, e)))
  {
    var asked := s.(lock := Lock(None, {}, [Request(Task(id), Write)]));
    Step(strategy, s, Ask(Task(id), Write));
    assert Next(s, Ask(Task(id), Write)) == asked;
    var held := s.(lock := Lock(Some(Task(id)), {}, []));
    Step(strategy, asked, Grant);
    assert Next(asked, Grant) == held;
    Step(strategy, held, Act(Task(id), e));
    assert Next(held, Act(Task(id), e)) == s.(w := DR.Next(s.w, e));
  }

  /** Only task "t" exists, it stands at `pc`, no node is registered and the lock is idle. */
  ghost predicate Alone(s: Level, pc: Pc)
  {
    && s.lock == Lock(None, {}, [])
    && s.w.runs.Keys == {"t"}
    && s.w.runs["t"].pc == pc && s.w.runs["t"].noNodeCount == Bit(!pc.Counting? && !pc.Choosing?)
    && s.w.state.table == Scheduling.Table(map[], [])
    && ("t" in s.w.wakeAt ==> s.w.wakeAt["t"] <= s.w.clock + SleepMs(pc))
  }

  lemma ReachChoosing(strategy: string) returns (s: Level)
    ensures Reached(strategy, s) && Alone(s, Choosing)
  {
    s := Genesis(strategy);
    assert Ends(strategy, Start, s);
    Step(strategy, s, Free(DR.Spawned("t")));
    s := Next(s, Free(DR.Spawned("t")));
    assert Alone(s, Counting);
    RunSection(strategy, s, "t", DR.Went("t"));
    s := s.(w := DR.Next(s.w, DR.Went("t")));
  }

  lemma ReachWaiting(strategy: string) returns (s: Level)
    ensures Reached(strategy, s) && Alone(s, Waiting)
  {
    s := ReachChoosing(strategy);
    RunSection(strategy, s, "t", DR.Chosen("t", 0));
    s := s.(w := DR.Next(s.w, DR.Chosen("t", 0)));
    assert Alone(s, Enqueueing);
    RunSection(strategy, s, "t", DR.Went("t"));
    s := s.(w := DR.Next(s.w, DR.Went("t")));
  }

  lemma ReachDequeueing(strategy: string) returns (s: Level)
    ensures Reached(strategy, s) && Alone(s, Dequeueing)
  {
    s := ReachWaiting(strategy);
    Step(strategy, s, Free(DR.Tick(QUEUE_NAP_MS)));
    s := Next(s, Free(DR.Tick(QUEUE_NAP_MS)));
    Step(strategy, s, Free(DR.Went("t")));
    s := Next(s, Free(DR.Went("t")));
  }

  /** "t" holds the read guard of its decrement; nobody else wants the lock. */
  ghost predicate StuckAlone(s: Level)
  {
    Stuck(true, s, "t") && s.w.runs.Keys == {"t"} && s.lock == Lock(None, {Task("t")}, [])
  }

  /** One task submitted before any node has registered is enough to reach the stuck state. */
  lemma {:induction false} StuckIsReachable(strategy: string)
    ensures exists r :: Possible(true, strategy, r) && StuckAlone(At(strategy, r))
  {
    var s := ReachDequeueing(strategy);
    Step(strategy, s, Ask(Task("t"), Read));
    s := Next(s, Ask(Task("t"), Read));
    Step(strategy, s, Grant);
    s := Next(s, Grant);
    var r :| Ends(strategy, r, s);
  }
}
