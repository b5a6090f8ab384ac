/** No deadlock: the five classes of locks are always taken in the order registry map, entry,
    engine, store map, object, and never twice. */
module RegistryDeadlock {
  import opened Basics
  import opened Locks
  import opened RegistryMachine
  import opened RegistryProof

  datatype Lock = RegistryMap | EntryMutex(id: ObjectId) | EngineMap | StoreMap | ObjectMutex(ref: Machine.CellRef)

  function Rank(l: Lock): nat {
    match l
    case RegistryMap => 0
    case EntryMutex(_) => 1
    case EngineMap => 2
    case StoreMap => 3
    case ObjectMutex(_) => 4
  }

  /** The lock the next step of a storage operation takes, and whether it takes it alone. */
  function StoreWants(st: Machine.Store, t: ThreadId): Option<(Lock, bool)> {
    if t in st.points && st.points[t].In? then
      match Machine.Code(st, t)
      case AcquireShared(_) => Some((StoreMap, false))
      case AcquireUnique(_) => Some((StoreMap, true))
      case Lock(_) =>
        if Machine.Stale(st, st.points[t]) then None else Some((ObjectMutex(st.points[t].ref.value), true))
      case _ => None
    else None
  }

  /** The lock the next step of t takes, and whether it takes it alone. */
  function Wants(s: Sys, t: ThreadId): Option<(Lock, bool)> {
    if t in s.tasks && s.tasks[t].Doing? then
      match Code(s, t, NO_CHOICE)
      case LockRegistry(unique, _) => Some((RegistryMap, unique))
      case LockEngine(unique, _) => Some((EngineMap, unique))
      case LockEntry(_) => Some((EntryMutex(IdOf(s.tasks[t].call)), true))
      case Await(_) => StoreWants(s.store, t)
      case _ => None
    else None
  }

  predicate Holds(s: Sys, t: ThreadId, l: Lock) {
    t in s.tasks &&
    match l
    case RegistryMap => !RegistryModeOf(s.tasks[t]).Free?
    case EntryMutex(id) => HeldBy(s.tasks[t]) == Some(id)
    case EngineMap => !EngineModeOf(s.tasks[t]).Free?
    case StoreMap => t in s.store.points && !Machine.ModeAt(s.store.points[t]).Free?
    case ObjectMutex(r) => t in s.store.points && Machine.HeldCell(s.store.points[t]) == Some(r)
  }

  /** t can take its next step, whatever a migration function decides. */
  ghost predicate Runnable(s: Sys, t: ThreadId) {
    forall c :: CanAdvance(s, t, c)
  }

  /** t can also take it if waiting writers keep new readers out. */
  ghost predicate RunnableBehindWriters(s: Sys, t: ThreadId) {
    Runnable(s, t) &&
    (Wants(s, t).Some? && !Wants(s, t).value.1 ==> forall w :: Wants(s, w) != Some((Wants(s, t).value.0, true)))
  }

  // A storage operation that cannot go on finds the holder of the lock it wants.

  lemma StoreBlocked(st: Machine.Store, t: ThreadId) returns (u: ThreadId)
    requires StoreProof.Inv(st) && t in st.points && st.points[t].In? && !Machine.CanRun(st, t)
    ensures StoreWants(st, t).Some? && u in st.points
    ensures StoreWants(st, t).value.0.StoreMap? ==> !Machine.ModeAt(st.points[u]).Free?
    ensures StoreWants(st, t).value.0.ObjectMutex? ==>
              Machine.HeldCell(st.points[u]) == Some(StoreWants(st, t).value.0.ref)
  {
    if Machine.Code(st, t).Lock? {
      u := st.cells[st.points[t].ref.value].owner.value;
    } else if st.writer.Some? {
      u := st.writer.value;
    } else {
      u :| u in st.readers;
    }
  }

  lemma StoreOrder(st: Machine.Store, t: ThreadId)
    requires t in st.points && st.points[t].In? && StoreWants(st, t).Some?
    ensures StoreWants(st, t).value.0.StoreMap? || StoreWants(st, t).value.0.ObjectMutex?
    ensures Machine.HeldCell(st.points[t]).None?
    ensures StoreWants(st, t).value.0.StoreMap? ==> Machine.ModeAt(st.points[t]).Free?
  {
  }

  /** What a thread that is about to take a lock holds already. */
  lemma HeldBefore(s: Sys, t: ThreadId)
    requires t in s.tasks && s.tasks[t].Doing?
    ensures var i, stage := Code(s, t, NO_CHOICE), s.tasks[t].stage;
            (i.LockRegistry? ==> RegistryMode(stage).Free? && EngineMode(stage).Free? && !HoldsEntry(stage)) &&
            (i.LockEntry? ==> EngineMode(stage).Free? && !HoldsEntry(stage)) &&
            (i.LockEngine? || i.Await? ==> EngineMode(stage).Free?) &&
            (i.Await? <==> InStorage(stage))
  {
  }

  lemma LinkFacts(s: Sys, t: ThreadId)
    requires Inv(s) && t in s.tasks
    ensures t in s.store.points
    ensures s.tasks[t].Rest? || !InStorage(s.tasks[t].stage) ==> s.store.points[t].Idle?
    ensures StoreProof.Inv(s.store) && s.store.points.Keys == s.tasks.Keys
  {
    hide StoreProof.Inv;
  }

  /** Locks are taken in order: no thread wants a lock of a class it holds, or of one before. */
  lemma LocksAreOrdered(s: Sys, t: ThreadId, held: Lock)
    requires Inv(s) && Wants(s, t).Some? && Holds(s, t, held)
    ensures Rank(held) < Rank(Wants(s, t).value.0)
  {
    hide Inv, Code, StoreWants, RegistryMode, EngineMode, HoldsEntry, InStorage;
    HeldBefore(s, t);
    LinkFacts(s, t);
    if Code(s, t, NO_CHOICE).Await? {
      WaiterIsIn(s.store, t);
      StoreOrder(s.store, t);
    }
  }

  lemma WaiterIsIn(st: Machine.Store, t: ThreadId)
    requires StoreWants(st, t).Some?
    ensures t in st.points && st.points[t].In?
  {
    hide Machine.Code;
  }

  lemma HolderIsBusy(s: Sys, u: ThreadId, l: Lock)
    requires Inv(s) && Holds(s, u, l)
    ensures u in s.tasks && s.tasks[u].Doing?
  {
    LinkFacts(s, u);
    hide Inv, StoreProof.Inv;
  }

  lemma RegistryBlocked(s: Sys, unique: bool) returns (u: ThreadId)
    requires Inv(s) && !CanLock(s.registry, unique)
    ensures Holds(s, u, RegistryMap)
  {
    hide StoreProof.Inv, HeadersInv, TaskInv, LinkInv, CanLock;
    u := RwBlocked(s.registry, RegistryModes(s.tasks), unique);
  }

  lemma EngineBlocked(s: Sys, unique: bool) returns (u: ThreadId)
    requires Inv(s) && !CanLock(s.engine, unique)
    ensures Holds(s, u, EngineMap)
  {
    hide StoreProof.Inv, HeadersInv, TaskInv, LinkInv, CanLock;
    u := RwBlocked(s.engine, EngineModes(s.tasks), unique);
  }

  lemma EntryBlocked(s: Sys, id: ObjectId) returns (u: ThreadId)
    requires Inv(s) && id in s.entries && s.entries[id].owner.Some?
    ensures Holds(s, u, EntryMutex(id))
  {
    hide StoreProof.Inv, HeadersInv, TaskInv, LinkInv, RwInv;
    u := s.entries[id].owner.value;
    assert EntryOwners(s.entries)[id] == Some(u);
    assert HeldEntries(s.tasks)[u] == Some(id);
  }

  /** Code that makes no choice is the same for every choice. */
  lemma ChoiceMatters(s: Sys, t: ThreadId, c: Choice)
    requires t in s.tasks && s.tasks[t].Doing?
    ensures s.tasks[t].stage.FuncRun? || Code(s, t, c) == Code(s, t, NO_CHOICE)
    ensures s.tasks[t].stage.FuncRun? ==>
              !InStorage(s.tasks[t].stage) && var i := Code(s, t, c); i.Begin? || i.Stamp? || i.Decide?
    ensures Code(s, t, c).Begin? ==> !InStorage(s.tasks[t].stage)
  {
  }

  /** A thread that cannot go on wants a lock that some thread holds. */
  lemma Blocked(s: Sys, t: ThreadId, c: Choice) returns (u: ThreadId)
    requires Inv(s) && t in s.tasks && s.tasks[t].Doing?
    requires t in s.store.points && !s.store.points[t].Undefined?
    requires !CanAdvance(s, t, c)
    ensures Wants(s, t).Some? && Holds(s, u, Wants(s, t).value.0)
  {
    hide Inv, Code, StoreProof.Inv, CanLock, StoreWants, Machine.CanRun, RegistryMode, EngineMode, HoldsEntry;
    hide InStorage;
    ChoiceMatters(s, t, c);
    LinkFacts(s, t);
    HeldBefore(s, t);
    match Code(s, t, c) {
      case LockRegistry(unique, _) => u := RegistryBlocked(s, unique);
      case LockEngine(unique, _) => u := EngineBlocked(s, unique);
      case LockEntry(_) => u := EntryBlocked(s, IdOf(s.tasks[t].call));
      case Await(_) =>
        u := StoreBlocked(s.store, t);
        WantedKind(s.store, t);
      case Begin(_, _) => assert false;
    }
  }

  lemma WantedKind(st: Machine.Store, t: ThreadId)
    requires StoreWants(st, t).Some?
    ensures StoreWants(st, t).value.0.StoreMap? || StoreWants(st, t).value.0.ObjectMutex?
  {
  }

  lemma RunnableOrWaiting(s: Sys, t: ThreadId) returns (u: ThreadId)
    requires Inv(s) && t in s.tasks && s.tasks[t].Doing?
    requires t in s.store.points && !s.store.points[t].Undefined?
    ensures Runnable(s, t) || (Wants(s, t).Some? && Holds(s, u, Wants(s, t).value.0))
  {
    hide Inv, Wants, Holds, CanAdvance;
    u := t;
    if !Runnable(s, t) {
      var c :| !CanAdvance(s, t, c);
      u := Blocked(s, t, c);
    }
  }

  /** From any busy thread a chain of lock holders leads to one that can go on. */
  lemma {:induction false} SomeoneRuns(s: Sys, t: ThreadId) returns (u: ThreadId)
    requires Inv(s) && t in s.tasks && s.tasks[t].Doing?
    requires StoreProof.Defined(s.store)
    ensures RunnableBehindWriters(s, u)
    decreases if Wants(s, t).Some? then 5 - Rank(Wants(s, t).value.0) else 6
  {
    hide Inv, Wants, Holds, Runnable;
    LinkFacts(s, t);
    u := RunnableOrWaiting(s, t);
    if RunnableBehindWriters(s, t) {
      return t;
    }
    var l := Wants(s, t).value.0;
    if Runnable(s, t) {
      // A writer waits for the lock that t could share.
      var w :| Wants(s, w) == Some((l, true));
      WaiterIsBusy(s, w);
      LinkFacts(s, w);
      u := RunnableOrWaiting(s, w);
      if Runnable(s, w) {
        return w;
      }
    }
    HolderIsBusy(s, u, l);
    if Wants(s, u).Some? {
      LocksAreOrdered(s, u, l);
    } else {
      LinkFacts(s, u);
      var v := RunnableOrWaiting(s, u);
      return u;
    }
    RankBound(Wants(s, u).value.0);
    u := SomeoneRuns(s, u);
  }

  lemma RankBound(l: Lock)
    ensures Rank(l) <= 4
  {
  }

  lemma WaiterIsBusy(s: Sys, w: ThreadId)
    requires Wants(s, w).Some?
    ensures w in s.tasks && s.tasks[w].Doing?
  {
    hide Code;
  }

  // When the store stays defined.

  /** The callers' obligations for a move of the whole system: only a step inside a storage
      operation can break the store, as StepIsClear says. */
  ghost predicate MoveIsClear(s: Sys, m: Move) {
    m.Advance? && m.t in s.tasks && s.tasks[m.t].Doing? && InStorage(s.tasks[m.t].stage) ==>
      StoreProof.StepIsClear(s.store, m.t)
  }

  /** What a move does to the store. */
  lemma StoreAfter(s: Sys, m: Move)
    requires CanMove(s, m)
    ensures var st, st' := s.store, Do(s, m).store;
            if m.Advance? && InStorage(s.tasks[m.t].stage) && !Machine.CanCall(st, m.t)
            then Machine.CanRun(st, m.t) && st' == Machine.Run(st, m.t)
            else st' == st || exists op :: Machine.CanCall(st, m.t) && st' == Machine.Call(st, m.t, op)
  {
    hide Machine.CanRun, Machine.Run, Machine.Call, Machine.CanCall;
    if m.Advance? && Code(s, m.t, m.choice).Begin? {
      assert Machine.CanCall(s.store, m.t);
      assert Do(s, m).store == Machine.Call(s.store, m.t, Code(s, m.t, m.choice).op);
    }
  }

  /** Exactly when a move keeps the store defined. */
  lemma DefinedIffMoveIsClear(s: Sys, m: Move)
    requires Inv(s) && StoreProof.Defined(s.store) && CanMove(s, m)
    ensures StoreProof.Defined(Do(s, m).store) <==> MoveIsClear(s, m)
  {
    StoreAfter(s, m);
    LinkFacts(s, m.t);
    hide Inv, Do, StoreProof.Inv, StoreProof.Defined, Machine.Run, Machine.CanRun, Machine.Call, InStorage;
    var st := s.store;
    if m.Advance? && InStorage(s.tasks[m.t].stage) && !Machine.CanCall(st, m.t) {
      StoreProof.RunIsDefinedIff(st, m.t);
    } else if Do(s, m).store != st {
      var op :| Machine.CanCall(st, m.t) && Do(s, m).store == Machine.Call(st, m.t, op);
      StoreProof.CallIsDefined(st, m.t, op);
    }
  }

  ghost predicate MovesAreClear(s: Sys, moves: seq<Move>)
    requires CanMoves(s, moves)
    decreases |moves|
  {
    moves == [] || (MoveIsClear(s, moves[0]) && MovesAreClear(Do(s, moves[0]), moves[1..]))
  }

  /** The store is defined before every move of the schedule and after the last. */
  ghost predicate AlwaysDefined(s: Sys, moves: seq<Move>)
    requires CanMoves(s, moves)
    decreases |moves|
  {
    StoreProof.Defined(s.store) && (moves == [] || AlwaysDefined(Do(s, moves[0]), moves[1..]))
  }

  lemma {:induction false} AlwaysDefinedIff(s: Sys, moves: seq<Move>)
    requires Inv(s) && StoreProof.Defined(s.store) && CanMoves(s, moves)
    ensures AlwaysDefined(s, moves) <==> MovesAreClear(s, moves)
    ensures MovesAreClear(s, moves) ==> StoreProof.Defined(DoAll(s, moves).store)
    decreases |moves|
  {
    if moves != [] {
      hide Inv, StoreProof.Defined, MoveIsClear, Do;
      MoveKeeps(s, moves[0]);
      DefinedIffMoveIsClear(s, moves[0]);
      if MoveIsClear(s, moves[0]) {
        AlwaysDefinedIff(Do(s, moves[0]), moves[1..]);
      }
    }
  }

  /** A thread in undefined behaviour has no next step: what would follow is not in the model. */
  lemma UndefinedIsStuck(s: Sys, t: ThreadId, c: Choice)
    requires Inv(s) && t in s.store.points && s.store.points[t].Undefined?
    ensures t in s.tasks && s.tasks[t].Doing? && !CanAdvance(s, t, c)
  {
    PointsAreTasks(s);
    LinkFacts(s, t);
    hide Inv, Code, StoreProof.Inv, RegistryMode, EngineMode, HoldsEntry, InStorage, Machine.Code;
    HeldBefore(s, t);
    ChoiceMatters(s, t, c);
  }

  lemma PointsAreTasks(s: Sys)
    requires Inv(s)
    ensures s.store.points.Keys == s.tasks.Keys
  {
    hide StoreProof.Inv;
  }

  /** A schedule of registry, engine and storage calls keeps the store defined throughout if and
      only if each of its moves is clear. */
  lemma SystemIsDefinedIff(threads: set<ThreadId>, rehashing: set<Machine.CellRef>, moves: seq<Move>)
    requires CanMoves(Init(threads, rehashing), moves)
    ensures AlwaysDefined(Init(threads, rehashing), moves) <==> MovesAreClear(Init(threads, rehashing), moves)
  {
    InitInv(threads, rehashing);
    AlwaysDefinedIff(Init(threads, rehashing), moves);
  }

  /** Deadlock freedom: after any schedule of any number of threads whose moves are clear, if some
      call is unfinished, some thread can take its next step, whatever its migration function
      decides, and even if waiting writers keep new readers out. */
  lemma NoDeadlock(threads: set<ThreadId>, rehashing: set<Machine.CellRef>, moves: seq<Move>, t: ThreadId)
    requires CanMoves(Init(threads, rehashing), moves) && MovesAreClear(Init(threads, rehashing), moves)
    requires var s := DoAll(Init(threads, rehashing), moves); t in s.tasks && s.tasks[t].Doing?
    ensures exists u :: RunnableBehindWriters(DoAll(Init(threads, rehashing), moves), u)
  {
    InitInv(threads, rehashing);
    MovesKeep(Init(threads, rehashing), moves);
    AlwaysDefinedIff(Init(threads, rehashing), moves);
    hide Inv, RunnableBehindWriters;
    var u := SomeoneRuns(DoAll(Init(threads, rehashing), moves), t);
  }
}
