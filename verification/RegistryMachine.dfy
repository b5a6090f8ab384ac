/** Registry, migration engine and component store together, as programs of several threads
    over five classes of locks: src/core/object_registry.cpp, src/core/migration_engine.cpp
    and, through StorageMachine, src/core/component_storage.cpp.

    A registered migration function is any code that calls storage operations and finally
    returns a verdict and a header; what it does is chosen step by step by the schedule. */
module RegistryMachine {
  import opened Basics
  import opened Locks
  import opened RegistrySpec
  import Spec = StorageSpec
  import Machine = StorageMachine

  /** ObjectEntry: its mutex and its header. */
  datatype Entry = Entry(owner: Option<ThreadId>, header: Header)

  datatype Call =
    | Create(header: Header)
    | Get(id: ObjectId)
    | Destroy(id: ObjectId)
    | Migrate(id: ObjectId, target: U32)
    | Register(from: U32, to: U32)
    | Storage(op: Spec.Op)

  /** The next thing a call does. */
  datatype Stage =
    | CreateStart | CreateInsert
    | GetStart | GetFind | GetLock | GetCopy | GetUnlock
    | DestroyStart | DestroyFind | DestroyLock | DestroyUnlock | DestroyErase
    | DestroyLeave      // release the unique lock, then remove the components
    | DestroyRemove     // call RemoveAll of the store
    | MigrateStart | MigrateFind | MigrateLock | MigrateView
    | MigrateLoop       // compare the current with the target version
    | EngineStart       // MigrateStep: lock the engine shared
    | EngineFind        // look the function up
    | EngineLeave       // release it with the function found
    | EngineLeaveMissing
    | FuncRun           // the migration function runs
    | FuncWait          // ... inside a storage operation
    | MigrateCommit | MigrateUnlock
    | RegisterStart | RegisterInsert | RegisterLeave
    | StorageCall
    | StorageWait       // inside a storage operation that ends the call
    | LeaveShared | LeaveUnique
    | Done

  /** Where a thread is. `view` is the header of the GameObject view, `seen` the header it was
      copied from, `current` the loop variable of the engine, `ok` its verdict, or whether Get
      found the object. */
  datatype Task =
    | Rest
    | Doing(call: Call, stage: Stage, view: Header, seen: Header, current: U32, ok: bool)

  datatype Sys = Sys(
    registry: RwLock,
    entries: map<ObjectId, Entry>,
    engine: RwLock,
    functions: set<(U32, U32)>,
    tasks: map<ThreadId, Task>,
    store: Machine.Store,
    log: seq<RegistryEvent>)

  const NO_HEADER := Header(0, 0, 0)

  function Init(threads: set<ThreadId>, rehashing: set<Machine.CellRef>): Sys {
    Sys(RwLock({}, None), map[], RwLock({}, None), {}, map t | t in threads :: Rest,
        Machine.Init(threads, rehashing), [])
  }

  function IdOf(call: Call): ObjectId {
    match call
    case Create(h) => h.id
    case Get(id) => id
    case Destroy(id) => id
    case Migrate(id, _) => id
    case Register(_, _) => 0
    case Storage(op) => op.obj
  }

  function FirstStage(call: Call): Stage {
    match call
    case Create(_) => CreateStart
    case Get(_) => GetStart
    case Destroy(_) => DestroyStart
    case Migrate(_, _) => MigrateStart
    case Register(_, _) => RegisterStart
    case Storage(_) => StorageCall
  }

  /** What the schedule decides when a migration function runs. */
  datatype Choice = Touch(op: Spec.Op) | Verdict(ok: bool, view: Header)

  /** A choice for code that makes none. */
  const NO_CHOICE := Verdict(false, NO_HEADER)

  datatype Instr =
    | LockRegistry(unique: bool, next: Stage)
    | UnlockRegistry(next: Stage)
    | LockEngine(unique: bool, next: Stage)
    | UnlockEngine(next: Stage)
    | LockEntry(next: Stage)
    | UnlockEntry(next: Stage)
    | GoTo(next: Stage)
    | Insert(next: Stage)                 // Create stores its header
    | Miss(next: Stage)                   // Get, Destroy or Migrate finds nothing
    | Copy(next: Stage)                   // Get copies the header
    | View(next: Stage)                   // Migrate makes its view
    | Erase(next: Stage)
    | Decide(ok: bool, next: Stage)       // the verdict of the engine
    | Stamp(view: Header, next: Stage)    // a step succeeded: view, then its version is set
    | Commit(next: Stage)                 // the header is stored if the engine succeeded
    | AddFunction(next: Stage)
    | Begin(op: Spec.Op, next: Stage)     // enter a storage operation
    | Await(next: Stage)                  // take its next step, or go on if it is over
    | Finish

  function Code(s: Sys, t: ThreadId, c: Choice): Instr
    requires t in s.tasks && s.tasks[t].Doing?
  {
    var p := s.tasks[t];
    match p.stage
    case CreateStart => LockRegistry(true, CreateInsert)
    case CreateInsert => Insert(LeaveUnique)
    case GetStart => LockRegistry(false, GetFind)
    case GetFind => if IdOf(p.call) in s.entries then GoTo(GetLock) else Miss(LeaveShared)
    case GetLock => LockEntry(GetCopy)
    case GetCopy => Copy(GetUnlock)
    case GetUnlock => UnlockEntry(LeaveShared)
    case DestroyStart => LockRegistry(true, DestroyFind)
    case DestroyFind => if IdOf(p.call) in s.entries then GoTo(DestroyLock) else Miss(LeaveUnique)
    case DestroyLock => LockEntry(DestroyUnlock)
    case DestroyUnlock => UnlockEntry(DestroyErase)
    case DestroyErase => Erase(DestroyLeave)
    case DestroyLeave => UnlockRegistry(DestroyRemove)
    case DestroyRemove => Begin(Spec.RemoveAll(IdOf(p.call)), StorageWait)
    case MigrateStart => LockRegistry(false, MigrateFind)
    case MigrateFind => if IdOf(p.call) in s.entries then GoTo(MigrateLock) else Miss(LeaveShared)
    case MigrateLock => LockEntry(MigrateView)
    case MigrateView => View(MigrateLoop)
    case MigrateLoop =>
      if p.call.Migrate? && p.current != p.call.target then GoTo(EngineStart) else Decide(true, MigrateCommit)
    case EngineStart => LockEngine(false, EngineFind)
    case EngineFind =>
      if p.call.Migrate? && p.current != p.call.target &&
         (p.current, NextVersion(p.current, p.call.target)) in s.functions
      then GoTo(EngineLeave) else GoTo(EngineLeaveMissing)
    case EngineLeave => UnlockEngine(FuncRun)
    case EngineLeaveMissing => UnlockEngine(MigrateCommit)
    case FuncRun =>
      (match c
       case Touch(op) => Begin(op, FuncWait)
       case Verdict(ok, view) => if ok then Stamp(view, MigrateLoop) else Decide(false, MigrateCommit))
    case FuncWait => Await(FuncRun)
    case MigrateCommit => Commit(MigrateUnlock)
    case MigrateUnlock => UnlockEntry(LeaveShared)
    case RegisterStart => LockEngine(true, RegisterInsert)
    case RegisterInsert => AddFunction(RegisterLeave)
    case RegisterLeave => UnlockEngine(Done)
    case StorageCall => if p.call.Storage? then Begin(p.call.op, StorageWait) else Finish
    case StorageWait => Await(Done)
    case LeaveShared => UnlockRegistry(Done)
    case LeaveUnique => UnlockRegistry(Done)
    case Done => Finish
  }

  /** The instruction can be executed now. */
  predicate Enabled(s: Sys, t: ThreadId, i: Instr)
    requires t in s.tasks && s.tasks[t].Doing?
  {
    var id := IdOf(s.tasks[t].call);
    match i
    case LockRegistry(unique, _) => CanLock(s.registry, unique)
    case LockEngine(unique, _) => CanLock(s.engine, unique)
    case LockEntry(_) => id in s.entries ==> s.entries[id].owner.None?
    case Begin(_, _) => Machine.CanCall(s.store, t)
    case Await(_) => Machine.CanCall(s.store, t) || Machine.CanRun(s.store, t)
    case _ => true
  }

  function SetTask(s: Sys, t: ThreadId, p: Task): Sys {
    s.(tasks := s.tasks[t := p])
  }

  function SetOwner(s: Sys, id: ObjectId, owner: Option<ThreadId>): Sys {
    if id in s.entries then s.(entries := s.entries[id := s.entries[id].(owner := owner)]) else s
  }

  function Note(s: Sys, e: RegistryEvent): Sys {
    s.(log := s.log + [e])
  }

  function MissEvent(call: Call): RegistryEvent {
    match call
    case Destroy(id) => Destroyed(id, false)
    case Migrate(id, _) => MigrateMissed(id)
    case _ => Got(IdOf(call), None)
  }

  function HeaderIn(s: Sys, id: ObjectId): Header {
    if id in s.entries then s.entries[id].header else NO_HEADER
  }

  function TargetOf(call: Call): U32 {
    if call.Migrate? then call.target else 0
  }

  /** The version the running step migrates to. */
  function StepTo(p: Task): U32
    requires p.Doing?
  {
    if p.current == TargetOf(p.call) then p.current else NextVersion(p.current, TargetOf(p.call))
  }

  /** The task of t after i. */
  function After(s: Sys, t: ThreadId, i: Instr): Task
    requires t in s.tasks && s.tasks[t].Doing?
  {
    var p := s.tasks[t];
    var h := HeaderIn(s, IdOf(p.call));
    match i
    case Miss(next) => p.(stage := next, ok := false)
    case Copy(next) => p.(stage := next, view := h, ok := true)
    case View(next) => p.(stage := next, view := h, seen := h, current := h.version, ok := false)
    case Decide(ok, next) => p.(stage := next, ok := ok)
    case Stamp(view, next) => p.(stage := next, view := view.(version := StepTo(p)), current := StepTo(p))
    case Await(next) => if Machine.CanCall(s.store, t) then p.(stage := next) else p
    case Finish => Rest
    case _ => p.(stage := i.next)
  }

  function Exec(s: Sys, t: ThreadId, i: Instr): (r: Sys)
    requires t in s.tasks && s.tasks[t].Doing? && Enabled(s, t, i)
    ensures r.tasks == s.tasks[t := After(s, t, i)]
  {
    var p, s' := s.tasks[t], SetTask(s, t, After(s, t, i));
    var id := IdOf(p.call);
    match i
    case LockRegistry(unique, _) => s'.(registry := Locked(s.registry, t, unique))
    case UnlockRegistry(_) => s'.(registry := Unlocked(s.registry, t))
    case LockEngine(unique, _) => s'.(engine := Locked(s.engine, t, unique))
    case UnlockEngine(_) => s'.(engine := Unlocked(s.engine, t))
    case LockEntry(_) => SetOwner(s', id, Some(t))
    case UnlockEntry(_) => SetOwner(s', id, None)
    case Insert(_) =>
      if p.call.Create?
      then Note(s'.(entries := s.entries[id := Entry(None, p.call.header)]), Created(p.call.header))
      else s'
    case Miss(_) => Note(s', MissEvent(p.call))
    case Copy(_) => Note(s', Got(id, Some(HeaderIn(s, id))))
    case Erase(_) => Note(s'.(entries := s.entries - {id}), Destroyed(id, true))
    case Commit(_) =>
      var noted := Note(s', Migrated(id, TargetOf(p.call), p.seen, p.ok, p.view));
      if p.ok && id in s.entries
      then noted.(entries := s.entries[id := s.entries[id].(header := p.view)])
      else noted
    case AddFunction(_) =>
      if p.call.Register? then s'.(functions := s.functions + {(p.call.from, p.call.to)}) else s'
    case Begin(op, _) => s'.(store := Machine.Call(s.store, t, op))
    case Await(_) =>
      if Machine.CanCall(s.store, t) then s' else s'.(store := Machine.Run(s.store, t))
    case _ => s'
  }

  /** A schedule: resting threads call, others take their next step. */
  datatype Move = Start(t: ThreadId, call: Call) | Advance(t: ThreadId, choice: Choice)

  predicate CanAdvance(s: Sys, t: ThreadId, c: Choice) {
    t in s.tasks && s.tasks[t].Doing? && Enabled(s, t, Code(s, t, c))
  }

  predicate CanMove(s: Sys, m: Move) {
    match m
    case Start(t, _) => t in s.tasks && s.tasks[t].Rest?
    case Advance(t, c) => CanAdvance(s, t, c)
  }

  function Do(s: Sys, m: Move): Sys
    requires CanMove(s, m)
  {
    match m
    case Start(t, call) => SetTask(s, t, Doing(call, FirstStage(call), NO_HEADER, NO_HEADER, 0, false))
    case Advance(t, c) => Exec(s, t, Code(s, t, c))
  }

  predicate CanMoves(s: Sys, moves: seq<Move>)
    decreases |moves|
  {
    moves == [] || (CanMove(s, moves[0]) && CanMoves(Do(s, moves[0]), moves[1..]))
  }

  function DoAll(s: Sys, moves: seq<Move>): Sys
    requires CanMoves(s, moves)
    decreases |moves|
  {
    if moves == [] then s else DoAll(Do(s, moves[0]), moves[1..])
  }

  // What a stage holds.

  function RegistryMode(stage: Stage): Mode {
    match stage
    case CreateInsert => Unique
    case GetFind => Shared
    case GetLock => Shared
    case GetCopy => Shared
    case GetUnlock => Shared
    case DestroyFind => Unique
    case DestroyLock => Unique
    case DestroyUnlock => Unique
    case DestroyErase => Unique
    case DestroyLeave => Unique
    case MigrateFind => Shared
    case MigrateLock => Shared
    case MigrateView => Shared
    case MigrateLoop => Shared
    case EngineStart => Shared
    case EngineFind => Shared
    case EngineLeave => Shared
    case EngineLeaveMissing => Shared
    case FuncRun => Shared
    case FuncWait => Shared
    case MigrateCommit => Shared
    case MigrateUnlock => Shared
    case LeaveShared => Shared
    case LeaveUnique => Unique
    case _ => Free
  }

  function EngineMode(stage: Stage): Mode {
    match stage
    case EngineFind => Shared
    case EngineLeave => Shared
    case EngineLeaveMissing => Shared
    case RegisterInsert => Unique
    case RegisterLeave => Unique
    case _ => Free
  }

  /** Migrate from the view to the commit. */
  predicate Migrating(stage: Stage) {
    stage.MigrateLoop? || stage.EngineStart? || stage.EngineFind? || stage.EngineLeave? ||
    stage.EngineLeaveMissing? || stage.FuncRun? || stage.FuncWait? || stage.MigrateCommit?
  }

  predicate HoldsEntry(stage: Stage) {
    stage.GetCopy? || stage.GetUnlock? || stage.DestroyUnlock? || stage.MigrateView? ||
    stage.MigrateUnlock? || Migrating(stage)
  }

  predicate InStorage(stage: Stage) {
    stage.FuncWait? || stage.StorageWait?
  }
}
