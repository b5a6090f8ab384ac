/** src/core/component_storage.cpp as programs of several threads over two levels of locks.

    Every lock acquisition, every lock release and every critical section is one step of
    one thread. `table` is store_, `cells` are the live ObjectComponents with their mutex,
    `readers` and `writer` are map_mutex_. A cell that RemoveAll has erased is gone from
    `cells`. An insertion into store_, which is a std::unordered_map, may rehash it, and then
    every iterator taken before is invalid: the table enters a new era. A thread that uses an
    erased object or an iterator of an older era has undefined behaviour and ends in the control
    point Undefined. */
module StorageMachine {
  import opened Basics
  import opened Histories
  import opened Locks
  import opened StorageSpec

  type CellRef = nat

  datatype Cell = Cell(owner: Option<ThreadId>, components: map<ComponentType, ComponentData>)

  /** The next thing a call does. */
  datatype Stage =
    | Start         // Read, Write, Remove: lock the map shared; RemoveAll: lock it unique
    | Find          // look the object up under the shared map lock
    | LockObject    // lock its mutex
    | UseObject     // access its components
    | UnlockObject
    | LeaveShared   // release the shared map lock
    | Reopen        // slow path of Write: lock the map unique
    | FillSlot      // insert the object unless another thread already did
    | DropUnique    // the unique lock goes out of scope
    | WindowLock    // lock the object mutex without any map lock
    | WindowUse     // store the component
    | WindowUnlock
    | AllFind       // RemoveAll: look the object up under the unique map lock
    | AllLock       // lock its mutex ...
    | AllUnlock     // ... and unlock it again
    | AllErase      // erase the object
    | LeaveUnique   // release the unique map lock
    | Finish        // return the answer

  /** Where a thread is. `ref` and `era` are the iterator of the call and the era it was taken
      in, `answer` the result once the call has taken effect, `held` the mutex left locked. */
  datatype Point =
    | Idle
    | In(op: Op, stage: Stage, ref: Option<CellRef>, era: nat, answer: Option<Answer>)
    | Undefined(op: Op, held: Option<CellRef>)

  /** `rehashing` are the slots, numbered in the order of their insertion, whose insertion
      rehashes the table. It is fixed at the start and arbitrary. */
  datatype Store = Store(
    readers: set<ThreadId>,
    writer: Option<ThreadId>,
    table: map<ObjectId, CellRef>,
    cells: map<CellRef, Cell>,
    nextRef: CellRef,
    era: nat,
    rehashing: set<CellRef>,
    points: map<ThreadId, Point>,
    log: seq<StorageEvent>)

  function Init(threads: set<ThreadId>, rehashing: set<CellRef>): Store {
    Store({}, None, map[], map[], 0, 0, rehashing, map t | t in threads :: Idle, [])
  }

  // What a stage holds.

  function MapMode(stage: Stage): Mode {
    match stage
    case Find => Shared
    case LockObject => Shared
    case UseObject => Shared
    case UnlockObject => Shared
    case LeaveShared => Shared
    case FillSlot => Unique
    case DropUnique => Unique
    case AllFind => Unique
    case AllLock => Unique
    case AllUnlock => Unique
    case AllErase => Unique
    case LeaveUnique => Unique
    case _ => Free
  }

  predicate HoldsObject(stage: Stage) {
    stage.UseObject? || stage.UnlockObject? || stage.WindowUse? || stage.WindowUnlock? || stage.AllUnlock?
  }

  function ModeAt(p: Point): Mode {
    if p.In? then MapMode(p.stage) else Free
  }

  function HeldCell(p: Point): Option<CellRef> {
    match p
    case Idle => None
    case In(_, stage, ref, _, _) => if HoldsObject(stage) then ref else None
    case Undefined(_, held) => held
  }

  /** The iterator outlives the map lock: component_storage.cpp:33-34 after the slow path. */
  predicate InWindow(p: Point) {
    p.In? && (p.stage.WindowLock? || p.stage.WindowUse? || p.stage.WindowUnlock?)
  }

  /** In the window, and the next step still goes through the iterator; only the unlocking of
      WindowUnlock goes to the mutex itself. */
  predicate WillUseIterator(p: Point) {
    InWindow(p) && !p.stage.WindowUnlock?
  }

  /** The instructions the calls are made of, each with the stage that follows. */
  datatype Instr =
    | AcquireShared(next: Stage)
    | ReleaseShared(next: Stage)
    | AcquireUnique(next: Stage)
    | ReleaseUnique(next: Stage)
    | Decide(answer: Answer, next: Stage)   // the call takes effect without touching the store
    | Aim(ref: CellRef, next: Stage)        // the iterator now points at ref
    | Fill(next: Stage)                     // insert the object unless it is there
    | Lock(next: Stage)                     // lock the object mutex
    | Unlock(next: Stage)
    | Use(next: Stage)                      // the critical section under the object mutex
    | Erase(next: Stage)
    | Complete                              // return

  /** What Read, Write and Remove do to the components of one object. */
  function Access(op: Op, c: map<ComponentType, ComponentData>): (map<ComponentType, ComponentData>, Answer) {
    match op
    case Read(_, ty) => (c, Found(if ty in c then Some(c[ty]) else None))
    case Write(_, ty, data) => (c[ty := data], Nothing)
    case WriteSized(_, ty, _, data) => (c[ty := data], Flag(true))
    case Remove(_, ty) => (c - {ty}, Flag(ty in c))
    case RemoveAll(_) => (c, Nothing)
  }

  /** The iterator points at no object, or at an erased one. */
  predicate Dead(s: Store, p: Point)
    requires p.In?
  {
    p.ref.None? || p.ref.value !in s.cells
  }

  /** The iterator must not be used. */
  predicate Stale(s: Store, p: Point)
    requires p.In?
  {
    Dead(s, p) || p.era != s.era
  }

  function MoveTo(s: Store, t: ThreadId, p: Point): Store {
    s.(points := s.points[t := p])
  }

  function SetCell(s: Store, r: CellRef, c: Cell): Store {
    s.(cells := s.cells[r := c])
  }

  function Log(s: Store, e: StorageEvent): Store {
    s.(log := s.log + [e])
  }

  /** Unlocking needs the object, the other instructions need the iterator to it. */
  predicate Misuses(s: Store, p: Point, i: Instr)
    requires p.In?
  {
    if i.Unlock? then Dead(s, p) else (i.Lock? || i.Use? || i.Erase?) && Stale(s, p)
  }

  /** Filling the slot rehashes the table. */
  predicate Rehashes(s: Store, p: Point)
    requires p.In?
  {
    p.op.obj !in s.table && s.nextRef in s.rehashing
  }

  function Exec(s: Store, t: ThreadId, i: Instr): (r: Store)
    requires t in s.points && s.points[t].In?
    ensures t in r.points && r.points == s.points[t := r.points[t]]
    ensures r.era == if i.Fill? && Rehashes(s, s.points[t]) then s.era + 1 else s.era
    ensures if i.Erase? && !Stale(s, s.points[t])
            then r.cells.Keys == s.cells.Keys - {s.points[t].ref.value}
            else s.cells.Keys <= r.cells.Keys
  {
    var p := s.points[t];
    if Misuses(s, p, i) then MoveTo(s, t, Undefined(p.op, HeldCell(p)))
    else match i
      case AcquireShared(next) => MoveTo(s, t, p.(stage := next)).(readers := s.readers + {t})
      case ReleaseShared(next) => MoveTo(s, t, p.(stage := next)).(readers := s.readers - {t})
      case AcquireUnique(next) => MoveTo(s, t, p.(stage := next)).(writer := Some(t))
      case ReleaseUnique(next) => MoveTo(s, t, p.(stage := next)).(writer := None)
      case Decide(a, next) => Log(MoveTo(s, t, p.(stage := next, answer := Some(a))), Take(t, p.op, a))
      case Aim(r, next) => MoveTo(s, t, p.(stage := next, ref := Some(r), era := s.era))
      case Fill(next) =>
        if p.op.obj in s.table
        then MoveTo(s, t, p.(stage := next, ref := Some(s.table[p.op.obj]), era := s.era))
        else
          var era := if Rehashes(s, p) then s.era + 1 else s.era;
          SetCell(MoveTo(s, t, p.(stage := next, ref := Some(s.nextRef), era := era)), s.nextRef, Cell(None, map[]))
            .(table := s.table[p.op.obj := s.nextRef], nextRef := s.nextRef + 1, era := era)
      case Lock(next) =>
        SetCell(MoveTo(s, t, p.(stage := next)), p.ref.value, s.cells[p.ref.value].(owner := Some(t)))
      case Unlock(next) =>
        SetCell(MoveTo(s, t, p.(stage := next)), p.ref.value, s.cells[p.ref.value].(owner := None))
      case Use(next) =>
        var (c, a) := Access(p.op, s.cells[p.ref.value].components);
        SetCell(Log(MoveTo(s, t, p.(stage := next, answer := Some(a))), Take(t, p.op, a)),
                p.ref.value, s.cells[p.ref.value].(components := c))
      case Erase(next) =>
        Log(MoveTo(s, t, p.(stage := next, answer := Some(Nothing))), Take(t, p.op, Nothing))
          .(table := s.table - {p.op.obj}, cells := s.cells - {p.ref.value})
      case Complete =>
        Log(MoveTo(s, t, Idle), Return(t, p.op, if p.answer.Some? then p.answer.value else Nothing))
  }

  /** What a call answers when find does not find the object. */
  function Absent(op: Op): Answer {
    if op.Read? then Found(None) else if op.Remove? then Flag(false) else Nothing
  }

  predicate ObjectIsFree(s: Store, p: Point)
    requires p.In?
  {
    !Stale(s, p) ==> s.cells[p.ref.value].owner.None?
  }

  /** The code of Read, both Write overloads, Remove and RemoveAll. */
  function Code(s: Store, t: ThreadId): Instr
    requires t in s.points && s.points[t].In?
  {
    var op := s.points[t].op;
    match s.points[t].stage
    case Start =>
      if Rejected(op) then Decide(Flag(false), Finish)
      else if op.RemoveAll? then AcquireUnique(AllFind)
      else AcquireShared(Find)
    case Find =>
      if op.obj in s.table then Aim(s.table[op.obj], LockObject)
      else if IsWrite(op) then ReleaseShared(Reopen)
      else Decide(Absent(op), LeaveShared)
    case LockObject => Lock(UseObject)
    case UseObject => Use(UnlockObject)
    case UnlockObject => Unlock(LeaveShared)
    case LeaveShared => ReleaseShared(Finish)
    case Reopen => AcquireUnique(FillSlot)
    case FillSlot => Fill(DropUnique)
    case DropUnique => ReleaseUnique(WindowLock)
    case WindowLock => Lock(WindowUse)
    case WindowUse => Use(WindowUnlock)
    case WindowUnlock => Unlock(Finish)
    case AllFind =>
      if op.obj in s.table then Aim(s.table[op.obj], AllLock) else Decide(Nothing, LeaveUnique)
    case AllLock => Lock(AllUnlock)
    case AllUnlock => Unlock(AllErase)
    case AllErase => Erase(LeaveUnique)
    case LeaveUnique => ReleaseUnique(Finish)
    case Finish => Complete
  }

  /** The next step of t is enabled: a lock it wants is free. */
  predicate CanRun(s: Store, t: ThreadId) {
    t in s.points && s.points[t].In? &&
    match Code(s, t)
    case AcquireShared(_) => s.writer.None?
    case AcquireUnique(_) => s.writer.None? && s.readers == {}
    case Lock(_) => ObjectIsFree(s, s.points[t])
    case _ => true
  }

  function Run(s: Store, t: ThreadId): (r: Store)
    requires CanRun(s, t)
    ensures t in r.points && r.points == s.points[t := r.points[t]]
  {
    Exec(s, t, Code(s, t))
  }

  /** An idle thread calls an operation. */
  predicate CanCall(s: Store, t: ThreadId) {
    t in s.points && s.points[t].Idle?
  }

  function Call(s: Store, t: ThreadId, op: Op): Store
    requires CanCall(s, t)
  {
    s.(points := s.points[t := In(op, Start, None, 0, None)], log := s.log + [Invoke(t, op)])
  }

  /** A schedule: calls by idle threads and steps of running ones, in any order. */
  datatype Move = Begin(t: ThreadId, op: Op) | Advance(t: ThreadId)

  predicate CanMove(s: Store, m: Move) {
    match m
    case Begin(t, _) => CanCall(s, t)
    case Advance(t) => CanRun(s, t)
  }

  function Do(s: Store, m: Move): (r: Store)
    requires CanMove(s, m)
    ensures m.t in r.points && r.points == s.points[m.t := r.points[m.t]]
  {
    match m
    case Begin(t, op) => Call(s, t, op)
    case Advance(t) => Run(s, t)
  }

  predicate CanMoves(s: Store, moves: seq<Move>)
    decreases |moves|
  {
    moves == [] || (CanMove(s, moves[0]) && CanMoves(Do(s, moves[0]), moves[1..]))
  }

  function DoAll(s: Store, moves: seq<Move>): Store
    requires CanMoves(s, moves)
    decreases |moves|
  {
    if moves == [] then s else DoAll(Do(s, moves[0]), moves[1..])
  }
}
