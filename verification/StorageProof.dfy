/** The component store refines an atomic map, for any number of threads and any schedule. */
module StorageProof {
  import opened Basics
  import opened Histories
  import opened Locks
  import opened StorageSpec
  import opened StorageMachine

  type Points = map<ThreadId, Point>
  type Table = map<ObjectId, CellRef>
  type Cells = map<CellRef, Cell>

  /** Who holds the map lock. */
  ghost predicate MapLockInv(readers: set<ThreadId>, writer: Option<ThreadId>, points: Points) {
    RwInv(RwLock(readers, writer), MapModes(points))
  }

  /** Who holds the object mutexes. */
  ghost predicate CellLockInv(cells: Cells, points: Points) {
    (forall r :: r in cells && cells[r].owner.Some? ==>
                   cells[r].owner.value in points && HeldCell(points[cells[r].owner.value]) == Some(r)) &&
    (forall t :: t in points && HeldCell(points[t]).Some? && HeldCell(points[t]).value in cells ==>
                   cells[HeldCell(points[t]).value].owner == Some(t))
  }

  /** The table is injective onto the live cells. */
  ghost predicate TableInv(table: Table, cells: Cells, nextRef: CellRef) {
    (forall o :: o in table ==> table[o] in cells) &&
    (forall o, p :: o in table && p in table && table[o] == table[p] ==> o == p) &&
    (forall r :: r in cells ==> r < nextRef)
  }

  predicate NeedsRef(stage: Stage) {
    HoldsObject(stage) || stage.LockObject? || stage.DropUnique? || stage.WindowLock? ||
    stage.AllLock? || stage.AllErase?
  }

  predicate Decided(stage: Stage) {
    stage.UnlockObject? || stage.LeaveShared? || stage.WindowUnlock? || stage.LeaveUnique? || stage.Finish?
  }

  /** The stages of RemoveAll, of the slow path of Write, and of the common path. */
  predicate RightOp(op: Op, stage: Stage) {
    match stage
    case Start => true
    case LeaveShared => true
    case UnlockObject => true
    case WindowUnlock => true
    case LeaveUnique => true
    case Finish => true
    case Find => !op.RemoveAll? && !Rejected(op)
    case LockObject => !op.RemoveAll? && !Rejected(op)
    case UseObject => !op.RemoveAll? && !Rejected(op)
    case AllFind => op.RemoveAll?
    case AllLock => op.RemoveAll?
    case AllUnlock => op.RemoveAll?
    case AllErase => op.RemoveAll?
    case _ => IsWrite(op) && !Rejected(op)
  }

  /** An iterator is never reused, is right as long as its object is live, and its object is
      live as long as the thread has the map lock. */
  ghost predicate RefInv(table: Table, live: set<CellRef>, nextRef: CellRef, p: Point)
    requires p.In?
  {
    (NeedsRef(p.stage) ==> p.ref.Some?) &&
    (p.ref.Some? ==>
       p.ref.value < nextRef &&
       (p.ref.value in live ==> p.op.obj in table && table[p.op.obj] == p.ref.value)) &&
    (NeedsRef(p.stage) && !InWindow(p) ==> p.ref.value in live)
  }

  ghost predicate PointInv(table: Table, live: set<CellRef>, nextRef: CellRef, p: Point) {
    (p.In? ==>
       RightOp(p.op, p.stage) && (Decided(p.stage) <==> p.answer.Some?) && RefInv(table, live, nextRef, p)) &&
    (HeldCell(p).Some? ==> HeldCell(p).value < nextRef)
  }

  /** No rehash passes by a thread that has the map lock. */
  ghost predicate EraOk(era: nat, p: Point) {
    p.In? && NeedsRef(p.stage) && !InWindow(p) ==> p.era == era
  }

  ghost predicate ErasInv(era: nat, points: Points) {
    forall t :: t in points ==> EraOk(era, points[t])
  }

  ghost predicate PointsInv(table: Table, live: set<CellRef>, nextRef: CellRef, points: Points) {
    forall t :: t in points ==> PointInv(table, live, nextRef, points[t])
  }

  function CellLookup(table: Table, cells: Cells, o: ObjectId, ty: ComponentType): Option<ComponentData> {
    if o in table && table[o] in cells && ty in cells[table[o]].components
    then Some(cells[table[o]].components[ty])
    else None
  }

  /** The concrete store shows exactly the abstract map m. */
  ghost predicate Shows(table: Table, cells: Cells, m: Contents) {
    forall o, ty :: CellLookup(table, cells, o, ty) == Lookup(m, o, ty)
  }

  /** What the history must say about a thread at this point. */
  function PhaseAt(p: Point): Phase<Op, Answer> {
    match p
    case Idle => Quiet
    case Undefined(op, _) => Pending(op)
    case In(op, _, _, _, a) => if a.Some? then Taken(op, a.value) else Pending(op)
  }

  ghost predicate PhasesInv(log: seq<StorageEvent>, points: Points) {
    forall t :: PhaseOf(log, t) != Broken &&
                (t in points && !points[t].Undefined? ==> PhaseOf(log, t) == PhaseAt(points[t]))
  }

  ghost predicate LocksInv(s: Store) {
    MapLockInv(s.readers, s.writer, s.points) && CellLockInv(s.cells, s.points)
  }

  ghost predicate ShapeInv(s: Store) {
    TableInv(s.table, s.cells, s.nextRef) && PointsInv(s.table, s.cells.Keys, s.nextRef, s.points) &&
    ErasInv(s.era, s.points)
  }

  ghost predicate LogInv(s: Store) {
    Legal(s.log) && Shows(s.table, s.cells, Replay(s.log)) && PhasesInv(s.log, s.points)
  }

  ghost predicate Inv(s: Store) {
    LocksInv(s) && ShapeInv(s) && LogInv(s)
  }

  ghost predicate NextPointInv(s: Store, p: Point) {
    PointInv(s.table, s.cells.Keys, s.nextRef, p) && EraOk(s.era, p)
  }

  lemma InitInv(threads: set<ThreadId>, rehashing: set<CellRef>)
    ensures Inv(Init(threads, rehashing))
  {
  }

  // How each part of the invariant survives a change of one thread's point.

  lemma SameMode(readers: set<ThreadId>, writer: Option<ThreadId>, points: Points, t: ThreadId, p: Point)
    requires MapLockInv(readers, writer, points) && t in points
    requires ModeAt(p) == ModeAt(points[t])
    ensures MapLockInv(readers, writer, points[t := p])
  {
  }

  function MapModes(points: Points): Modes { map t | t in points :: ModeAt(points[t]) }

  lemma AcquireMap(readers: set<ThreadId>, writer: Option<ThreadId>, points: Points, t: ThreadId, p: Point,
                   unique: bool)
    requires MapLockInv(readers, writer, points) && t in points && ModeAt(points[t]).Free?
    requires ModeAt(p) == ModeFor(unique)
    requires CanLock(RwLock(readers, writer), unique)
    ensures unique ==> MapLockInv(readers, Some(t), points[t := p])
    ensures !unique ==> MapLockInv(readers + {t}, writer, points[t := p])
  {
    RwLockKeeps(RwLock(readers, writer), MapModes(points), t, unique);
    assert MapModes(points[t := p]) == MapModes(points)[t := ModeFor(unique)];
  }

  lemma ReleaseMap(readers: set<ThreadId>, writer: Option<ThreadId>, points: Points, t: ThreadId, p: Point)
    requires MapLockInv(readers, writer, points) && t in points && ModeAt(p).Free?
    ensures ModeAt(points[t]).Unique? ==> MapLockInv(readers, None, points[t := p])
    ensures ModeAt(points[t]).Shared? ==> MapLockInv(readers - {t}, writer, points[t := p])
  {
    RwUnlockKeeps(RwLock(readers, writer), MapModes(points), t);
    assert MapModes(points)[t] == ModeAt(points[t]);
    assert MapModes(points[t := p]) == MapModes(points)[t := Free];
    if ModeAt(points[t]).Unique? {
      assert readers - {t} == readers;
    }
  }

  lemma OthersAreFree(readers: set<ThreadId>, writer: Option<ThreadId>, points: Points, t: ThreadId)
    requires MapLockInv(readers, writer, points) && t in points && ModeAt(points[t]).Unique?
    ensures forall u :: u in points && u != t ==> ModeAt(points[u]).Free?
  {
    assert MapModes(points)[t].Unique?;
    forall u | u in points && u != t ensures ModeAt(points[u]).Free? {
      assert MapModes(points)[u] == ModeAt(points[u]);
    }
  }

  lemma SameCell(cells: Cells, points: Points, t: ThreadId, p: Point)
    requires CellLockInv(cells, points) && t in points
    requires HeldCell(p) == HeldCell(points[t])
    ensures CellLockInv(cells, points[t := p])
  {
  }

  lemma SamePhase(log: seq<StorageEvent>, points: Points, t: ThreadId, p: Point)
    requires PhasesInv(log, points) && t in points
    requires points[t].In? && p.In? && p.op == points[t].op && p.answer == points[t].answer
    ensures PhasesInv(log, points[t := p])
  {
  }

  lemma NewPhase(log: seq<StorageEvent>, points: Points, t: ThreadId, e: StorageEvent, p: Point)
    requires PhasesInv(log, points) && t in points && e.thread == t
    requires !points[t].Undefined? && PhaseAfter(PhaseAt(points[t]), e) == PhaseAt(p) && !p.Undefined?
    ensures PhasesInv(log + [e], points[t := p])
  {
    Extend(log, e);
  }

  // The instructions. Sound says when executing one is right; ExecKeeps that it then keeps
  // the invariant; CodeIsSound that the code of the operations only executes sound ones.

  ghost predicate Plain(s: Store, t: ThreadId, next: Stage)
    requires t in s.points && s.points[t].In?
  {
    HeldCell(s.points[t]).None? && !HoldsObject(next) && NextPointInv(s, s.points[t].(stage := next))
  }

  ghost predicate Sound(s: Store, t: ThreadId, i: Instr)
    requires t in s.points && s.points[t].In?
  {
    var p := s.points[t];
    var m := Replay(s.log);
    if Misuses(s, p, i) then ModeAt(p).Free?
    else match i
      case AcquireShared(next) => ModeAt(p).Free? && MapMode(next).Shared? && Plain(s, t, next) && s.writer.None?
      case ReleaseShared(next) => ModeAt(p).Shared? && MapMode(next).Free? && Plain(s, t, next)
      case AcquireUnique(next) =>
        ModeAt(p).Free? && MapMode(next).Unique? && Plain(s, t, next) && s.writer.None? && s.readers == {}
      case ReleaseUnique(next) => ModeAt(p).Unique? && MapMode(next).Free? && Plain(s, t, next)
      case Decide(a, next) =>
        MapMode(next) == ModeAt(p) && HeldCell(p).None? && !HoldsObject(next) && p.answer.None? &&
        NextPointInv(s, p.(stage := next, answer := Some(a))) && Apply(p.op, m) == (m, a)
      case Aim(r, next) =>
        MapMode(next) == ModeAt(p) && HeldCell(p).None? && !HoldsObject(next) &&
        NextPointInv(s, p.(stage := next, ref := Some(r), era := s.era))
      case Fill(next) =>
        ModeAt(p).Unique? && MapMode(next).Unique? && HeldCell(p).None? && !HoldsObject(next) &&
        p.answer.None? && !Decided(next) && RightOp(p.op, next)
      case Lock(next) =>
        MapMode(next) == ModeAt(p) && HeldCell(p).None? && HoldsObject(next) &&
        s.cells[p.ref.value].owner.None? && NextPointInv(s, p.(stage := next))
      case Unlock(next) =>
        MapMode(next) == ModeAt(p) && HeldCell(p).Some? && !HoldsObject(next) && NextPointInv(s, p.(stage := next))
      case Use(next) =>
        MapMode(next) == ModeAt(p) && HeldCell(p).Some? && HoldsObject(next) && p.answer.None? &&
        !p.op.RemoveAll? && !Rejected(p.op) && NextPointInv(s, p.(stage := next, answer := Some(Nothing)))
      case Erase(next) =>
        ModeAt(p).Unique? && MapMode(next).Unique? && HeldCell(p).None? && !HoldsObject(next) && p.answer.None? &&
        p.op.RemoveAll? && Decided(next) && RightOp(p.op, next) && !NeedsRef(next)
      case Complete => ModeAt(p).Free? && HeldCell(p).None? && p.answer.Some?
  }

  /** A step that only changes the holders of the map lock. */
  lemma MapLockStepKeeps(s: Store, t: ThreadId, p: Point, s': Store)
    requires Inv(s) && t in s.points && s.points[t].In? && p.In? && HeldCell(s.points[t]).None? && HeldCell(p).None?
    requires p == s.points[t].(stage := p.stage) && NextPointInv(s, p)
    requires s' == s.(points := s.points[t := p], readers := s'.readers, writer := s'.writer)
    requires MapLockInv(s'.readers, s'.writer, s'.points)
    ensures Inv(s')
  {
    hide MapLockInv, Legal, Replay, Shows, PhaseOf, TableInv;
    SameCell(s.cells, s.points, t, p);
    SamePhase(s.log, s.points, t, p);
  }

  lemma AcquireKeeps(s: Store, t: ThreadId, i: Instr)
    requires Inv(s) && t in s.points && s.points[t].In? && Sound(s, t, i)
    requires i.AcquireShared? || i.AcquireUnique?
    ensures Inv(Exec(s, t, i))
  {
    var p := s.points[t].(stage := i.next);
    hide ShapeInv, LogInv, CellLockInv, MapLockInv, PointInv, RwInv;
    AcquireMap(s.readers, s.writer, s.points, t, p, i.AcquireUnique?);
    MapLockStepKeeps(s, t, p, Exec(s, t, i));
  }

  lemma ReleaseKeeps(s: Store, t: ThreadId, i: Instr)
    requires Inv(s) && t in s.points && s.points[t].In? && Sound(s, t, i)
    requires i.ReleaseShared? || i.ReleaseUnique?
    ensures Inv(Exec(s, t, i))
  {
    var p := s.points[t].(stage := i.next);
    hide ShapeInv, LogInv, CellLockInv, MapLockInv, PointInv, RwInv;
    ReleaseMap(s.readers, s.writer, s.points, t, p);
    MapLockStepKeeps(s, t, p, Exec(s, t, i));
  }

  lemma DecideKeeps(s: Store, t: ThreadId, i: Instr)
    requires Inv(s) && t in s.points && s.points[t].In? && Sound(s, t, i) && i.Decide?
    ensures Inv(Exec(s, t, i))
  {
    var p := s.points[t].(stage := i.next, answer := Some(i.answer));
    OthersKeep(s, t, p, Exec(s, t, i));
    hide RwInv, PhaseOf, CellLookup, ShapeInv, LocksInv, PointInv, EraOk;
    Extend(s.log, Take(t, p.op, i.answer));
    NewPhase(s.log, s.points, t, Take(t, p.op, i.answer), p);
  }

  lemma AimKeeps(s: Store, t: ThreadId, i: Instr)
    requires Inv(s) && t in s.points && s.points[t].In? && Sound(s, t, i) && i.Aim?
    ensures Inv(Exec(s, t, i))
  {
    var p := s.points[t].(stage := i.next, ref := Some(i.ref), era := s.era);
    SameMode(s.readers, s.writer, s.points, t, p);
    SameCell(s.cells, s.points, t, p);
    SamePhase(s.log, s.points, t, p);
  }

  lemma FillKeeps(s: Store, t: ThreadId, i: Instr)
    requires Inv(s) && t in s.points && s.points[t].In? && Sound(s, t, i) && i.Fill?
    ensures Inv(Exec(s, t, i))
  {
    hide RwInv, PhaseOf;
    var o := s.points[t].op.obj;
    var p := Exec(s, t, i).points[t];
    SameMode(s.readers, s.writer, s.points, t, p);
    SamePhase(s.log, s.points, t, p);
    if o in s.table {
      SameCell(s.cells, s.points, t, p);
    } else {
      InsertShape(s, t, p);
      InsertCellLock(s, t, p);
      FillEras(s, t, p, Exec(s, t, i).era);
      InsertShows(s, o);
      hide TableInv, PointInv, Shows, MapLockInv, CellLockInv, EraOk;
    }
  }

  /** A rehash happens under the unique map lock, so it only leaves iterators in a window behind. */
  lemma FillEras(s: Store, t: ThreadId, p: Point, era: nat)
    requires MapLockInv(s.readers, s.writer, s.points) && ErasInv(s.era, s.points)
    requires t in s.points && ModeAt(s.points[t]).Unique? && EraOk(era, p)
    ensures ErasInv(era, s.points[t := p])
  {
    OthersAreFree(s.readers, s.writer, s.points, t);
  }

  lemma InsertShape(s: Store, t: ThreadId, p: Point)
    requires ShapeInv(s) && t in s.points && p.In? && p.op.obj !in s.table
    requires !Decided(p.stage) && p.answer.None? && RightOp(p.op, p.stage) && p.ref == Some(s.nextRef)
    ensures TableInv(s.table[p.op.obj := s.nextRef], s.cells[s.nextRef := Cell(None, map[])], s.nextRef + 1)
    ensures PointsInv(s.table[p.op.obj := s.nextRef], s.cells[s.nextRef := Cell(None, map[])].Keys,
                      s.nextRef + 1, s.points[t := p])
  {
    forall u | u in s.points && u != t
      ensures PointInv(s.table[p.op.obj := s.nextRef], s.cells[s.nextRef := Cell(None, map[])].Keys,
                       s.nextRef + 1, s.points[u])
    {
      assert PointInv(s.table, s.cells.Keys, s.nextRef, s.points[u]);
    }
  }

  lemma InsertCellLock(s: Store, t: ThreadId, p: Point)
    requires CellLockInv(s.cells, s.points) && ShapeInv(s) && t in s.points
    requires HeldCell(s.points[t]).None? && HeldCell(p).None?
    ensures CellLockInv(s.cells[s.nextRef := Cell(None, map[])], s.points[t := p])
  {
    forall u | u in s.points && u != t && HeldCell(s.points[u]).Some?
      ensures HeldCell(s.points[u]).value != s.nextRef
    {
      assert PointInv(s.table, s.cells.Keys, s.nextRef, s.points[u]);
    }
  }

  lemma InsertShows(s: Store, o: ObjectId)
    requires TableInv(s.table, s.cells, s.nextRef) && o !in s.table && Shows(s.table, s.cells, Replay(s.log))
    ensures Shows(s.table[o := s.nextRef], s.cells[s.nextRef := Cell(None, map[])], Replay(s.log))
  {
    var table', cells' := s.table[o := s.nextRef], s.cells[s.nextRef := Cell(None, map[])];
    forall q, ty ensures CellLookup(table', cells', q, ty) == Lookup(Replay(s.log), q, ty) {
      assert CellLookup(s.table, s.cells, q, ty) == Lookup(Replay(s.log), q, ty);
    }
  }

  /** Locking or unlocking a live object mutex. */
  lemma LockOrUnlockKeeps(s: Store, t: ThreadId, i: Instr)
    requires Inv(s) && t in s.points && s.points[t].In? && Sound(s, t, i) && (i.Lock? || i.Unlock?)
    requires !Misuses(s, s.points[t], i)
    ensures Inv(Exec(s, t, i))
  {
    var p := s.points[t].(stage := i.next);
    var c := s.cells[p.ref.value].(owner := if i.Lock? then Some(t) else None);
    SameMode(s.readers, s.writer, s.points, t, p);
    SamePhase(s.log, s.points, t, p);
    OwnerCellLock(s, t, p, c);
    OwnerShows(s, p.ref.value, c);
    assert s.cells[p.ref.value := c].Keys == s.cells.Keys;
  }

  lemma OwnerCellLock(s: Store, t: ThreadId, p: Point, c: Cell)
    requires CellLockInv(s.cells, s.points) && t in s.points && s.points[t].In?
    requires p.In? && p.ref == s.points[t].ref && !Dead(s, p)
    requires if HeldCell(p).Some?
             then c.owner == Some(t) && HeldCell(s.points[t]).None? && s.cells[p.ref.value].owner.None?
             else c.owner.None? && HeldCell(s.points[t]).Some?
    ensures CellLockInv(s.cells[p.ref.value := c], s.points[t := p])
  {
  }

  lemma OwnerShows(s: Store, r: CellRef, c: Cell)
    requires r in s.cells && c.components == s.cells[r].components
    requires Shows(s.table, s.cells, Replay(s.log))
    ensures Shows(s.table, s.cells[r := c], Replay(s.log))
  {
    forall o, ty ensures CellLookup(s.table, s.cells[r := c], o, ty) == Lookup(Replay(s.log), o, ty) {
      assert CellLookup(s.table, s.cells, o, ty) == Lookup(Replay(s.log), o, ty);
    }
  }

  /** The critical section of a call on its own, live object. */
  lemma UseKeeps(s: Store, t: ThreadId, i: Instr)
    requires Inv(s) && t in s.points && s.points[t].In? && Sound(s, t, i) && i.Use?
    requires !Stale(s, s.points[t])
    ensures Inv(Exec(s, t, i))
  {
    var p := s.points[t];
    var (c, a) := Access(p.op, s.cells[p.ref.value].components);
    var p' := p.(stage := i.next, answer := Some(a));
    var s' := Exec(s, t, i);
    assert PointInv(s.table, s.cells.Keys, s.nextRef, p) && NextPointInv(s, p');
    UseLog(s, t, p', p.ref.value, s');
    hide Replay, Legal, PhaseOf, CellLookup, RwInv;
    OthersKeep(s, t, p', s');
  }

  /** The effect on history and contents. */
  lemma UseLog(s: Store, t: ThreadId, p': Point, r: CellRef, s': Store)
    requires TableInv(s.table, s.cells, s.nextRef) && LogInv(s) && t in s.points && s.points[t].In?
    requires var p := s.points[t];
             p.op.obj in s.table && s.table[p.op.obj] == r && !p.op.RemoveAll? && !Rejected(p.op) && p.answer.None?
    requires var p := s.points[t]; var (c, a) := Access(p.op, s.cells[r].components);
             p'.In? && p' == p.(stage := p'.stage, answer := Some(a)) &&
             s'.points == s.points[t := p'] && s'.table == s.table &&
             s'.cells == s.cells[r := s.cells[r].(components := c)] && s'.log == s.log + [Take(t, p.op, a)]
    ensures LogInv(s')
  {
    hide CellLookup;
    var p := s.points[t];
    var (c, a) := Access(p.op, s.cells[r].components);
    UseShows(s, p.op, r);
    Extend(s.log, Take(t, p.op, a));
    NewPhase(s.log, s.points, t, Take(t, p.op, a), p');
  }

  /** Locks, table and iterators stay as they are. */
  lemma OthersKeep(s: Store, t: ThreadId, p': Point, s': Store)
    requires LocksInv(s) && ShapeInv(s) && t in s.points
    requires ModeAt(p') == ModeAt(s.points[t]) && HeldCell(p') == HeldCell(s.points[t]) && NextPointInv(s, p')
    requires s' == s.(points := s.points[t := p'], cells := s'.cells, log := s'.log)
    requires s'.cells.Keys == s.cells.Keys && forall r :: r in s.cells ==> s'.cells[r].owner == s.cells[r].owner
    ensures LocksInv(s') && ShapeInv(s')
  {
    hide RwInv;
    SameMode(s.readers, s.writer, s.points, t, p');
    SameCell(s.cells, s.points, t, p');
    SameOwners(s.cells, s'.cells, s'.points);
  }

  lemma SameOwners(cells: Cells, cells': Cells, points: Points)
    requires CellLockInv(cells, points) && cells'.Keys <= cells.Keys
    requires forall r :: r in cells' ==> cells'[r].owner == cells[r].owner
    ensures CellLockInv(cells', points)
  {
  }

  lemma UseShows(s: Store, op: Op, r: CellRef)
    requires TableInv(s.table, s.cells, s.nextRef) && Shows(s.table, s.cells, Replay(s.log))
    requires op.obj in s.table && s.table[op.obj] == r && !op.RemoveAll? && !Rejected(op)
    ensures var (c, a) := Access(op, s.cells[r].components);
            Shows(s.table, s.cells[r := s.cells[r].(components := c)], Apply(op, Replay(s.log)).0) &&
            a == Apply(op, Replay(s.log)).1
  {
    var (c, a) := Access(op, s.cells[r].components);
    var m, cells' := Replay(s.log), s.cells[r := s.cells[r].(components := c)];
    assert CellLookup(s.table, s.cells, op.obj, op.ty) == Lookup(m, op.obj, op.ty);
    forall o, ty ensures CellLookup(s.table, cells', o, ty) == Lookup(Apply(op, m).0, o, ty) {
      assert CellLookup(s.table, s.cells, o, ty) == Lookup(m, o, ty);
    }
  }

  lemma EraseKeeps(s: Store, t: ThreadId, i: Instr)
    requires Inv(s) && t in s.points && s.points[t].In? && Sound(s, t, i) && i.Erase?
    requires !Stale(s, s.points[t])
    ensures Inv(Exec(s, t, i))
  {
    hide RwInv, PhaseOf;
    var p := s.points[t];
    var p' := p.(stage := i.next, answer := Some(Nothing));
    assert PointInv(s.table, s.cells.Keys, s.nextRef, p);
    SameMode(s.readers, s.writer, s.points, t, p');
    Extend(s.log, Take(t, p.op, Nothing));
    NewPhase(s.log, s.points, t, Take(t, p.op, Nothing), p');
    SameCell(s.cells, s.points, t, p');
    SameOwners(s.cells, s.cells - {p.ref.value}, s.points[t := p']);
    EraseShape(s, t, p');
    EraseShows(s, p.op, p.ref.value);
  }

  lemma EraseShape(s: Store, t: ThreadId, p: Point)
    requires MapLockInv(s.readers, s.writer, s.points) && ShapeInv(s)
    requires t in s.points && s.points[t].In? && !Stale(s, s.points[t]) && ModeAt(s.points[t]).Unique?
    requires p.In? && p.op == s.points[t].op && p.ref == s.points[t].ref && p.answer.Some?
    requires Decided(p.stage) && RightOp(p.op, p.stage) && !NeedsRef(p.stage)
    ensures TableInv(s.table - {p.op.obj}, s.cells - {p.ref.value}, s.nextRef)
    ensures PointsInv(s.table - {p.op.obj}, (s.cells - {p.ref.value}).Keys, s.nextRef, s.points[t := p])
  {
    assert PointInv(s.table, s.cells.Keys, s.nextRef, s.points[t]);
    OthersAreFree(s.readers, s.writer, s.points, t);
    forall u | u in s.points && u != t
      ensures PointInv(s.table - {p.op.obj}, (s.cells - {p.ref.value}).Keys, s.nextRef, s.points[u])
    {
      assert PointInv(s.table, s.cells.Keys, s.nextRef, s.points[u]);
    }
  }

  lemma EraseShows(s: Store, op: Op, r: CellRef)
    requires TableInv(s.table, s.cells, s.nextRef) && Shows(s.table, s.cells, Replay(s.log))
    requires op.RemoveAll? && op.obj in s.table && s.table[op.obj] == r
    ensures Shows(s.table - {op.obj}, s.cells - {r}, Apply(op, Replay(s.log)).0)
  {
    var m := Replay(s.log);
    forall o, ty ensures CellLookup(s.table - {op.obj}, s.cells - {r}, o, ty) == Lookup(Apply(op, m).0, o, ty) {
      assert CellLookup(s.table, s.cells, o, ty) == Lookup(m, o, ty);
    }
  }

  lemma CompleteKeeps(s: Store, t: ThreadId, i: Instr)
    requires Inv(s) && t in s.points && s.points[t].In? && Sound(s, t, i) && i.Complete?
    ensures Inv(Exec(s, t, i))
  {
    var e := Return(t, s.points[t].op, s.points[t].answer.value);
    OthersKeep(s, t, Idle, Exec(s, t, i));
    hide RwInv, PhaseOf, CellLookup, ShapeInv, LocksInv, PointInv, EraOk;
    Extend(s.log, e);
    NewPhase(s.log, s.points, t, e, Idle);
  }

  lemma CrashKeeps(s: Store, t: ThreadId, i: Instr)
    requires Inv(s) && t in s.points && s.points[t].In? && Sound(s, t, i)
    requires Misuses(s, s.points[t], i)
    ensures Inv(Exec(s, t, i))
  {
    var p := Undefined(s.points[t].op, HeldCell(s.points[t]));
    SameMode(s.readers, s.writer, s.points, t, p);
    SameCell(s.cells, s.points, t, p);
    assert PointInv(s.table, s.cells.Keys, s.nextRef, s.points[t]);
  }

  lemma UsersOfTheIterator(s: Store, p: Point, i: Instr)
    requires p.In? && !Misuses(s, p, i)
    ensures i.Use? || i.Erase? ==> !Stale(s, p)
  {
  }

  lemma ExecKeeps(s: Store, t: ThreadId, i: Instr)
    requires Inv(s) && t in s.points && s.points[t].In? && Sound(s, t, i)
    ensures Inv(Exec(s, t, i))
  {
    hide *;
    if Misuses(s, s.points[t], i) {
      CrashKeeps(s, t, i);
    } else {
      UsersOfTheIterator(s, s.points[t], i);
      match i {
        case AcquireShared(_) => AcquireKeeps(s, t, i);
        case ReleaseShared(_) => ReleaseKeeps(s, t, i);
        case AcquireUnique(_) => AcquireKeeps(s, t, i);
        case ReleaseUnique(_) => ReleaseKeeps(s, t, i);
        case Decide(_, _) => DecideKeeps(s, t, i);
        case Aim(_, _) => AimKeeps(s, t, i);
        case Fill(_) => FillKeeps(s, t, i);
        case Lock(_) => LockOrUnlockKeeps(s, t, i);
        case Unlock(_) => LockOrUnlockKeeps(s, t, i);
        case Use(_) => UseKeeps(s, t, i);
        case Erase(_) => EraseKeeps(s, t, i);
        case Complete => CompleteKeeps(s, t, i);
      }
    }
  }

  lemma CallKeeps(s: Store, t: ThreadId, op: Op)
    requires Inv(s) && CanCall(s, t)
    ensures Inv(Call(s, t, op))
  {
    var p, e := In(op, Start, None, 0, None), Invoke(t, op);
    OthersKeep(s, t, p, Call(s, t, op));
    hide RwInv, PhaseOf, CellLookup, ShapeInv, LocksInv, PointInv, EraOk;
    Extend(s.log, e);
    NewPhase(s.log, s.points, t, e, p);
  }

  /** What find answers for a missing object is what the atomic map answers. */
  lemma AbsentIsRight(s: Store, op: Op)
    requires Shows(s.table, s.cells, Replay(s.log)) && op.obj !in s.table && !IsWrite(op)
    ensures Apply(op, Replay(s.log)) == (Replay(s.log), Absent(op))
  {
    var m := Replay(s.log);
    forall k | k in m ensures k.0 != op.obj {
      assert CellLookup(s.table, s.cells, k.0, k.1) == Lookup(m, k.0, k.1);
    }
    if op.Read? || op.Remove? {
      assert (op.obj, op.ty) !in m;
    }
    assert Apply(op, m).0 == m;
  }

  /** All that the code relies on, about its own thread and object alone. */
  ghost predicate Facts(s: Store, t: ThreadId) {
    t in s.points && s.points[t].In? &&
    var p, m := s.points[t], Replay(s.log);
    NextPointInv(s, p) &&
    (p.op.obj in s.table ==> s.table[p.op.obj] in s.cells && s.table[p.op.obj] < s.nextRef) &&
    (p.op.obj !in s.table && !IsWrite(p.op) ==> Apply(p.op, m) == (m, Absent(p.op)))
  }

  lemma StartCodeIsSound(s: Store, t: ThreadId, i: Instr)
    requires Facts(s, t) && CanRun(s, t) && i == Code(s, t)
    requires s.points[t].stage.Start?
    ensures Sound(s, t, i)
  {
  }

  lemma FindCodeIsSound(s: Store, t: ThreadId, i: Instr)
    requires Facts(s, t) && CanRun(s, t) && i == Code(s, t)
    requires s.points[t].stage.Find?
    ensures Sound(s, t, i)
  {
  }

  lemma ObjectCodeIsSound(s: Store, t: ThreadId, i: Instr)
    requires Facts(s, t) && CanRun(s, t) && i == Code(s, t)
    requires s.points[t].stage.LockObject? || s.points[t].stage.UseObject? || s.points[t].stage.UnlockObject?
    ensures Sound(s, t, i)
  {
  }

  lemma SlowCodeIsSound(s: Store, t: ThreadId, i: Instr)
    requires Facts(s, t) && CanRun(s, t) && i == Code(s, t)
    requires s.points[t].stage.Reopen? || s.points[t].stage.FillSlot? || s.points[t].stage.DropUnique?
    ensures Sound(s, t, i)
  {
  }

  lemma WindowCodeIsSound(s: Store, t: ThreadId, i: Instr)
    requires Facts(s, t) && CanRun(s, t) && i == Code(s, t)
    requires s.points[t].stage.WindowLock? || s.points[t].stage.WindowUse? || s.points[t].stage.WindowUnlock?
    ensures Sound(s, t, i)
  {
  }

  lemma AllCodeIsSound(s: Store, t: ThreadId, i: Instr)
    requires Facts(s, t) && CanRun(s, t) && i == Code(s, t)
    requires s.points[t].stage.AllFind? || s.points[t].stage.AllLock? || s.points[t].stage.AllUnlock? ||
             s.points[t].stage.AllErase?
    ensures Sound(s, t, i)
  {
  }

  lemma LeaveCodeIsSound(s: Store, t: ThreadId, i: Instr)
    requires Facts(s, t) && CanRun(s, t) && i == Code(s, t)
    requires s.points[t].stage.LeaveShared? || s.points[t].stage.LeaveUnique? || s.points[t].stage.Finish?
    ensures Sound(s, t, i)
  {
  }

  lemma RunnerIsIn(s: Store, t: ThreadId)
    requires CanRun(s, t)
    ensures t in s.points && s.points[t].In? && Run(s, t) == Exec(s, t, Code(s, t))
  {
    hide Exec, Code;
  }

  lemma FactsHold(s: Store, t: ThreadId)
    requires Inv(s) && t in s.points && s.points[t].In?
    ensures Facts(s, t)
  {
    var p := s.points[t];
    assert PointInv(s.table, s.cells.Keys, s.nextRef, p);
    if p.op.obj !in s.table && !IsWrite(p.op) {
      AbsentIsRight(s, p.op);
    }
  }

  lemma CodeIsSound(s: Store, t: ThreadId)
    requires Inv(s) && CanRun(s, t)
    ensures Sound(s, t, Code(s, t))
  {
    hide *;
    RunnerIsIn(s, t);
    FactsHold(s, t);
    match s.points[t].stage {
      case Start => StartCodeIsSound(s, t, Code(s, t));
      case Find => FindCodeIsSound(s, t, Code(s, t));
      case LockObject => ObjectCodeIsSound(s, t, Code(s, t));
      case UseObject => ObjectCodeIsSound(s, t, Code(s, t));
      case UnlockObject => ObjectCodeIsSound(s, t, Code(s, t));
      case Reopen => SlowCodeIsSound(s, t, Code(s, t));
      case FillSlot => SlowCodeIsSound(s, t, Code(s, t));
      case DropUnique => SlowCodeIsSound(s, t, Code(s, t));
      case WindowLock => WindowCodeIsSound(s, t, Code(s, t));
      case WindowUse => WindowCodeIsSound(s, t, Code(s, t));
      case WindowUnlock => WindowCodeIsSound(s, t, Code(s, t));
      case AllFind => AllCodeIsSound(s, t, Code(s, t));
      case AllLock => AllCodeIsSound(s, t, Code(s, t));
      case AllUnlock => AllCodeIsSound(s, t, Code(s, t));
      case AllErase => AllCodeIsSound(s, t, Code(s, t));
      case LeaveShared => LeaveCodeIsSound(s, t, Code(s, t));
      case LeaveUnique => LeaveCodeIsSound(s, t, Code(s, t));
      case Finish => LeaveCodeIsSound(s, t, Code(s, t));
    }
  }

  lemma MoveKeeps(s: Store, m: Move)
    requires Inv(s) && CanMove(s, m)
    ensures Inv(Do(s, m))
  {
    hide Inv, Sound, Exec, Code;
    match m {
      case Begin(t, op) => CallKeeps(s, t, op);
      case Advance(t) =>
        CodeIsSound(s, t);
        ExecKeeps(s, t, Code(s, t));
    }
  }

  lemma {:induction false} MovesKeep(s: Store, moves: seq<Move>)
    requires Inv(s) && CanMoves(s, moves)
    ensures Inv(DoAll(s, moves))
    decreases |moves|
  {
    if moves != [] {
      MoveKeeps(s, moves[0]);
      MovesKeep(Do(s, moves[0]), moves[1..]);
    }
  }

  // Main results.

  /** After any schedule of any number of threads, whichever insertions rehash the table, the
      history so far is linearizable, and the store holds exactly what the atomic map holds
      after the calls that took effect. */
  lemma StoreIsLinearizable(threads: set<ThreadId>, rehashing: set<CellRef>, moves: seq<Move>)
    requires CanMoves(Init(threads, rehashing), moves)
    ensures var s := DoAll(Init(threads, rehashing), moves);
            Linearizable(s.log) && Shows(s.table, s.cells, Replay(s.log))
  {
    InitInv(threads, rehashing);
    MovesKeep(Init(threads, rehashing), moves);
  }

  lemma ExecLog(s: Store, t: ThreadId, i: Instr, s': Store)
    requires t in s.points && s.points[t].In? && s' == Exec(s, t, i)
    ensures s'.log == s.log || (|s'.log| == |s.log| + 1 && s'.log == s.log + [Last(s'.log)])
    ensures s'.log != s.log && Last(s'.log).Take? ==> Last(s'.log).thread == t && Last(s'.log).op == s.points[t].op
  {
    hide Access, Stale, Dead, Rehashes, HeldCell;
  }

  lemma LogGrowsByOne(s: Store, m: Move)
    requires CanMove(s, m)
    ensures var s' := Do(s, m);
            s'.log == s.log || (|s'.log| == |s.log| + 1 && s'.log == s.log + [Last(s'.log)])
    ensures var s' := Do(s, m);
            s'.log != s.log && Last(s'.log).Take? ==>
              m.Advance? && Last(s'.log).thread == m.t && Last(s'.log).op == s.points[m.t].op
  {
    hide Exec, Code;
    if m.Advance? {
      ExecLog(s, m.t, Code(s, m.t), Do(s, m));
    }
  }

  ghost predicate SameContents(s: Store, s': Store) {
    forall o, ty :: CellLookup(s'.table, s'.cells, o, ty) == CellLookup(s.table, s.cells, o, ty)
  }

  /** Filling the slot and every other step that is not the taking effect of the moving
      thread's own call leaves the abstract map alone: steps stutter or take. */
  lemma StepsStutterOrTake(s: Store, m: Move)
    requires Inv(s) && CanMove(s, m)
    ensures var s' := Do(s, m);
            if |s'.log| == |s.log| + 1 && Last(s'.log).Take?
            then m.Advance? && s'.log == s.log + [Last(s'.log)] && Last(s'.log).thread == m.t &&
                 Last(s'.log).op == s.points[m.t].op &&
                 Shows(s'.table, s'.cells, Apply(s.points[m.t].op, Replay(s.log)).0)
            else SameContents(s, s')
  {
    MoveKeeps(s, m);
    var s' := Do(s, m);
    LogGrowsByOne(s, m);
    if s'.log != s.log {
      Extend(s.log, Last(s'.log));
    }
    assert Shows(s.table, s.cells, Replay(s.log)) && Shows(s'.table, s'.cells, Replay(s'.log));
  }

  /** No thread has undefined behaviour, now or in its next step. */
  ghost predicate Defined(s: Store) {
    forall t :: t in s.points ==> DefinedAt(s, s.points[t])
  }

  ghost predicate DefinedAt(s: Store, p: Point) {
    !p.Undefined? && (InWindow(p) ==> !Dead(s, p)) && (WillUseIterator(p) ==> p.era == s.era)
  }

  /** A thread in a window that is no longer defined can step, and steps into undefined behaviour. */
  lemma DoomedIsNext(s: Store, t: ThreadId)
    requires t in s.points && s.points[t].In? && !DefinedAt(s, s.points[t])
    ensures CanRun(s, t) && Run(s, t).points[t].Undefined?
  {
  }

  /** Two obligations of the callers. A RemoveAll that is about to erase finds no slow-path Write
      of the same object in its window; and an insertion that is about to rehash finds no
      slow-path Write of any object that will still use its iterator there. */
  ghost predicate StepIsClear(s: Store, t: ThreadId) {
    t in s.points && s.points[t].In? ==>
      var p := s.points[t];
      (p.stage.AllErase? ==>
         forall u :: u in s.points && InWindow(s.points[u]) ==> s.points[u].op.obj != p.op.obj) &&
      (p.stage.FillSlot? && Rehashes(s, p) ==>
         forall u :: u in s.points ==> !WillUseIterator(s.points[u]))
  }

  ghost predicate MoveIsClear(s: Store, m: Move) {
    m.Advance? ==> StepIsClear(s, m.t)
  }

  /** The moving thread itself stays defined. */
  lemma MoverStaysDefined(s: Store, t: ThreadId, s': Store)
    requires Facts(s, t) && CanRun(s, t) && DefinedAt(s, s.points[t]) && s' == Run(s, t)
    ensures DefinedAt(s', s'.points[t])
  {
    assert NextPointInv(s, s.points[t]);
    assert !Code(s, t).Erase? ==> s.cells.Keys <= s'.cells.Keys;
  }

  /** What a step does to the objects alive and to the era. */
  lemma LiveAfter(s: Store, t: ThreadId, s': Store)
    requires Facts(s, t) && CanRun(s, t) && s' == Run(s, t)
    ensures if s.points[t].stage.AllErase?
            then !Stale(s, s.points[t]) && s'.cells.Keys == s.cells.Keys - {s.points[t].ref.value}
            else s.cells.Keys <= s'.cells.Keys
    ensures s'.era == if s.points[t].stage.FillSlot? && Rehashes(s, s.points[t]) then s.era + 1 else s.era
  {
    assert NextPointInv(s, s.points[t]);
    assert Code(s, t).Erase? <==> s.points[t].stage.AllErase?;
    assert Code(s, t).Fill? <==> s.points[t].stage.FillSlot?;
    hide Exec, Code, CanRun;
  }

  /** Two iterators of live objects are equal exactly when they are of the same object. */
  lemma SameObjectSameRef(s: Store, p: Point, q: Point)
    requires p.In? && q.In? && NextPointInv(s, p) && NextPointInv(s, q) && !Dead(s, p) && !Dead(s, q)
    ensures p.ref == q.ref ==> p.op.obj in s.table && q.op.obj in s.table && s.table[p.op.obj] == s.table[q.op.obj]
    ensures p.op.obj == q.op.obj ==> p.ref == q.ref
  {
    assert s.table[p.op.obj] == p.ref.value && s.table[q.op.obj] == q.ref.value;
  }

  /** After any schedule two slow-path writes of one object that is still alive for both have the
      same slot: the one the first of them filled serves both. */
  lemma RacingWritersShareSlot(threads: set<ThreadId>, rehashing: set<CellRef>, moves: seq<Move>, t: ThreadId,
                               u: ThreadId)
    requires CanMoves(Init(threads, rehashing), moves)
    requires var s := DoAll(Init(threads, rehashing), moves);
             t in s.points && u in s.points && InWindow(s.points[t]) && InWindow(s.points[u]) &&
             s.points[t].op.obj == s.points[u].op.obj && !Dead(s, s.points[t]) && !Dead(s, s.points[u])
    ensures var s := DoAll(Init(threads, rehashing), moves);
            s.points[t].ref == s.points[u].ref
  {
    InitInv(threads, rehashing);
    MovesKeep(Init(threads, rehashing), moves);
    var s := DoAll(Init(threads, rehashing), moves);
    assert NextPointInv(s, s.points[t]) && NextPointInv(s, s.points[u]);
    SameObjectSameRef(s, s.points[t], s.points[u]);
  }

  /** The two ways in which a step of t leaves another thread's point undefined. */
  ghost predicate Endangers(s: Store, t: ThreadId, q: Point)
    requires t in s.points && s.points[t].In?
  {
    var p := s.points[t];
    (p.stage.AllErase? && InWindow(q) && q.op.obj == p.op.obj) ||
    (p.stage.FillSlot? && Rehashes(s, p) && WillUseIterator(q))
  }

  lemma OtherStaysDefined(s: Store, t: ThreadId, u: ThreadId, s': Store)
    requires Inv(s) && t in s.points && s.points[t].In? && CanRun(s, t) && s' == Run(s, t)
    requires u in s.points && u != t && DefinedAt(s, s.points[u])
    ensures u in s'.points && s'.points[u] == s.points[u]
    ensures DefinedAt(s', s.points[u]) <==> !Endangers(s, t, s.points[u])
  {
    var p, q := s.points[t], s.points[u];
    FactsHold(s, t);
    LiveAfter(s, t, s');
    if InWindow(q) && p.stage.AllErase? {
      assert NextPointInv(s, q) && NextPointInv(s, p);
      SameObjectSameRef(s, p, q);
    }
    assert forall o, o' :: o in s.table && o' in s.table && s.table[o] == s.table[o'] ==> o == o';
    hide Inv, Facts, Run, Exec, Code, CanRun, NextPointInv;
  }

  /** Exactly when a step of a call keeps everything defined. */
  lemma RunIsDefinedIff(s: Store, t: ThreadId)
    requires Inv(s) && Defined(s) && CanRun(s, t)
    ensures Defined(Run(s, t)) <==> StepIsClear(s, t)
  {
    var s' := Run(s, t);
    RunnerIsIn(s, t);
    FactsHold(s, t);
    MoverStaysDefined(s, t, s');
    forall u | u in s.points && u != t
      ensures u in s'.points && s'.points[u] == s.points[u]
      ensures DefinedAt(s', s.points[u]) <==> !Endangers(s, t, s.points[u])
    {
      OtherStaysDefined(s, t, u, s');
    }
    hide Inv, Run, Exec, Code, Facts, CanRun, DefinedAt;
  }

  lemma CallIsDefined(s: Store, t: ThreadId, op: Op)
    requires Defined(s) && CanCall(s, t)
    ensures Defined(Call(s, t, op))
  {
  }

  /** Exactly when a move keeps everything defined. */
  lemma DefinedIffMoveIsClear(s: Store, m: Move)
    requires Inv(s) && Defined(s) && CanMove(s, m)
    ensures Defined(Do(s, m)) <==> MoveIsClear(s, m)
  {
    hide Inv, Defined, CanRun, Run, StepIsClear;
    match m {
      case Begin(t, op) => CallIsDefined(s, t, op);
      case Advance(t) => RunIsDefinedIff(s, t);
    }
  }

  /** The callers' obligations over a whole schedule. */
  ghost predicate MovesAreClear(s: Store, moves: seq<Move>)
    requires CanMoves(s, moves)
    decreases |moves|
  {
    moves == [] || (MoveIsClear(s, moves[0]) && MovesAreClear(Do(s, moves[0]), moves[1..]))
  }

  /** Defined in the state before every move of the schedule and after the last. */
  ghost predicate AlwaysDefined(s: Store, moves: seq<Move>)
    requires CanMoves(s, moves)
    decreases |moves|
  {
    Defined(s) && (moves == [] || AlwaysDefined(Do(s, moves[0]), moves[1..]))
  }

  lemma {:induction false} AlwaysDefinedIff(s: Store, moves: seq<Move>)
    requires Inv(s) && Defined(s) && CanMoves(s, moves)
    ensures AlwaysDefined(s, moves) <==> MovesAreClear(s, moves)
    decreases |moves|
  {
    if moves != [] {
      hide Inv, Defined, MoveIsClear, Do;
      MoveKeeps(s, moves[0]);
      DefinedIffMoveIsClear(s, moves[0]);
      if MoveIsClear(s, moves[0]) {
        AlwaysDefinedIff(Do(s, moves[0]), moves[1..]);
      }
    }
  }

  /** A schedule never gets near undefined behaviour if and only if no RemoveAll erases an object
      inside the window of a slow-path Write of it, and no insertion rehashes the table while a
      slow-path Write will still use its iterator. */
  lemma StoreIsDefinedIff(threads: set<ThreadId>, rehashing: set<CellRef>, moves: seq<Move>)
    requires CanMoves(Init(threads, rehashing), moves)
    ensures AlwaysDefined(Init(threads, rehashing), moves) <==> MovesAreClear(Init(threads, rehashing), moves)
  {
    InitInv(threads, rehashing);
    AlwaysDefinedIff(Init(threads, rehashing), moves);
  }
}
