/** The window of component_storage.cpp:31-34 is real: two schedules that drive a slow-path Write
    into undefined behaviour. In one a RemoveAll erases its object in between; in the other the
    first Write of another object rehashes the table. */
module StorageWindow {
  import opened Basics
  import opened Histories
  import opened StorageSpec
  import opened StorageMachine

  ghost predicate Reachable(threads: set<ThreadId>, rehashing: set<CellRef>, s: Store) {
    exists moves: seq<Move> :: CanMoves(Init(threads, rehashing), moves) && DoAll(Init(threads, rehashing), moves) == s
  }

  lemma {:induction false} OneMore(s: Store, moves: seq<Move>, m: Move)
    requires CanMoves(s, moves) && CanMove(DoAll(s, moves), m)
    ensures CanMoves(s, moves + [m]) && DoAll(s, moves + [m]) == Do(DoAll(s, moves), m)
    decreases |moves|
  {
    var more := moves + [m];
    if moves == [] {
      assert more[1..] == [];
      assert CanMoves(Do(s, m), []);
    } else {
      OneMore(Do(s, moves[0]), moves[1..], m);
      assert more[0] == moves[0] && more[1..] == moves[1..] + [m];
    }
  }

  lemma ReachStep(threads: set<ThreadId>, rehashing: set<CellRef>, s: Store, m: Move)
    requires Reachable(threads, rehashing, s) && CanMove(s, m)
    ensures Reachable(threads, rehashing, Do(s, m))
  {
    var moves: seq<Move> :| CanMoves(Init(threads, rehashing), moves) && DoAll(Init(threads, rehashing), moves) == s;
    OneMore(Init(threads, rehashing), moves, m);
  }

  /** The next step of t leads from s to s'. */
  ghost predicate To(s: Store, t: ThreadId, s': Store) {
    CanRun(s, t) && Run(s, t) == s'
  }

  lemma Step(threads: set<ThreadId>, s: Store, t: ThreadId, s': Store)
    requires Reachable(threads, s.rehashing, s) && To(s, t, s')
    ensures Reachable(threads, s.rehashing, s')
  {
    hide Reachable, CanRun, Run;
    assert Do(s, Advance(t)) == s';
    ReachStep(threads, s.rehashing, s, Advance(t));
  }

  /** The threads t and u at the points p and q. */
  function Two(t: ThreadId, p: Point, u: ThreadId, q: Point, readers: set<ThreadId>, writer: Option<ThreadId>,
               table: map<ObjectId, CellRef>, cells: map<CellRef, Cell>, rehashing: set<CellRef>,
               log: seq<StorageEvent>): Store
  {
    Store(readers, writer, table, cells, |table|, 0, rehashing, map[t := p, u := q], log)
  }

  /** t writes its object first, while u rests. */
  function Early(t: ThreadId, u: ThreadId, w: Op, stage: Stage, readers: set<ThreadId>, writer: Option<ThreadId>,
                 rehashing: set<CellRef>): Store
  {
    Two(t, In(w, stage, None, 0, None), u, Idle, readers, writer, map[], map[], rehashing, [Invoke(t, w)])
  }

  /** The slot is filled. */
  function Filled(t: ThreadId, u: ThreadId, w: Op, stage: Stage, writer: Option<ThreadId>,
                  rehashing: set<CellRef>): Store {
    Two(t, In(w, stage, Some(0), 0, None), u, Idle, {}, writer,
        map[w.obj := 0], map[0 := Cell(None, map[])], rehashing, [Invoke(t, w)])
  }

  // The common path of a first Write up to the slow path.

  lemma StartStep(t: ThreadId, u: ThreadId, w: Op, rehashing: set<CellRef>)
    requires t != u && w.Write?
    ensures To(Early(t, u, w, Start, {}, None, rehashing), t, Early(t, u, w, Find, {t}, None, rehashing))
  {
  }

  lemma MissStep(t: ThreadId, u: ThreadId, w: Op, rehashing: set<CellRef>)
    requires t != u && w.Write?
    ensures To(Early(t, u, w, Find, {t}, None, rehashing), t, Early(t, u, w, Reopen, {}, None, rehashing))
  {
    assert {t} - {t} == {};
  }

  lemma ReopenStep(t: ThreadId, u: ThreadId, w: Op, rehashing: set<CellRef>)
    requires t != u && w.Write?
    ensures To(Early(t, u, w, Reopen, {}, None, rehashing), t, Early(t, u, w, FillSlot, {}, Some(t), rehashing))
  {
    var s, s' := Early(t, u, w, Reopen, {}, None, rehashing), Early(t, u, w, FillSlot, {}, Some(t), rehashing);
    assert Code(s, t) == AcquireUnique(FillSlot);
    hide Code;
    assert s.points[t := s'.points[t]] == s'.points;
  }

  lemma FillStep(t: ThreadId, u: ThreadId, w: Op, rehashing: set<CellRef>)
    requires t != u && w.Write? && 0 !in rehashing
    ensures To(Early(t, u, w, FillSlot, {}, Some(t), rehashing), t, Filled(t, u, w, DropUnique, Some(t), rehashing))
  {
  }

  lemma DropStep(t: ThreadId, u: ThreadId, w: Op, rehashing: set<CellRef>)
    requires t != u && w.Write? && 0 !in rehashing
    ensures To(Filled(t, u, w, DropUnique, Some(t), rehashing), t, Filled(t, u, w, WindowLock, None, rehashing))
  {
    var s, s' := Filled(t, u, w, DropUnique, Some(t), rehashing), Filled(t, u, w, WindowLock, None, rehashing);
    assert Code(s, t) == ReleaseUnique(WindowLock);
    hide Code;
    assert s.points[t := s'.points[t]] == s'.points;
  }

  lemma WriterReachesWindow(t: ThreadId, u: ThreadId, w: Op, rehashing: set<CellRef>)
    requires t != u && w.Write? && 0 !in rehashing
    ensures Reachable({t, u}, rehashing, Filled(t, u, w, WindowLock, None, rehashing))
  {
    var s0 := Init({t, u}, rehashing);
    assert CanMoves(s0, []) && DoAll(s0, []) == s0;
    assert Reachable({t, u}, rehashing, s0);
    hide Reachable, CanMoves, DoAll, To;
    assert Do(s0, Begin(t, w)) == Early(t, u, w, Start, {}, None, rehashing);
    ReachStep({t, u}, rehashing, s0, Begin(t, w));
    StartStep(t, u, w, rehashing);
    MissStep(t, u, w, rehashing);
    ReopenStep(t, u, w, rehashing);
    FillStep(t, u, w, rehashing);
    DropStep(t, u, w, rehashing);
    Step({t, u}, Early(t, u, w, Start, {}, None, rehashing), t, Early(t, u, w, Find, {t}, None, rehashing));
    Step({t, u}, Early(t, u, w, Find, {t}, None, rehashing), t, Early(t, u, w, Reopen, {}, None, rehashing));
    Step({t, u}, Early(t, u, w, Reopen, {}, None, rehashing), t, Early(t, u, w, FillSlot, {}, Some(t), rehashing));
    Step({t, u}, Early(t, u, w, FillSlot, {}, Some(t), rehashing), t, Filled(t, u, w, DropUnique, Some(t), rehashing));
    Step({t, u}, Filled(t, u, w, DropUnique, Some(t), rehashing), t, Filled(t, u, w, WindowLock, None, rehashing));
  }

  /** t waits in the window while u runs another call. */
  function Late(t: ThreadId, u: ThreadId, w: Op, x: Op, stage: Stage, ref: Option<CellRef>, readers: set<ThreadId>,
                writer: Option<ThreadId>, owner: Option<ThreadId>, rehashing: set<CellRef>): Store
  {
    Two(t, In(w, WindowLock, Some(0), 0, None), u, In(x, stage, ref, 0, None), readers, writer,
        map[w.obj := 0], map[0 := Cell(owner, map[])], rehashing, [Invoke(t, w), Invoke(u, x)])
  }

  lemma SecondStarts(t: ThreadId, u: ThreadId, w: Op, x: Op, rehashing: set<CellRef>)
    requires t != u && w.Write? && 0 !in rehashing
    ensures Reachable({t, u}, rehashing, Late(t, u, w, x, Start, None, {}, None, None, rehashing))
  {
    hide Reachable;
    WriterReachesWindow(t, u, w, rehashing);
    var s0 := Filled(t, u, w, WindowLock, None, rehashing);
    assert Do(s0, Begin(u, x)) == Late(t, u, w, x, Start, None, {}, None, None, rehashing);
    ReachStep({t, u}, rehashing, s0, Begin(u, x));
  }

  /** RemoveAll of the object t is about to write, up to its erase. */
  function Removing(t: ThreadId, u: ThreadId, w: Op, stage: Stage, ref: Option<CellRef>, writer: Option<ThreadId>,
                    owner: Option<ThreadId>): Store
    requires w.Write?
  {
    Late(t, u, w, RemoveAll(w.obj), stage, ref, {}, writer, owner, {})
  }

  lemma RemoverLocks(t: ThreadId, u: ThreadId, w: Op)
    requires t != u && w.Write?
    ensures To(Removing(t, u, w, Start, None, None, None), u, Removing(t, u, w, AllFind, None, Some(u), None))
    ensures To(Removing(t, u, w, AllFind, None, Some(u), None), u, Removing(t, u, w, AllLock, Some(0), Some(u), None))
  {
  }

  lemma RemoverUnlocks(t: ThreadId, u: ThreadId, w: Op)
    requires t != u && w.Write?
    ensures To(Removing(t, u, w, AllLock, Some(0), Some(u), None), u,
               Removing(t, u, w, AllUnlock, Some(0), Some(u), Some(u)))
  {
    var s := Removing(t, u, w, AllLock, Some(0), Some(u), None);
    var s' := Removing(t, u, w, AllUnlock, Some(0), Some(u), Some(u));
    assert s.points[u := s'.points[u]] == s'.points && s.cells[0 := s'.cells[0]] == s'.cells;
  }

  lemma RemoverIsReady(t: ThreadId, u: ThreadId, w: Op)
    requires t != u && w.Write?
    ensures To(Removing(t, u, w, AllUnlock, Some(0), Some(u), Some(u)), u,
               Removing(t, u, w, AllErase, Some(0), Some(u), None))
  {
    var s := Removing(t, u, w, AllUnlock, Some(0), Some(u), Some(u));
    var s' := Removing(t, u, w, AllErase, Some(0), Some(u), None);
    assert s.points[u := s'.points[u]] == s'.points && s.cells[0 := s'.cells[0]] == s'.cells;
  }

  lemma RemoverErases(t: ThreadId, u: ThreadId, w: Op) returns (s: Store)
    requires t != u && w.Write?
    ensures To(Removing(t, u, w, AllErase, Some(0), Some(u), None), u, s)
    ensures t in s.points && s.points[t] == In(w, WindowLock, Some(0), 0, None) && 0 !in s.cells
  {
    s := Run(Removing(t, u, w, AllErase, Some(0), Some(u), None), u);
  }

  /** The next step of a Write in the window with a stale iterator. */
  lemma WriterCrashes(s: Store, t: ThreadId, w: Op) returns (s': Store)
    requires t in s.points && s.points[t] == In(w, WindowLock, Some(0), 0, None)
    requires 0 !in s.cells || s.era != 0
    ensures To(s, t, s') && t in s'.points && s'.points[t] == Undefined(w, None) && s'.log == s.log
  {
    s' := Run(s, t);
  }

  /** RemoveAll erases the object, and the next step of the Write is undefined; no insertion
      rehashes the table. */
  lemma WindowIsReal(t: ThreadId, u: ThreadId, w: Op)
    requires t != u && w.Write?
    ensures exists s :: Reachable({t, u}, {}, s) && t in s.points && s.points[t] == Undefined(w, None)
  {
    hide Reachable, To;
    SecondStarts(t, u, w, RemoveAll(w.obj), {});
    RemoverLocks(t, u, w);
    RemoverUnlocks(t, u, w);
    RemoverIsReady(t, u, w);
    var erased := RemoverErases(t, u, w);
    var crashed := WriterCrashes(erased, t, w);
    Step({t, u}, Removing(t, u, w, Start, None, None, None), u, Removing(t, u, w, AllFind, None, Some(u), None));
    Step({t, u}, Removing(t, u, w, AllFind, None, Some(u), None), u,
        Removing(t, u, w, AllLock, Some(0), Some(u), None));
    Step({t, u}, Removing(t, u, w, AllLock, Some(0), Some(u), None), u,
         Removing(t, u, w, AllUnlock, Some(0), Some(u), Some(u)));
    Step({t, u}, Removing(t, u, w, AllUnlock, Some(0), Some(u), Some(u)), u,
         Removing(t, u, w, AllErase, Some(0), Some(u), None));
    Step({t, u}, Removing(t, u, w, AllErase, Some(0), Some(u), None), u, erased);
    SameRehashing(Removing(t, u, w, AllErase, Some(0), Some(u), None), u, erased);
    Step({t, u}, erased, t, crashed);
  }

  lemma SameRehashing(s: Store, t: ThreadId, s': Store)
    requires To(s, t, s')
    ensures s'.rehashing == s.rehashing
  {
  }

  // The first Write of a second object up to the filling of its slot.

  lemma SecondMisses(t: ThreadId, u: ThreadId, w: Op, x: Op)
    requires t != u && w.Write? && x.Write? && w.obj != x.obj
    ensures To(Late(t, u, w, x, Start, None, {}, None, None, {1}), u,
            Late(t, u, w, x, Find, None, {u}, None, None, {1}))
    ensures To(Late(t, u, w, x, Find, None, {u}, None, None, {1}), u,
            Late(t, u, w, x, Reopen, None, {}, None, None, {1}))
  {
    assert {u} - {u} == {};
  }

  lemma SecondReopens(t: ThreadId, u: ThreadId, w: Op, x: Op)
    requires t != u && w.Write? && x.Write? && w.obj != x.obj
    ensures To(Late(t, u, w, x, Reopen, None, {}, None, None, {1}), u,
               Late(t, u, w, x, FillSlot, None, {}, Some(u), None, {1}))
  {
  }

  lemma SecondWriterFills(t: ThreadId, u: ThreadId, w: Op, x: Op) returns (s: Store)
    requires t != u && w.Write? && x.Write? && w.obj != x.obj
    ensures To(Late(t, u, w, x, FillSlot, None, {}, Some(u), None, {1}), u, s)
    ensures t in s.points && s.points[t] == In(w, WindowLock, Some(0), 0, None) && s.era == 1
    ensures s.log == [Invoke(t, w), Invoke(u, x)]
  {
    s := Run(Late(t, u, w, x, FillSlot, None, {}, Some(u), None, {1}), u);
  }

  /** The first Write of another object rehashes the table, and the next step of the Write that
      waits in the window is undefined; nothing is ever removed. */
  lemma RehashIsReal(t: ThreadId, u: ThreadId, w: Op, x: Op)
    requires t != u && w.Write? && x.Write? && w.obj != x.obj
    ensures exists s :: Reachable({t, u}, {1}, s) && t in s.points && s.points[t] == Undefined(w, None) &&
                        s.log == [Invoke(t, w), Invoke(u, x)]
  {
    hide Reachable, To;
    SecondStarts(t, u, w, x, {1});
    SecondMisses(t, u, w, x);
    SecondReopens(t, u, w, x);
    var filled := SecondWriterFills(t, u, w, x);
    var crashed := WriterCrashes(filled, t, w);
    var s3 := Late(t, u, w, x, FillSlot, None, {}, Some(u), None, {1});
    Step({t, u}, Late(t, u, w, x, Start, None, {}, None, None, {1}), u,
        Late(t, u, w, x, Find, None, {u}, None, None, {1}));
    Step({t, u}, Late(t, u, w, x, Find, None, {u}, None, None, {1}), u,
        Late(t, u, w, x, Reopen, None, {}, None, None, {1}));
    Step({t, u}, Late(t, u, w, x, Reopen, None, {}, None, None, {1}), u, s3);
    Step({t, u}, s3, u, filled);
    SameRehashing(s3, u, filled);
    Step({t, u}, filled, t, crashed);
  }
}
