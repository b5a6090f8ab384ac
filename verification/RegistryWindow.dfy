/** The window of the store is open to registry calls too. Destroy releases the registry lock
    before it removes the components (object_registry.cpp:38-54), so a Destroy that got that far
    can erase the components of a new object of the same id while a migration function writes
    them for the first time. */
module RegistryWindow {
  import opened Basics
  import opened Locks
  import opened RegistrySpec
  import opened RegistryMachine
  import Window = StorageWindow

  ghost predicate Reachable(threads: set<ThreadId>, s: Sys) {
    exists moves: seq<Move> :: CanMoves(Init(threads, {}), moves) && DoAll(Init(threads, {}), moves) == s
  }

  lemma {:induction false} OneMore(s: Sys, moves: seq<Move>, m: Move)
    requires CanMoves(s, moves) && CanMove(DoAll(s, moves), m)
    ensures CanMoves(s, moves + [m]) && DoAll(s, moves + [m]) == Do(DoAll(s, moves), m)
    decreases |moves|
  {
    hide CanMove, Do;
    var more := moves + [m];
    if moves == [] {
      assert more[1..] == [] && more[0] == m;
      assert CanMoves(Do(s, m), []);
    } else {
      OneMore(Do(s, moves[0]), moves[1..], m);
      assert more[0] == moves[0] && more[1..] == moves[1..] + [m];
    }
  }

  lemma ReachStep(threads: set<ThreadId>, s: Sys, m: Move)
    requires Reachable(threads, s) && CanMove(s, m)
    ensures Reachable(threads, Do(s, m))
  {
    hide CanMove, Do;
    var moves: seq<Move> :| CanMoves(Init(threads, {}), moves) && DoAll(Init(threads, {}), moves) == s;
    OneMore(Init(threads, {}), moves, m);
  }

  /** t executes its next instruction. */
  lemma Go(threads: set<ThreadId>, s: Sys, t: ThreadId, c: Choice, i: Instr) returns (s': Sys)
    requires Reachable(threads, s) && t in s.tasks && s.tasks[t].Doing? && i == Code(s, t, c) && Enabled(s, t, i)
    ensures Reachable(threads, s') && s' == Exec(s, t, i)
  {
    hide Reachable, Exec, Code, Enabled;
    s' := Do(s, Advance(t, c));
    ReachStep(threads, s, Advance(t, c));
  }

  /** An instruction that only moves on. */
  lemma GoOn(threads: set<ThreadId>, s: Sys, t: ThreadId, next: Stage) returns (s': Sys)
    requires Reachable(threads, s) && t in s.tasks && s.tasks[t].Doing? && Code(s, t, NO_CHOICE) == GoTo(next)
    ensures Reachable(threads, s') && s' == SetTask(s, t, s.tasks[t].(stage := next))
  {
    hide Reachable, Code;
    s' := Go(threads, s, t, NO_CHOICE, GoTo(next));
  }

  lemma GoEngine(threads: set<ThreadId>, s: Sys, t: ThreadId, next: Stage) returns (s': Sys)
    requires Reachable(threads, s) && t in s.tasks && s.tasks[t].Doing? && CanLock(s.engine, false)
    requires Code(s, t, NO_CHOICE) == LockEngine(false, next)
    ensures Reachable(threads, s')
    ensures s' == SetTask(s, t, s.tasks[t].(stage := next)).(engine := Locked(s.engine, t, false))
  {
    hide Reachable, Code, CanLock, Locked;
    s' := Go(threads, s, t, NO_CHOICE, LockEngine(false, next));
  }

  lemma StartCall(threads: set<ThreadId>, s: Sys, t: ThreadId, call: Call) returns (s': Sys)
    requires Reachable(threads, s) && t in s.tasks && s.tasks[t].Rest?
    ensures Reachable(threads, s')
    ensures s' == SetTask(s, t, Doing(call, FirstStage(call), NO_HEADER, NO_HEADER, 0, false))
  {
    hide Reachable;
    s' := Do(s, Start(t, call));
    ReachStep(threads, s, Start(t, call));
  }

  const FREE := RwLock({}, None)

  lemma LockingIsUndone(t: ThreadId, unique: bool)
    ensures CanLock(FREE, unique) && Unlocked(Locked(FREE, t, unique), t) == FREE
  {
  }

  /** Nobody holds any registry or engine lock. */
  predicate AllFree(s: Sys) {
    s.registry == FREE && s.engine == FREE
  }

  /** t rests again, other tasks and the store are as before. */
  ghost predicate OthersSame(s: Sys, s': Sys, t: ThreadId) {
    s'.store == s.store && forall u :: u in s.tasks && u != t ==> u in s'.tasks && s'.tasks[u] == s.tasks[u]
  }

  /** t releases the one lock it holds and ends its call. */
  lemma Leaves(threads: set<ThreadId>, s: Sys, t: ThreadId) returns (s': Sys)
    requires Reachable(threads, s) && t in s.tasks && s.tasks[t].Doing?
    requires (s.tasks[t].stage.LeaveUnique? && s.registry == Locked(FREE, t, true) && s.engine == FREE) ||
             (s.tasks[t].stage.RegisterLeave? && s.engine == Locked(FREE, t, true) && s.registry == FREE)
    ensures Reachable(threads, s') && t in s'.tasks && s'.tasks[t].Rest? && AllFree(s') && OthersSame(s, s', t)
    ensures s'.entries == s.entries && s'.functions == s.functions
  {
    hide Reachable;
    LockingIsUndone(t, true);
    hide Locked, Unlocked, CanLock;
    var i := if s.tasks[t].stage.LeaveUnique? then UnlockRegistry(Done) else UnlockEngine(Done);
    s' := Go(threads, s, t, NO_CHOICE, i);
    s' := Go(threads, s', t, NO_CHOICE, Finish);
  }

  lemma CreateRuns(threads: set<ThreadId>, s: Sys, t: ThreadId, h: Header) returns (s': Sys)
    requires Reachable(threads, s) && t in s.tasks && s.tasks[t].Rest? && AllFree(s)
    ensures Reachable(threads, s') && t in s'.tasks && s'.tasks[t].Rest? && AllFree(s') && OthersSame(s, s', t)
    ensures s'.entries == s.entries[h.id := Entry(None, h)] && s'.functions == s.functions
  {
    hide Reachable;
    LockingIsUndone(t, true);
    hide Locked, Unlocked, CanLock;
    s' := StartCall(threads, s, t, Create(h));
    s' := Go(threads, s', t, NO_CHOICE, LockRegistry(true, CreateInsert));
    s' := Go(threads, s', t, NO_CHOICE, Insert(LeaveUnique));
    s' := Leaves(threads, s', t);
  }

  lemma RegisterRuns(threads: set<ThreadId>, s: Sys, t: ThreadId, from: U32, to: U32) returns (s': Sys)
    requires Reachable(threads, s) && t in s.tasks && s.tasks[t].Rest? && AllFree(s)
    ensures Reachable(threads, s') && t in s'.tasks && s'.tasks[t].Rest? && AllFree(s') && OthersSame(s, s', t)
    ensures s'.entries == s.entries && s'.functions == s.functions + {(from, to)}
  {
    hide Reachable;
    LockingIsUndone(t, true);
    hide Locked, Unlocked, CanLock;
    s' := StartCall(threads, s, t, Register(from, to));
    s' := Go(threads, s', t, NO_CHOICE, LockEngine(true, RegisterInsert));
    s' := Go(threads, s', t, NO_CHOICE, AddFunction(RegisterLeave));
    s' := Leaves(threads, s', t);
  }

  /** Destroy up to where it has released the registry lock. */
  lemma DestroyErases(threads: set<ThreadId>, s: Sys, t: ThreadId, id: ObjectId) returns (s': Sys)
    requires Reachable(threads, s) && t in s.tasks && s.tasks[t].Rest? && AllFree(s)
    requires id in s.entries && s.entries[id].owner.None?
    ensures Reachable(threads, s') && AllFree(s') && OthersSame(s, s', t)
    ensures t in s'.tasks && s'.tasks[t].Doing? && s'.tasks[t].call == Destroy(id) && s'.tasks[t].stage.DestroyRemove?
    ensures s'.functions == s.functions
  {
    hide Reachable;
    LockingIsUndone(t, true);
    hide Locked, Unlocked, CanLock;
    s' := StartCall(threads, s, t, Destroy(id));
    s' := Go(threads, s', t, NO_CHOICE, LockRegistry(true, DestroyFind));
    s' := Go(threads, s', t, NO_CHOICE, GoTo(DestroyLock));
    s' := Go(threads, s', t, NO_CHOICE, LockEntry(DestroyUnlock));
    s' := Go(threads, s', t, NO_CHOICE, UnlockEntry(DestroyErase));
    s' := Go(threads, s', t, NO_CHOICE, Erase(DestroyLeave));
    s' := Go(threads, s', t, NO_CHOICE, UnlockRegistry(DestroyRemove));
  }

  /** Migrate up to where it has found the entry. */
  lemma MigrateFinds(threads: set<ThreadId>, s: Sys, t: ThreadId, id: ObjectId) returns (s': Sys)
    requires Reachable(threads, s) && t in s.tasks && s.tasks[t].Rest? && AllFree(s) && id in s.entries
    ensures Reachable(threads, s') && OthersSame(s, s', t) && s'.engine == FREE && s'.functions == s.functions
    ensures t in s'.tasks && s'.tasks[t] == Doing(Migrate(id, 1), MigrateLock, NO_HEADER, NO_HEADER, 0, false)
    ensures s'.entries == s.entries
  {
    hide Reachable;
    LockingIsUndone(t, false);
    hide Locked, Unlocked, CanLock;
    s' := StartCall(threads, s, t, Migrate(id, 1));
    s' := Go(threads, s', t, NO_CHOICE, LockRegistry(false, MigrateFind));
    s' := GoOn(threads, s', t, MigrateLock);
  }

  lemma MigrateLocks(threads: set<ThreadId>, s: Sys, t: ThreadId, id: ObjectId) returns (s': Sys)
    requires Reachable(threads, s) && t in s.tasks && s.tasks[t].Rest? && AllFree(s)
    requires id in s.entries && s.entries[id].owner.None?
    ensures Reachable(threads, s') && OthersSame(s, s', t) && s'.engine == FREE && s'.functions == s.functions
    ensures t in s'.tasks && s'.tasks[t] == Doing(Migrate(id, 1), MigrateView, NO_HEADER, NO_HEADER, 0, false)
    ensures id in s'.entries && s'.entries[id].header == s.entries[id].header
  {
    hide Reachable;
    s' := MigrateFinds(threads, s, t, id);
    s' := Go(threads, s', t, NO_CHOICE, LockEntry(MigrateView));
  }

  /** The view of an object of version 0, and the loop up to the engine. */
  lemma MigrateViews(threads: set<ThreadId>, s: Sys, t: ThreadId, id: ObjectId) returns (s': Sys)
    requires Reachable(threads, s) && t in s.tasks
    requires s.tasks[t] == Doing(Migrate(id, 1), MigrateView, NO_HEADER, NO_HEADER, 0, false)
    requires id in s.entries && s.entries[id].header.version == 0
    ensures Reachable(threads, s') && OthersSame(s, s', t) && s'.engine == s.engine && s'.functions == s.functions
    ensures var h := s.entries[id].header;
            t in s'.tasks && s'.tasks[t] == Doing(Migrate(id, 1), EngineStart, h, h, 0, false)
  {
    hide Reachable;
    s' := Go(threads, s, t, NO_CHOICE, View(MigrateLoop));
    s' := GoOn(threads, s', t, EngineStart);
  }

  /** And on to its migration function. */
  lemma MigrateRunsFunction(threads: set<ThreadId>, s: Sys, t: ThreadId, id: ObjectId, h: Header) returns (s': Sys)
    requires Reachable(threads, s) && t in s.tasks && s.tasks[t] == Doing(Migrate(id, 1), EngineStart, h, h, 0, false)
    requires s.engine == FREE && (0, 1) in s.functions
    ensures Reachable(threads, s') && OthersSame(s, s', t)
    ensures t in s'.tasks && s'.tasks[t] == Doing(Migrate(id, 1), FuncRun, h, h, 0, false)
  {
    hide Reachable;
    LockingIsUndone(t, false);
    hide Locked, Unlocked, CanLock;
    s' := GoEngine(threads, s, t, EngineFind);
    s' := GoOn(threads, s', t, EngineLeave);
    s' := Go(threads, s', t, NO_CHOICE, UnlockEngine(FuncRun));
  }

  /** t takes the next step of the storage operation it is in. */
  lemma StoreStep(threads: set<ThreadId>, s: Sys, t: ThreadId, st': Machine.Store) returns (s': Sys)
    requires Reachable(threads, s) && t in s.tasks && s.tasks[t].Doing? && InStorage(s.tasks[t].stage)
    requires Window.To(s.store, t, st')
    ensures Reachable(threads, s') && s'.store == st' && s'.tasks == s.tasks
  {
    hide Reachable, Machine.Run, Machine.Code;
    assert !Machine.CanCall(s.store, t);
    s' := Go(threads, s, t, NO_CHOICE, Await(if s.tasks[t].stage.FuncWait? then FuncRun else Done));
    assert s.tasks[t := s.tasks[t]] == s.tasks;
  }

  /** The migration function of t writes the object, up to its window. */
  lemma FunctionWrites(threads: set<ThreadId>, s: Sys, t: ThreadId, u: ThreadId, w: Spec.Op) returns (s': Sys)
    requires Reachable(threads, s) && t != u && w.Write? && s.store == Machine.Init({t, u}, {})
    requires t in s.tasks && s.tasks[t].Doing? && s.tasks[t].stage.FuncRun?
    ensures Reachable(threads, s') && s'.store == Window.Filled(t, u, w, Machine.WindowLock, None, {})
    ensures s'.tasks == s.tasks[t := s.tasks[t].(stage := FuncWait)]
  {
    s' := Go(threads, s, t, Touch(w), Begin(w, FuncWait));
    hide Reachable, Window.To;
    assert s'.store == Window.Early(t, u, w, Machine.Start, {}, None, {});
    Window.StartStep(t, u, w, {});
    Window.MissStep(t, u, w, {});
    Window.ReopenStep(t, u, w, {});
    Window.FillStep(t, u, w, {});
    Window.DropStep(t, u, w, {});
    s' := StoreStep(threads, s', t, Window.Early(t, u, w, Machine.Find, {t}, None, {}));
    s' := StoreStep(threads, s', t, Window.Early(t, u, w, Machine.Reopen, {}, None, {}));
    s' := StoreStep(threads, s', t, Window.Early(t, u, w, Machine.FillSlot, {}, Some(t), {}));
    s' := StoreStep(threads, s', t, Window.Filled(t, u, w, Machine.DropUnique, Some(t), {}));
    s' := StoreStep(threads, s', t, Window.Filled(t, u, w, Machine.WindowLock, None, {}));
  }

  /** The Destroy of u goes on and erases the object under t's feet. */
  lemma DestroyRemoves(threads: set<ThreadId>, s: Sys, t: ThreadId, u: ThreadId, w: Spec.Op) returns (s': Sys)
    requires Reachable(threads, s) && t != u && w.Write?
    requires s.store == Window.Filled(t, u, w, Machine.WindowLock, None, {})
    requires u in s.tasks && s.tasks[u].Doing? && s.tasks[u].call == Destroy(w.obj) && s.tasks[u].stage.DestroyRemove?
    ensures Reachable(threads, s') && s'.store == Window.Removing(t, u, w, Machine.Start, None, None, None)
    ensures s'.tasks == s.tasks[u := s.tasks[u].(stage := StorageWait)]
  {
    hide Reachable;
    s' := Go(threads, s, u, NO_CHOICE, Begin(Spec.RemoveAll(w.obj), StorageWait));
  }

  lemma RemoverErases(threads: set<ThreadId>, s: Sys, t: ThreadId, u: ThreadId, w: Spec.Op) returns (s': Sys)
    requires Reachable(threads, s) && t != u && w.Write?
    requires s.store == Window.Removing(t, u, w, Machine.Start, None, None, None)
    requires t in s.tasks && s.tasks[t].Doing? && s.tasks[t].stage.FuncWait?
    requires u in s.tasks && s.tasks[u].Doing? && s.tasks[u].stage.StorageWait?
    ensures Reachable(threads, s') && s'.tasks == s.tasks
    ensures t in s'.store.points && s'.store.points[t] == Machine.Undefined(w, None)
  {
    hide Reachable, Window.To, Window.Removing;
    Window.RemoverLocks(t, u, w);
    Window.RemoverUnlocks(t, u, w);
    Window.RemoverIsReady(t, u, w);
    var erased := Window.RemoverErases(t, u, w);
    var crashed := Window.WriterCrashes(erased, t, w);
    s' := StoreStep(threads, s, u, Window.Removing(t, u, w, Machine.AllFind, None, Some(u), None));
    s' := StoreStep(threads, s', u, Window.Removing(t, u, w, Machine.AllLock, Some(0), Some(u), None));
    s' := StoreStep(threads, s', u, Window.Removing(t, u, w, Machine.AllUnlock, Some(0), Some(u), Some(u)));
    s' := StoreStep(threads, s', u, Window.Removing(t, u, w, Machine.AllErase, Some(0), Some(u), None));
    s' := StoreStep(threads, s', u, erased);
    s' := StoreStep(threads, s', t, crashed);
  }

  /** t creates the object, u starts to destroy it, t creates it again and migrates it. */
  lemma RaceStarts(t: ThreadId, u: ThreadId, h: Header) returns (s: Sys)
    requires t != u && h.version == 0
    ensures Reachable({t, u}, s) && s.store == Machine.Init({t, u}, {})
    ensures t in s.tasks && s.tasks[t] == Doing(Migrate(h.id, 1), FuncRun, h, h, 0, false)
    ensures u in s.tasks && s.tasks[u].Doing? && s.tasks[u].call == Destroy(h.id) && s.tasks[u].stage.DestroyRemove?
  {
    s := Init({t, u}, {});
    assert CanMoves(s, []) && DoAll(s, []) == s;
    assert Reachable({t, u}, s);
    hide Reachable;
    s := CreateRuns({t, u}, s, t, h);
    s := RegisterRuns({t, u}, s, t, 0, 1);
    s := DestroyErases({t, u}, s, u, h.id);
    s := CreateRuns({t, u}, s, t, h);
    s := MigrateLocks({t, u}, s, t, h.id);
    s := MigrateViews({t, u}, s, t, h.id);
    s := MigrateRunsFunction({t, u}, s, t, h.id, h);
  }

  /** Two threads that only make registry calls reach undefined behaviour: one creates an object,
      creates it again while the other destroys it, and migrates it with a function that writes a
      component. */
  lemma RegistryWindowIsReal(t: ThreadId, u: ThreadId, w: Spec.Op, h: Header)
    requires t != u && w.Write? && h.id == w.obj && h.version == 0
    ensures exists s :: Reachable({t, u}, s) && t in s.tasks && u in s.tasks &&
                        s.tasks[t].Doing? && s.tasks[u].Doing? &&
                        s.tasks[t].call == Migrate(h.id, 1) && s.tasks[u].call == Destroy(h.id) &&
                        t in s.store.points && s.store.points[t] == Machine.Undefined(w, None)
  {
    hide Reachable;
    var s := RaceStarts(t, u, h);
    s := FunctionWrites({t, u}, s, t, u, w);
    s := DestroyRemoves({t, u}, s, t, u, w);
    s := RemoverErases({t, u}, s, t, u, w);
  }
}
