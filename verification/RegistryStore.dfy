/** The storage operations that calls of the registry make under any schedule: Destroy removes the
    components of an object it erased, a migration function makes the operations it chooses, and a
    storage call makes its own. */
module RegistryStore {
  import opened Basics
  import opened Locks
  import opened RegistryMachine
  import opened RegistryProof
  import opened StorageSpec
  import D = RegistryDeadlock

  /** The storage operation the call of a thread has to make, since the store's history was so long. */
  datatype Wish = Wish(op: Option<Op>, since: nat)

  const NO_WISH := Wish(None, 0)

  /** The wish of t after one more move: from a storage call, from a Destroy that has erased its
      object, and from a migration function that wants to touch the store. */
  function WishAfter(s: Sys, m: Move, t: ThreadId, w: Wish): Wish
    requires CanMove(s, m)
  {
    if m.t != t then w
    else
      match m
      case Start(_, call) => if call.Storage? then Wish(Some(call.op), |s.store.log|) else NO_WISH
      case Advance(_, c) =>
        var p := s.tasks[t];
        if p.call.Destroy? && p.call.id in s.entries && p.call.id !in Do(s, m).entries then
          Wish(Some(RemoveAll(p.call.id)), |s.store.log|)
        else if p.call.Migrate? && p.stage.FuncRun? && c.Touch? then Wish(Some(c.op), |s.store.log|)
        else w
  }

  function WishOf(s: Sys, moves: seq<Move>, t: ThreadId, w: Wish): Wish
    requires CanMoves(s, moves)
    decreases |moves|
  {
    if moves == [] then w else WishOf(Do(s, moves[0]), moves[1..], t, WishAfter(s, moves[0], t, w))
  }

  /** The operation was made and has returned. */
  ghost predicate Fulfilled(log: seq<StorageEvent>, t: ThreadId, w: Wish) {
    w.op.Some? ==>
      exists j :: w.since <= j < |log| && log[j].Return? && log[j].thread == t && log[j].op == w.op.value
  }

  lemma FulfilledStays(log: seq<StorageEvent>, log': seq<StorageEvent>, t: ThreadId, w: Wish)
    requires Fulfilled(log, t, w) && log <= log'
    ensures Fulfilled(log', t, w)
  {
    if w.op.Some? {
      var j :| w.since <= j < |log| && log[j].Return? && log[j].thread == t && log[j].op == w.op.value;
      assert log'[j] == log[j];
    }
  }

  /** The stages at which the wish is still to be fulfilled. */
  predicate Waiting(stage: Stage) {
    stage.StorageCall? || stage.DestroyLeave? || stage.DestroyRemove?
  }

  function OpAt(q: Machine.Point): Option<Op> {
    if q.Idle? then None else Some(q.op)
  }

  ghost predicate WishInv(w: Wish, p: Task, q: Machine.Point, log: seq<StorageEvent>, t: ThreadId) {
    p.Doing? ==>
      w.since <= |log| &&
      (p.call.Storage? ==>
         w.op == Some(p.call.op) && (p.stage.StorageCall? || p.stage.StorageWait? || p.stage.Done?)) &&
      (p.stage.DestroyLeave? || p.stage.DestroyRemove? ==> w.op == Some(RemoveAll(IdOf(p.call)))) &&
      (p.stage.StorageWait? || p.stage.FuncWait? ==>
         w.op.Some? && if q.Idle? then Fulfilled(log, t, w) else OpAt(q) == w.op) &&
      (!Waiting(p.stage) && !InStorage(p.stage) ==> Fulfilled(log, t, w))
  }

  ghost predicate SysWishInv(w: Wish, s: Sys, t: ThreadId) {
    t in s.tasks && t in s.store.points && WishInv(w, s.tasks[t], s.store.points[t], s.store.log, t)
  }

  // The store's own steps.

  lemma RunAddsOne(st: Machine.Store, t: ThreadId, st': Machine.Store)
    requires Machine.CanRun(st, t) && st' == Machine.Run(st, t)
    ensures st.log <= st'.log && st'.points == st.points[t := st'.points[t]]
    ensures !st'.points[t].Idle? ==> OpAt(st'.points[t]) == OpAt(st.points[t])
    ensures st'.points[t].Idle? ==>
              |st'.log| == |st.log| + 1 && Last(st'.log).Return? && Last(st'.log).thread == t &&
              Some(Last(st'.log).op) == OpAt(st.points[t])
  {
  }

  // The steps of the calls.

  /** What the step lemmas assume: t advances with i, and q is its task then. */
  ghost predicate Steps(s: Sys, t: ThreadId, c: Choice, w: Wish, i: Instr, s': Sys) {
    CanAdvance(s, t, c) && i == Code(s, t, c) && s' == Do(s, Advance(t, c)) && SysWishInv(w, s, t) &&
    TaskInv(StoredHeaders(s.entries), s.tasks[t])
  }

  lemma BeginKeeps(s: Sys, t: ThreadId, c: Choice, w: Wish, i: Instr, s': Sys)
    requires Steps(s, t, c, w, i, s') && i.Begin?
    ensures SysWishInv(WishAfter(s, Advance(t, c), t, w), s', t)
  {
  }

  lemma AwaitKeeps(s: Sys, t: ThreadId, c: Choice, w: Wish, i: Instr, s': Sys)
    requires Steps(s, t, c, w, i, s') && i.Await?
    ensures SysWishInv(WishAfter(s, Advance(t, c), t, w), s', t)
  {
    if !Machine.CanCall(s.store, t) {
      RunAddsOne(s.store, t, s'.store);
      hide Machine.Run, Machine.CanRun, Machine.Code, Fulfilled;
      assert WishAfter(s, Advance(t, c), t, w) == w;
      if s'.store.points[t].Idle? {
        LastFulfils(s.store.log, s'.store.log, t, w);
      }
    }
  }

  lemma LastFulfils(log: seq<StorageEvent>, log': seq<StorageEvent>, t: ThreadId, w: Wish)
    requires w.op.Some? && w.since <= |log| && |log'| == |log| + 1
    requires Last(log').Return? && Last(log').thread == t && Last(log').op == w.op.value
    ensures Fulfilled(log', t, w)
  {
    assert log'[|log|] == Last(log');
  }

  lemma EraseWishes(s: Sys, t: ThreadId, c: Choice, w: Wish, i: Instr, s': Sys)
    requires Steps(s, t, c, w, i, s') && (i.Insert? || i.Miss? || i.Copy? || i.Erase? || i.Commit?)
    ensures SysWishInv(WishAfter(s, Advance(t, c), t, w), s', t)
  {
    hide Fulfilled;
  }

  lemma QuietKeepsWish(s: Sys, t: ThreadId, c: Choice, w: Wish, i: Instr, s': Sys)
    requires Steps(s, t, c, w, i, s')
    requires i.GoTo? || i.View? || i.Decide? || i.Stamp? || i.AddFunction? || i.Finish?
    ensures SysWishInv(WishAfter(s, Advance(t, c), t, w), s', t)
  {
    hide Fulfilled, StepTo, HeaderIn;
  }

  lemma LockKeepsWish(s: Sys, t: ThreadId, c: Choice, w: Wish, i: Instr, s': Sys)
    requires Steps(s, t, c, w, i, s')
    requires i.LockRegistry? || i.UnlockRegistry? || i.LockEngine? || i.UnlockEngine? || i.LockEntry? || i.UnlockEntry?
    ensures SysWishInv(WishAfter(s, Advance(t, c), t, w), s', t)
  {
    hide Fulfilled, StepTo, HeaderIn, Locked, Unlocked, CanLock;
  }

  lemma OwnMoveKeeps(s: Sys, t: ThreadId, c: Choice, w: Wish, i: Instr, s': Sys)
    requires Steps(s, t, c, w, i, s')
    ensures SysWishInv(WishAfter(s, Advance(t, c), t, w), s', t)
  {
    hide *;
    if i.Begin? {
      BeginKeeps(s, t, c, w, i, s');
    } else if i.Await? {
      AwaitKeeps(s, t, c, w, i, s');
    } else if i.Insert? || i.Miss? || i.Copy? || i.Erase? || i.Commit? {
      EraseWishes(s, t, c, w, i, s');
    } else if i.GoTo? || i.View? || i.Decide? || i.Stamp? || i.AddFunction? || i.Finish? {
      QuietKeepsWish(s, t, c, w, i, s');
    } else {
      LockKeepsWish(s, t, c, w, i, s');
    }
  }

  /** What any move does to the store, as seen by the threads that do not move. */
  lemma StoreGrows(s: Sys, m: Move, t: ThreadId)
    requires CanMove(s, m) && m.t in s.store.points && t in s.store.points && (m.t != t || m.Start?)
    ensures var st, st' := s.store, Do(s, m).store;
            st.log <= st'.log && t in st'.points && st'.points[t] == st.points[t]
  {
    D.StoreAfter(s, m);
    hide Do, CanMove, Machine.Run, Machine.CanRun;
    if m.Advance? && InStorage(s.tasks[m.t].stage) && !Machine.CanCall(s.store, m.t) {
      RunAddsOne(s.store, m.t, Do(s, m).store);
    }
  }

  lemma OtherMoveKeeps(s: Sys, m: Move, t: ThreadId, w: Wish)
    requires CanMove(s, m) && m.t in s.store.points && SysWishInv(w, s, t) && m.t != t
    ensures SysWishInv(WishAfter(s, m, t, w), Do(s, m), t)
  {
    StoreGrows(s, m, t);
    OthersStay(s, m, t);
    hide Do, CanMove, Fulfilled;
    if Fulfilled(s.store.log, t, w) {
      FulfilledStays(s.store.log, Do(s, m).store.log, t, w);
    }
  }

  lemma OthersStay(s: Sys, m: Move, t: ThreadId)
    requires CanMove(s, m) && t in s.tasks && m.t != t
    ensures t in Do(s, m).tasks && Do(s, m).tasks[t] == s.tasks[t]
  {
    hide Code, Enabled;
  }

  lemma StartKeepsWish(s: Sys, t: ThreadId, call: Call, w: Wish)
    requires CanMove(s, Start(t, call)) && SysWishInv(w, s, t)
    ensures SysWishInv(WishAfter(s, Start(t, call), t, w), Do(s, Start(t, call)), t)
  {
  }

  lemma MoveKeepsWish(s: Sys, m: Move, t: ThreadId, w: Wish)
    requires Inv(s) && CanMove(s, m) && SysWishInv(w, s, t)
    ensures SysWishInv(WishAfter(s, m, t, w), Do(s, m), t)
  {
    D.PointsAreTasks(s);
    MoverIsThere(s, m);
    if m.t != t {
      hide *;
      OtherMoveKeeps(s, m, t, w);
    } else if m.Start? {
      hide *;
      StartKeepsWish(s, t, m.call, w);
    } else {
      TaskFacts(s, t);
      hide Inv, TaskInv, Do, SysWishInv, Code, Enabled, WishAfter;
      OwnMoveKeeps(s, t, m.choice, w, Code(s, t, m.choice), Do(s, m));
    }
  }

  lemma MoverIsThere(s: Sys, m: Move)
    requires CanMove(s, m)
    ensures m.t in s.tasks && (m.Advance? ==> s.tasks[m.t].Doing?)
  {
    hide Code, Enabled;
  }

  lemma {:induction false} MovesKeepWish(s: Sys, moves: seq<Move>, t: ThreadId, w: Wish)
    requires Inv(s) && CanMoves(s, moves) && SysWishInv(w, s, t)
    ensures SysWishInv(WishOf(s, moves, t, w), DoAll(s, moves), t)
    decreases |moves|
  {
    if moves != [] {
      hide Inv, SysWishInv, CanMove, Do, WishAfter;
      MoveKeeps(s, moves[0]);
      MoveKeepsWish(s, moves[0], t, w);
      MovesKeepWish(Do(s, moves[0]), moves[1..], t, WishAfter(s, moves[0], t, w));
    }
  }

  /** Under any schedule a call that is over has made the storage operation it had to make: a storage
      call its own, a Destroy that erased its object the RemoveAll of it. And a migration function has
      made what it last chose whenever it runs on, and is in nothing else while it waits. */
  lemma StorageIsDone(threads: set<ThreadId>, rehashing: set<Machine.CellRef>, moves: seq<Move>, t: ThreadId)
    requires t in threads && CanMoves(Init(threads, rehashing), moves)
    ensures var s := DoAll(Init(threads, rehashing), moves);
            var w := WishOf(Init(threads, rehashing), moves, t, NO_WISH);
            t in s.tasks && t in s.store.points &&
            (s.tasks[t].Doing? ==>
               var p := s.tasks[t];
               (p.stage.Done? || p.stage.FuncRun? ==> Fulfilled(s.store.log, t, w)) &&
               (p.call.Storage? ==> w.op == Some(p.call.op)) &&
               (InStorage(p.stage) ==> w.op.Some? && (s.store.points[t].Idle? || OpAt(s.store.points[t]) == w.op)))
  {
    InitInv(threads, rehashing);
    MovesKeepWish(Init(threads, rehashing), moves, t, NO_WISH);
    hide Fulfilled, DoAll, CanMoves, WishOf;
  }
}
