/** src/actor/actor_runtime.cpp: many actors found by id, messages sent by looking an actor up
    and then enqueueing, ticks driven from a snapshot. Actors are held by shared pointers; one
    that nobody holds any more is collected. */
module ActorRuntime {
  import opened Basics
  import opened ActorMachine

  type ActorRef = nat
  type ActorId = nat

  /** What a thread holds between two steps of a call. */
  datatype Local =
    | Resting
    | Sending(target: ActorRef, m: Message)   // SendMessage after its lookup
    | TickingAll(snapshot: seq<ActorRef>)        // Tick after its snapshot

  /** `clients` are the pointers held outside the runtime, `collected` the last states of
      actors that are gone. */
  datatype Runtime = Runtime(
    table: map<ActorId, ActorRef>,
    actors: map<ActorRef, Actor>,
    locals: map<ThreadId, Local>,
    clients: set<ActorRef>,
    nextRef: ActorRef,
    collected: map<ActorRef, Actor>)

  datatype Move =
    | New
    | Spawn(id: ActorId, ref: ActorRef)
    | Drop(ref: ActorRef)
    | Kill(id: ActorId)
    | Lookup(t: ThreadId, to: ActorId, msg: Message)
    | Deliver(t: ThreadId)
    | Snapshot(t: ThreadId, order: seq<ActorId>)
    | TickNext(t: ThreadId)
    | Direct(ref: ActorRef, msg: Message)   // EnqueueMessage by whoever holds the actor itself
    | Strand(ref: ActorRef)
    | Collect(ref: ActorRef)

  predicate HoldsRef(l: Local, ref: ActorRef) {
    match l
    case Resting => false
    case Sending(r, _) => r == ref
    case TickingAll(refs) => ref in refs
  }

  /** Somebody holds the actor; while its strand can step, its own posted or running task does. */
  ghost predicate Held(s: Runtime, ref: ActorRef)
    requires ref in s.actors
  {
    ref in s.clients || ref in s.table.Values || CanStep(s.actors[ref]) ||
    exists t :: t in s.locals && HoldsRef(s.locals[t], ref)
  }

  ghost predicate Enumerates(order: seq<ActorId>, table: map<ActorId, ActorRef>) {
    (forall id :: id in order <==> id in table) &&
    (forall i, j :: 0 <= i < j < |order| ==> order[i] != order[j])
  }

  ghost predicate CanMove(s: Runtime, m: Move) {
    match m
    case New => true
    case Spawn(_, ref) => ref in s.clients
    case Drop(_) => true
    case Kill(_) => true
    case Lookup(t, _, _) => t in s.locals && s.locals[t].Resting?
    case Deliver(t) => t in s.locals && s.locals[t].Sending? && s.locals[t].target in s.actors
    case Snapshot(t, order) => t in s.locals && s.locals[t].Resting? && Enumerates(order, s.table)
    case TickNext(t) =>
      t in s.locals && s.locals[t].TickingAll? && (s.locals[t].snapshot != [] ==> s.locals[t].snapshot[0] in s.actors)
    case Direct(ref, _) => ref in s.actors && (ref in s.clients || CanStep(s.actors[ref]))
    case Strand(ref) => ref in s.actors && CanStep(s.actors[ref])
    case Collect(ref) => ref in s.actors && !Held(s, ref)
  }

  function With(s: Runtime, ref: ActorRef, a: Actor): Runtime {
    s.(actors := s.actors[ref := a])
  }

  function SetLocal(s: Runtime, t: ThreadId, l: Local): Runtime {
    s.(locals := s.locals[t := l])
  }

  ghost function Do(s: Runtime, m: Move): Runtime
    requires CanMove(s, m)
  {
    match m
    case New =>
      With(s, s.nextRef, NEW_ACTOR).(clients := s.clients + {s.nextRef}, nextRef := s.nextRef + 1)
    case Spawn(id, ref) => s.(table := s.table[id := ref])
    case Drop(ref) => s.(clients := s.clients - {ref})
    case Kill(id) => s.(table := s.table - {id})
    case Lookup(t, to, msg) => if to in s.table then SetLocal(s, t, Sending(s.table[to], msg)) else s
    case Deliver(t) =>
      var l := s.locals[t];
      SetLocal(With(s, l.target, Enqueue(s.actors[l.target], l.m)), t, Resting)
    case Snapshot(t, order) =>
      SetLocal(s, t, TickingAll(seq(|order|, i requires 0 <= i < |order| => s.table[order[i]])))
    case TickNext(t) =>
      var refs := s.locals[t].snapshot;
      if refs == [] then SetLocal(s, t, Resting)
      else SetLocal(With(s, refs[0], PostTick(s.actors[refs[0]])), t, TickingAll(refs[1..]))
    case Direct(ref, msg) => With(s, ref, Enqueue(s.actors[ref], msg))
    case Strand(ref) => With(s, ref, StrandStep(s.actors[ref]))
    case Collect(ref) =>
      s.(actors := s.actors - {ref}, collected := s.collected[ref := s.actors[ref]])
  }

  ghost predicate CanMoves(s: Runtime, moves: seq<Move>)
    decreases |moves|
  {
    moves == [] || (CanMove(s, moves[0]) && CanMoves(Do(s, moves[0]), moves[1..]))
  }

  ghost function DoAll(s: Runtime, moves: seq<Move>): Runtime
    requires CanMoves(s, moves)
    decreases |moves|
  {
    if moves == [] then s else DoAll(Do(s, moves[0]), moves[1..])
  }

  function Init(threads: set<ThreadId>): Runtime {
    Runtime(map[], map[], map t | t in threads :: Resting, {}, 0, map[])
  }

  /** Every pointer somebody holds points at a live actor. */
  ghost predicate NoDangling(s: Runtime) {
    (forall id :: id in s.table ==> s.table[id] in s.actors) &&
    (forall ref :: ref in s.clients ==> ref in s.actors) &&
    (forall t, ref :: t in s.locals && HoldsRef(s.locals[t], ref) ==> ref in s.actors)
  }

  ghost predicate ActorsInv(s: Runtime) {
    (forall ref :: ref in s.actors ==> ref < s.nextRef && ref !in s.collected && ActorMachine.Inv(s.actors[ref])) &&
    (forall ref :: ref in s.collected ==>
                     ref < s.nextRef && ActorMachine.Inv(s.collected[ref]) &&
                     s.collected[ref].handled == s.collected[ref].accepted)
  }

  ghost predicate RuntimeInv(s: Runtime) {
    NoDangling(s) && ActorsInv(s)
  }

  lemma IdleIsFinished(a: Actor)
    requires ActorMachine.Inv(a) && !CanStep(a)
    ensures a.handled == a.accepted
  {
    assert a.mailbox == [];
  }

  /** Whoever still has work holds itself through a task. */
  lemma UnfinishedIsHeld(a: Actor)
    requires ActorMachine.Inv(a) && a.handled != a.accepted
    ensures CanStep(a)
  {
    if !CanStep(a) {
      IdleIsFinished(a);
    }
  }

  lemma NewKeeps(s: Runtime)
    requires RuntimeInv(s)
    ensures RuntimeInv(Do(s, New))
  {
  }

  lemma UpdateKeeps(s: Runtime, ref: ActorRef, e: Event)
    requires RuntimeInv(s) && ref in s.actors
    ensures RuntimeInv(With(s, ref, Apply(s.actors[ref], e)))
  {
    ApplyKeeps(s.actors[ref], e);
    hide ActorMachine.Inv;
  }

  lemma LocalKeeps(s: Runtime, t: ThreadId, l: Local)
    requires RuntimeInv(s) && forall ref :: HoldsRef(l, ref) ==> ref in s.actors
    ensures RuntimeInv(SetLocal(s, t, l))
  {
    hide ActorMachine.Inv;
  }

  lemma CollectKeeps(s: Runtime, ref: ActorRef)
    requires RuntimeInv(s) && ref in s.actors && !Held(s, ref)
    ensures RuntimeInv(Do(s, Collect(ref)))
  {
    if s.actors[ref].handled != s.actors[ref].accepted {
      UnfinishedIsHeld(s.actors[ref]);
    }
    assert forall id :: id in s.table ==> s.table[id] in s.table.Values;
    hide ActorMachine.Inv;
  }

  lemma TableKeeps(s: Runtime, m: Move)
    requires RuntimeInv(s) && CanMove(s, m) && (m.Spawn? || m.Drop? || m.Kill?)
    ensures RuntimeInv(Do(s, m))
  {
    hide ActorMachine.Inv;
  }

  lemma LookupKeeps(s: Runtime, m: Move)
    requires RuntimeInv(s) && CanMove(s, m) && (m.Lookup? || m.Snapshot?)
    ensures RuntimeInv(Do(s, m))
  {
    hide ActorMachine.Inv, ActorsInv;
    var l := if m.Snapshot? then Do(s, m).locals[m.t]
             else if m.to in s.table then Sending(s.table[m.to], m.msg) else s.locals[m.t];
    LocalKeeps(s, m.t, l);
    assert s.locals[m.t := s.locals[m.t]] == s.locals;
  }

  lemma DeliverKeeps(s: Runtime, t: ThreadId)
    requires RuntimeInv(s) && CanMove(s, Deliver(t))
    ensures RuntimeInv(Do(s, Deliver(t)))
  {
    hide RuntimeInv;
    var l := s.locals[t];
    UpdateKeeps(s, l.target, Send(l.m));
    LocalKeeps(With(s, l.target, Enqueue(s.actors[l.target], l.m)), t, Resting);
  }

  lemma TickNextKeeps(s: Runtime, t: ThreadId)
    requires RuntimeInv(s) && CanMove(s, TickNext(t))
    ensures RuntimeInv(Do(s, TickNext(t)))
  {
    hide ActorsInv;
    var refs := s.locals[t].snapshot;
    if refs == [] {
      LocalKeeps(s, t, Resting);
    } else {
      UpdateKeeps(s, refs[0], Schedule);
      forall ref | HoldsRef(TickingAll(refs[1..]), ref) ensures ref in s.actors {
        assert HoldsRef(s.locals[t], ref);
      }
      LocalKeeps(With(s, refs[0], PostTick(s.actors[refs[0]])), t, TickingAll(refs[1..]));
    }
  }

  lemma MoveKeeps(s: Runtime, m: Move)
    requires RuntimeInv(s) && CanMove(s, m)
    ensures RuntimeInv(Do(s, m))
  {
    hide RuntimeInv, Enumerates;
    match m {
      case New => NewKeeps(s);
      case Spawn(_, _) => TableKeeps(s, m);
      case Drop(_) => TableKeeps(s, m);
      case Kill(_) => TableKeeps(s, m);
      case Lookup(_, _, _) => LookupKeeps(s, m);
      case Deliver(t) => DeliverKeeps(s, t);
      case Snapshot(_, _) => LookupKeeps(s, m);
      case TickNext(t) => TickNextKeeps(s, t);
      case Direct(ref, msg) => UpdateKeeps(s, ref, Send(msg));
      case Strand(ref) => UpdateKeeps(s, ref, Step);
      case Collect(ref) => CollectKeeps(s, ref);
    }
  }

  lemma {:induction false} MovesKeep(s: Runtime, moves: seq<Move>)
    requires RuntimeInv(s) && CanMoves(s, moves)
    ensures RuntimeInv(DoAll(s, moves))
    decreases |moves|
  {
    if moves != [] {
      MoveKeeps(s, moves[0]);
      MovesKeep(Do(s, moves[0]), moves[1..]);
    }
  }

  lemma {:induction false} MovesAppend(s: Runtime, xs: seq<Move>, ys: seq<Move>)
    requires CanMoves(s, xs) && CanMoves(DoAll(s, xs), ys)
    ensures CanMoves(s, xs + ys) && DoAll(s, xs + ys) == DoAll(DoAll(s, xs), ys)
    decreases |xs|
  {
    if xs == [] {
      assert xs + ys == ys;
    } else {
      assert (xs + ys)[0] == xs[0] && (xs + ys)[1..] == xs[1..] + ys;
      hide CanMove, Do;
      MovesAppend(Do(s, xs[0]), xs[1..], ys);
    }
  }

  lemma OneMove(s: Runtime, m: Move)
    requires CanMove(s, m)
    ensures CanMoves(s, [m]) && DoAll(s, [m]) == Do(s, m)
  {
    hide CanMove, Do;
    assert [m][1..] == [];
    assert CanMoves(Do(s, m), []);
  }

  /** No run loses an accepted message to Kill, to a replacing Spawn or to collection: pointers
      never dangle, and an actor is only collected after it handled everything it accepted. */
  lemma NothingAcceptedIsLost(threads: set<ThreadId>, moves: seq<Move>)
    requires CanMoves(Init(threads), moves)
    ensures var s := DoAll(Init(threads), moves);
            NoDangling(s) &&
            (forall ref :: ref in s.collected ==> s.collected[ref].handled == s.collected[ref].accepted) &&
            (forall ref :: ref in s.actors && s.actors[ref].handled != s.actors[ref].accepted ==>
                             Held(s, ref) && CanStep(s.actors[ref]))
  {
    MovesKeep(Init(threads), moves);
    var s := DoAll(Init(threads), moves);
    forall ref | ref in s.actors && s.actors[ref].handled != s.actors[ref].accepted
      ensures Held(s, ref) && CanStep(s.actors[ref])
    {
      UnfinishedIsHeld(s.actors[ref]);
    }
  }

  /** The actor object, alive or collected. */
  function ActorOf(s: Runtime, ref: ActorRef): Actor
    requires ref in s.actors || ref in s.collected
  {
    if ref in s.actors then s.actors[ref] else s.collected[ref]
  }

  /** What a move does to one actor object. */
  function EventFor(s: Runtime, m: Move, ref: ActorRef): Option<Event> {
    match m
    case Deliver(t) =>
      if t in s.locals && s.locals[t].Sending? && s.locals[t].target == ref then Some(Send(s.locals[t].m)) else None
    case TickNext(t) =>
      if t in s.locals && s.locals[t].TickingAll? && s.locals[t].snapshot != [] && s.locals[t].snapshot[0] == ref
      then Some(Schedule) else None
    case Direct(r, msg) => if r == ref then Some(Send(msg)) else None
    case Strand(r) => if r == ref then Some(Step) else None
    case _ => None
  }

  lemma MoveOnActor(s: Runtime, m: Move, ref: ActorRef)
    requires RuntimeInv(s) && CanMove(s, m) && (ref in s.actors || ref in s.collected)
    ensures ref in Do(s, m).actors || ref in Do(s, m).collected
    ensures ActorOf(Do(s, m), ref) ==
            if EventFor(s, m, ref).Some? then Apply(ActorOf(s, ref), EventFor(s, m, ref).value) else ActorOf(s, ref)
  {
    hide ActorMachine.Inv, NoDangling, Held;
  }

  function StrandSteps(moves: seq<Move>, ref: ActorRef): nat {
    if moves == [] then 0 else (if moves[0] == Strand(ref) then 1 else 0) + StrandSteps(moves[1..], ref)
  }

  /** One move brings every accepted message of an actor exactly one step closer if it is a step
      of that actor's strand, and else leaves it where it was. */
  lemma OneMoveCloser(s: Runtime, m: Move, ref: ActorRef, j: nat)
    requires RuntimeInv(s) && CanMove(s, m) && (ref in s.actors || ref in s.collected)
    requires j < |ActorOf(s, ref).accepted|
    ensures ref in Do(s, m).actors || ref in Do(s, m).collected
    ensures ActorOf(s, ref).accepted <= ActorOf(Do(s, m), ref).accepted
    ensures var left := StepsLeft(ActorOf(s, ref), j);
            StepsLeft(ActorOf(Do(s, m), ref), j) == if m == Strand(ref) && left > 0 then left - 1 else left
  {
    MoveOnActor(s, m, ref);
    var a, e := ActorOf(s, ref), EventFor(s, m, ref);
    assert ActorMachine.Inv(a);
    hide ActorMachine.Inv, RuntimeInv, StepsLeft, Apply, Do, CanMove;
    if e.Some? {
      OneStepCloser(a, e.value, j);
      AcceptedGrows(a, e.value);
    }
  }

  /** Progress across the runtime: whatever kills, spawns, sends and ticks happen meanwhile,
      the j-th message an actor object accepted is handled by that same object, and needs
      exactly as many steps of its strand as are left when we start counting. */
  lemma {:induction false} SameActorHandles(s: Runtime, moves: seq<Move>, ref: ActorRef, j: nat)
    requires RuntimeInv(s) && CanMoves(s, moves) && (ref in s.actors || ref in s.collected)
    requires j < |ActorOf(s, ref).accepted|
    ensures var s' := DoAll(s, moves);
            (ref in s'.actors || ref in s'.collected) &&
            var n, left := StrandSteps(moves, ref), StepsLeft(ActorOf(s, ref), j);
            StepsLeft(ActorOf(s', ref), j) == (if n < left then left - n else 0) &&
            (n >= left ==>
               j < |ActorOf(s', ref).handled| && ActorOf(s', ref).handled[j] == ActorOf(s, ref).accepted[j])
    decreases |moves|
  {
    if moves == [] {
      if StepsLeft(ActorOf(s, ref), j) == 0 {
        HandledIsAccepted(ActorOf(s, ref), j);
      }
    } else {
      hide RuntimeInv, StepsLeft, ActorOf, CanMove, Do;
      MoveKeeps(s, moves[0]);
      OneMoveCloser(s, moves[0], ref, j);
      SameActorHandles(Do(s, moves[0]), moves[1..], ref, j);
    }
  }

  // One actor's own events, and one thread's Tick, as moves.

  function MovesFor(ref: ActorRef, events: seq<Event>): seq<Move> {
    seq(|events|, i requires 0 <= i < |events| => if events[i].Send? then Direct(ref, events[i].m) else Strand(ref))
  }

  lemma {:induction false} MovesForActor(s: Runtime, ref: ActorRef, events: seq<Event>)
    requires ref in s.actors && Runs(s.actors[ref], events)
    ensures CanMoves(s, MovesFor(ref, events))
    ensures DoAll(s, MovesFor(ref, events)) == With(s, ref, Run(s.actors[ref], events))
    decreases |events|
  {
    if events == [] {
      assert With(s, ref, s.actors[ref]) == s;
    } else {
      var moves := MovesFor(ref, events);
      var next := With(s, ref, Apply(s.actors[ref], events[0]));
      assert moves[1..] == MovesFor(ref, events[1..]);
      assert CanMove(s, moves[0]) && Do(s, moves[0]) == next;
      MovesForActor(next, ref, events[1..]);
      assert With(next, ref, Run(next.actors[ref], events[1..])) == With(s, ref, Run(s.actors[ref], events));
    }
  }

  /** The moves of one Tick that no other thread interrupts. */
  function TickMoves(t: ThreadId, order: seq<ActorId>): seq<Move> {
    [Snapshot(t, order)] + TickNexts(t, |order| + 1)
  }

  function TickNexts(t: ThreadId, n: nat): seq<Move> {
    seq(n, _ => TickNext(t))
  }

  function Times(refs: seq<ActorRef>, ref: ActorRef): nat {
    if refs == [] then 0 else (if refs[0] == ref then 1 else 0) + Times(refs[1..], ref)
  }

  lemma {:induction false} PostOneMore(a: Actor, n: nat)
    ensures PostTicks(PostTick(a), n) == PostTicks(a, n + 1)
  {
    if n > 0 {
      PostOneMore(a, n - 1);
    }
  }

  /** The first tick of the loop. */
  lemma FirstTick(s: Runtime, t: ThreadId, refs: seq<ActorRef>)
    requires t in s.locals && s.locals[t] == TickingAll(refs) && refs != [] && refs[0] in s.actors
    ensures CanMove(s, TickNext(t))
    ensures var s1 := Do(s, TickNext(t));
            s1.locals == s.locals[t := TickingAll(refs[1..])] && s1.table == s.table &&
            s1.actors == s.actors[refs[0] := PostTick(s.actors[refs[0]])]
  {
  }

  /** What posting ticks does to each actor. */
  ghost predicate Ticked(s: Runtime, t: ThreadId, refs: seq<ActorRef>, s': Runtime) {
    s'.locals == s.locals[t := Resting] && s'.table == s.table && s'.actors.Keys == s.actors.Keys &&
    forall ref :: ref in s.actors ==> s'.actors[ref] == PostTicks(s.actors[ref], Times(refs, ref))
  }

  lemma TickedOneMore(s: Runtime, t: ThreadId, refs: seq<ActorRef>, s1: Runtime, s': Runtime)
    requires refs != [] && refs[0] in s.actors && Ticked(s1, t, refs[1..], s')
    requires s1.locals == s.locals[t := TickingAll(refs[1..])] && s1.table == s.table
    requires s1.actors == s.actors[refs[0] := PostTick(s.actors[refs[0]])]
    ensures Ticked(s, t, refs, s')
  {
    hide PostTicks;
    forall ref | ref in s.actors ensures s'.actors[ref] == PostTicks(s.actors[ref], Times(refs, ref)) {
      assert s'.actors[ref] == PostTicks(s1.actors[ref], Times(refs[1..], ref));
      PostOneMore(s.actors[ref], Times(refs[1..], ref));
    }
    assert s1.locals[t := Resting] == s.locals[t := Resting];
  }

  /** The loop of Tick posts one tick for each pointer of its snapshot. */
  lemma {:induction false} TicksEach(s: Runtime, t: ThreadId, refs: seq<ActorRef>)
    requires t in s.locals && s.locals[t] == TickingAll(refs) && forall ref :: ref in refs ==> ref in s.actors
    ensures CanMoves(s, TickNexts(t, |refs| + 1))
    ensures Ticked(s, t, refs, DoAll(s, TickNexts(t, |refs| + 1)))
    decreases |refs|
  {
    if refs == [] {
      OneMove(s, TickNext(t));
      assert TickNexts(t, 1) == [TickNext(t)];
    } else {
      var s1 := Do(s, TickNext(t));
      FirstTick(s, t, refs);
      hide CanMove, Do, Ticked;
      var moves := TickNexts(t, |refs| + 1);
      assert moves[0] == TickNext(t) && moves[1..] == TickNexts(t, |refs|);
      TicksEach(s1, t, refs[1..]);
      TickedOneMore(s, t, refs, s1, DoAll(s1, TickNexts(t, |refs|)));
    }
  }

  function RefsOf(table: map<ActorId, ActorRef>, order: seq<ActorId>): seq<ActorRef>
    requires forall id :: id in order ==> id in table
  {
    seq(|order|, i requires 0 <= i < |order| => table[order[i]])
  }

  /** One Tick posts to every actor one tick for each id it is registered under. */
  lemma TickPostsToAll(s: Runtime, t: ThreadId, order: seq<ActorId>)
    requires NoDangling(s) && CanMove(s, Snapshot(t, order))
    ensures CanMoves(s, TickMoves(t, order))
    ensures Ticked(s, t, RefsOf(s.table, order), DoAll(s, TickMoves(t, order)))
  {
    var s1, refs := Do(s, Snapshot(t, order)), RefsOf(s.table, order);
    assert s1 == s.(locals := s.locals[t := TickingAll(refs)]);
    OneMove(s, Snapshot(t, order));
    hide Do, CanMove, CanMoves, DoAll, Enumerates;
    TicksEach(s1, t, refs);
    MovesAppend(s, [Snapshot(t, order)], TickNexts(t, |order| + 1));
    assert s1.locals[t := Resting] == s.locals[t := Resting];
  }

  lemma {:induction false} TimesAppend(rs: seq<ActorRef>, last: ActorRef, r: ActorRef)
    ensures Times(rs + [last], r) == Times(rs, r) + if last == r then 1 else 0
  {
    if rs != [] {
      assert (rs + [last])[1..] == rs[1..] + [last];
      TimesAppend(rs[1..], last, r);
    } else {
      assert ([] + [last])[1..] == [];
    }
  }

  /** SendMessage that no other thread interrupts: lookup, and delivery if there is somebody. */
  function SendMoves(model: Runtime, t: ThreadId, to: ActorId, m: Message): seq<Move> {
    if to in model.table then [Lookup(t, to, m), Deliver(t)] else [Lookup(t, to, m)]
  }

  lemma SendMovesDo(model: Runtime, t: ThreadId, to: ActorId, m: Message)
    requires RuntimeInv(model) && t in model.locals && model.locals[t].Resting?
    ensures CanMoves(model, SendMoves(model, t, to, m))
    ensures var sent := DoAll(model, SendMoves(model, t, to, m));
            sent.table == model.table && sent.locals == model.locals && sent.actors.Keys == model.actors.Keys &&
            sent.actors == if to in model.table
                           then model.actors[model.table[to] := Enqueue(model.actors[model.table[to]], m)]
                           else model.actors
  {
    var looked := Do(model, Lookup(t, to, m));
    OneMove(model, Lookup(t, to, m));
    if to in model.table {
      DeliverDoes(model, t, to, m, looked);
      hide Do, CanMove, CanMoves, DoAll, RuntimeInv;
      OneMove(looked, Deliver(t));
      MovesAppend(model, [Lookup(t, to, m)], [Deliver(t)]);
      assert [Lookup(t, to, m)] + [Deliver(t)] == SendMoves(model, t, to, m);
    }
  }

  lemma DeliverDoes(model: Runtime, t: ThreadId, to: ActorId, m: Message, looked: Runtime)
    requires RuntimeInv(model) && t in model.locals && model.locals[t].Resting? && to in model.table
    requires looked == Do(model, Lookup(t, to, m))
    ensures model.table[to] in model.actors && CanMove(looked, Deliver(t))
    ensures var sent := Do(looked, Deliver(t));
            sent.table == model.table && sent.locals == model.locals &&
            sent.actors == model.actors[model.table[to] := Enqueue(model.actors[model.table[to]], m)]
  {
    hide ActorsInv, Enqueue;
  }
}
