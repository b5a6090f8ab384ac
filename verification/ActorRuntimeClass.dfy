/** src/actor/actor_runtime.cpp in place. Each method of the runtime is the moves of ActorRuntime
    that its lock sections are, made by one thread with no other in between. */
module ActorRuntimeClass {
  import opened Basics
  import opened ActorMachine
  import opened ActorClass
  import R = ActorRuntime

  type ActorId = R.ActorId
  type ActorRef = R.ActorRef

  /** The table of the heap and the table of the model name the same actors. */
  ghost predicate SameTable(actors: map<ActorId, ActorObject>, refs: map<ActorRef, ActorObject>, model: R.Runtime) {
    refs.Keys == model.actors.Keys &&
    Distinct(refs) &&
    actors.Keys == model.table.Keys &&
    forall id :: id in actors ==> model.table[id] in refs && refs[model.table[id]] == actors[id]
  }

  /** The model is what the moves so far lead to, from no actors at all. */
  ghost predicate Leads(threads: set<ThreadId>, history: seq<R.Move>, model: R.Runtime) {
    R.CanMoves(R.Init(threads), history) && model == R.DoAll(R.Init(threads), history)
  }

  ghost predicate Consistent(threads: set<ThreadId>, history: seq<R.Move>, model: R.Runtime,
                             actors: map<ActorId, ActorObject>, refs: map<ActorRef, ActorObject>)
  {
    Leads(threads, history, model) && R.RuntimeInv(model) && SameTable(actors, refs, model)
  }

  lemma StartsConsistent(threads: set<ThreadId>)
    ensures Consistent(threads, [], R.Init(threads), map[], map[])
  {
  }

  /** More moves, after which the tables still agree. */
  lemma Advance(threads: set<ThreadId>, history: seq<R.Move>, model: R.Runtime, moves: seq<R.Move>,
                actors: map<ActorId, ActorObject>, refs: map<ActorRef, ActorObject>)
    requires Leads(threads, history, model) && R.RuntimeInv(model) && R.CanMoves(model, moves)
    requires SameTable(actors, refs, R.DoAll(model, moves))
    ensures Consistent(threads, history + moves, R.DoAll(model, moves), actors, refs)
  {
    hide R.RuntimeInv, SameTable;
    R.MovesKeep(model, moves);
    R.MovesAppend(R.Init(threads), history, moves);
  }

  /** Moves that leave the table alone. */
  lemma AdvanceActors(threads: set<ThreadId>, history: seq<R.Move>, model: R.Runtime, moves: seq<R.Move>,
                      actors: map<ActorId, ActorObject>, refs: map<ActorRef, ActorObject>)
    requires Consistent(threads, history, model, actors, refs) && R.CanMoves(model, moves)
    requires R.DoAll(model, moves).table == model.table && R.DoAll(model, moves).actors.Keys == model.actors.Keys
    ensures Consistent(threads, history + moves, R.DoAll(model, moves), actors, refs)
  {
    hide R.RuntimeInv, Leads, R.CanMoves, R.DoAll;
    Advance(threads, history, model, moves, actors, refs);
  }

  lemma NewAdvances(threads: set<ThreadId>, history: seq<R.Move>, model: R.Runtime,
                    actors: map<ActorId, ActorObject>, refs: map<ActorRef, ActorObject>, actor: ActorObject)
    requires Consistent(threads, history, model, actors, refs) && actor !in refs.Values
    ensures model.nextRef !in refs
    ensures Consistent(threads, history + [R.New], R.Do(model, R.New), actors, refs[model.nextRef := actor])
  {
    hide ActorMachine.Inv, Leads;
    assert forall r :: r in refs ==> refs[r] in refs.Values;
    R.OneMove(model, R.New);
    Advance(threads, history, model, [R.New], actors, refs[model.nextRef := actor]);
  }

  lemma SpawnAdvances(threads: set<ThreadId>, history: seq<R.Move>, model: R.Runtime,
                      actors: map<ActorId, ActorObject>, refs: map<ActorRef, ActorObject>, id: ActorId, ref: ActorRef)
    requires Consistent(threads, history, model, actors, refs) && ref in refs && ref in model.clients
    ensures var m := R.Move.Spawn(id, ref);
            R.CanMove(model, m) && R.Do(model, m).actors == model.actors &&
            Consistent(threads, history + [m], R.Do(model, m), actors[id := refs[ref]], refs)
  {
    hide R.RuntimeInv, Leads;
    R.OneMove(model, R.Move.Spawn(id, ref));
    Advance(threads, history, model, [R.Move.Spawn(id, ref)], actors[id := refs[ref]], refs);
  }

  lemma KillAdvances(threads: set<ThreadId>, history: seq<R.Move>, model: R.Runtime,
                     actors: map<ActorId, ActorObject>, refs: map<ActorRef, ActorObject>, id: ActorId)
    requires Consistent(threads, history, model, actors, refs)
    ensures var m := R.Move.Kill(id);
            R.Do(model, m).actors == model.actors &&
            Consistent(threads, history + [m], R.Do(model, m), actors - {id}, refs)
  {
    hide R.RuntimeInv, Leads;
    R.OneMove(model, R.Move.Kill(id));
    Advance(threads, history, model, [R.Move.Kill(id)], actors - {id}, refs);
  }

  lemma TableFacts(threads: set<ThreadId>, history: seq<R.Move>, model: R.Runtime,
                   actors: map<ActorId, ActorObject>, refs: map<ActorRef, ActorObject>)
    requires Consistent(threads, history, model, actors, refs)
    ensures R.RuntimeInv(model) && refs.Keys == model.actors.Keys && Distinct(refs)
    ensures forall id :: id in actors <==> id in model.table
    ensures forall id :: id in actors ==> model.table[id] in refs && refs[model.table[id]] == actors[id]
    ensures forall r :: r in refs ==> refs[r] in refs.Values
  {
    hide R.RuntimeInv, Leads;
  }

  /** Each actor has got one tick for each of the first i pointers that is its own. */
  ghost predicate TickedTo(before: map<ActorRef, Actor>, now: map<ActorRef, Actor>, rs: seq<ActorRef>, i: nat)
    requires i <= |rs|
  {
    now.Keys == before.Keys && forall r :: r in before ==> now[r] == PostTicks(before[r], R.Times(rs[..i], r))
  }

  lemma OneMoreTick(before: map<ActorRef, Actor>, now: map<ActorRef, Actor>, rs: seq<ActorRef>, i: nat)
    requires i < |rs| && rs[i] in now && TickedTo(before, now, rs, i)
    ensures TickedTo(before, now[rs[i] := PostTick(now[rs[i]])], rs, i + 1)
  {
    var next := now[rs[i] := PostTick(now[rs[i]])];
    forall r | r in before ensures next[r] == PostTicks(before[r], R.Times(rs[..i + 1], r)) {
      assert rs[..i + 1] == rs[..i] + [rs[i]];
      R.TimesAppend(rs[..i], rs[i], r);
    }
  }

  /** The states after all ticks are those of the model after the moves of Tick. */
  lemma AllTicked(model: R.Runtime, t: ThreadId, order: seq<ActorId>, now: map<ActorRef, Actor>)
    requires R.RuntimeInv(model) && t in model.locals && model.locals[t].Resting? && R.Enumerates(order, model.table)
    ensures R.CanMoves(model, R.TickMoves(t, order))
    ensures var ticked := R.DoAll(model, R.TickMoves(t, order));
            ticked.table == model.table && ticked.locals == model.locals && ticked.actors.Keys == model.actors.Keys &&
            R.Ticked(model, t, R.RefsOf(model.table, order), ticked) &&
            (TickedTo(model.actors, now, R.RefsOf(model.table, order), |R.RefsOf(model.table, order)|) ==>
               now == ticked.actors)
  {
    R.TickPostsToAll(model, t, order);
    var rs, ticked := R.RefsOf(model.table, order), R.DoAll(model, R.TickMoves(t, order));
    hide R.TickMoves, R.DoAll, R.CanMoves, R.RefsOf, R.RuntimeInv, R.Enumerates;
    assert rs[..|rs|] == rs;
    assert model.locals[t := R.Resting] == model.locals;
  }

  function AfterTask(a: Actor, replies: Message -> seq<Message>, tickSends: seq<Message>): Actor {
    if a.strand == [] then a else Run(a, TaskEvents(a.strand[0], a.mailbox, replies, tickSends))
  }

  /** The moves of an actor whose strand runs the task at its front to its end. */
  function TaskMoves(ref: ActorRef, a: Actor, replies: Message -> seq<Message>, tickSends: seq<Message>): seq<R.Move> {
    if a.strand == [] then [] else R.MovesFor(ref, TaskEvents(a.strand[0], a.mailbox, replies, tickSends))
  }

  lemma TaskMovesDo(model: R.Runtime, ref: ActorRef, replies: Message -> seq<Message>, tickSends: seq<Message>)
    requires ref in model.actors && model.actors[ref].phase.Idle? && model.actors[ref].strand != []
    ensures var a := model.actors[ref];
            R.CanMoves(model, TaskMoves(ref, a, replies, tickSends)) &&
            var after := R.DoAll(model, TaskMoves(ref, a, replies, tickSends));
            after.table == model.table && after.locals == model.locals && after.actors.Keys == model.actors.Keys &&
            after.actors == model.actors[ref := AfterTask(a, replies, tickSends)]
  {
    hide R.CanMoves, R.DoAll, R.MovesFor, Runs, Run, TaskEvents;
    var a := model.actors[ref];
    TaskRuns(a, replies, tickSends);
    R.MovesForActor(model, ref, TaskEvents(a.strand[0], a.mailbox, replies, tickSends));
  }

  /** What a snapshot of the heap's table is in the model. */
  ghost predicate IsSnapshot(actors: map<ActorId, ActorObject>, snapshot: seq<ActorObject>, order: seq<ActorId>) {
    (forall id :: id in order <==> id in actors) &&
    (forall i, j :: 0 <= i < j < |order| ==> order[i] != order[j]) &&
    |snapshot| == |order| && forall i :: 0 <= i < |order| ==> snapshot[i] == actors[order[i]]
  }

  ghost predicate PointTo(refs: map<ActorRef, ActorObject>, rs: seq<ActorRef>, snapshot: seq<ActorObject>) {
    |rs| == |snapshot| && forall i :: 0 <= i < |rs| ==> rs[i] in refs && refs[rs[i]] == snapshot[i]
  }

  lemma SnapshotRefs(threads: set<ThreadId>, history: seq<R.Move>, model: R.Runtime,
                     actors: map<ActorId, ActorObject>, refs: map<ActorRef, ActorObject>,
                     snapshot: seq<ActorObject>, order: seq<ActorId>)
    requires Consistent(threads, history, model, actors, refs) && IsSnapshot(actors, snapshot, order)
    ensures R.RuntimeInv(model) && Distinct(refs) && (forall id :: id in order ==> id in model.table) &&
            R.Enumerates(order, model.table)
    ensures PointTo(refs, R.RefsOf(model.table, order), snapshot)
  {
    hide R.RuntimeInv, Leads;
  }

  /** The states of the actor objects. */
  ghost function StatesOf(refs: map<ActorRef, ActorObject>): map<ActorRef, Actor>
    reads refs.Values
  {
    map r | r in refs :: refs[r].State()
  }

  lemma StateAt(refs: map<ActorRef, ActorObject>, ref: ActorRef)
    requires ref in refs
    ensures ref in StatesOf(refs) && StatesOf(refs)[ref] == refs[ref].State()
  {
  }

  ghost predicate Distinct(refs: map<ActorRef, ActorObject>) {
    forall r, q :: r in refs && q in refs && refs[r] == refs[q] ==> r == q
  }

  /** Enqueueing at one actor changes its state and no other. */
  method Deliver(actor: ActorObject, from: nat, payload: Bytes, ghost refs: map<ActorRef, ActorObject>,
                 ghost ref: ActorRef)
    requires Distinct(refs) && ref in refs && refs[ref] == actor
    modifies actor
    ensures StatesOf(refs) == old(StatesOf(refs))[ref := Enqueue(old(StatesOf(refs))[ref], Message(from, payload))]
  {
    actor.EnqueueMessage(from, payload);
  }

  /** And so does posting a tick. */
  method DeliverTick(actor: ActorObject, ghost refs: map<ActorRef, ActorObject>, ghost ref: ActorRef)
    requires Distinct(refs) && ref in refs && refs[ref] == actor
    modifies actor
    ensures StatesOf(refs) == old(StatesOf(refs))[ref := PostTick(old(StatesOf(refs))[ref])]
  {
    actor.ScheduleTick();
  }

  class ActorRuntimeObject {
    var actors: map<ActorId, ActorObject>
    ghost const threads: set<ThreadId>
    ghost var history: seq<R.Move>
    ghost var model: R.Runtime
    ghost var refs: map<ActorRef, ActorObject>

    ghost predicate Valid()
      reads this, refs.Values
    {
      Consistent(threads, history, model, actors, refs) && StatesOf(refs) == model.actors
    }

    constructor (threads: set<ThreadId>)
      ensures Valid() && history == [] && this.threads == threads && refs == map[]
    {
      hide Consistent;
      StartsConsistent(threads);
      actors := map[];
      this.threads := threads;
      history, model, refs := [], R.Init(threads), map[];
    }

    /** std::make_shared of an actor by a client. */
    method NewActor() returns (actor: ActorObject, ghost ref: ActorRef)
      requires Valid()
      modifies this`history, this`model, this`refs
      ensures Valid() && fresh(actor) && history == old(history) + [R.New]
      ensures refs == old(refs)[ref := actor] && ref !in old(refs) && ref in model.clients
    {
      hide Consistent;
      actor := new ActorObject();
      ref := model.nextRef;
      NewAdvances(threads, history, model, actors, refs, actor);
      history, model, refs := history + [R.New], R.Do(model, R.New), refs[ref := actor];
      assert StatesOf(refs) == old(StatesOf(refs))[ref := NEW_ACTOR];
    }

    method Spawn(id: ActorId, actor: ActorObject, ghost ref: ActorRef)
      requires Valid() && ref in model.clients && ref in refs && refs[ref] == actor
      modifies this`actors, this`history, this`model
      ensures Valid() && history == old(history) + [R.Move.Spawn(id, ref)]
    {
      hide Consistent, R.Do;
      SpawnAdvances(threads, history, model, actors, refs, id, ref);
      actors := actors[id := actor];
      history, model := history + [R.Move.Spawn(id, ref)], R.Do(model, R.Move.Spawn(id, ref));
    }

    method Kill(id: ActorId)
      requires Valid()
      modifies this`actors, this`history, this`model
      ensures Valid() && history == old(history) + [R.Move.Kill(id)]
    {
      hide Consistent, R.Do;
      KillAdvances(threads, history, model, actors, refs, id);
      actors := actors - {id};
      history, model := history + [R.Move.Kill(id)], R.Do(model, R.Move.Kill(id));
    }

    /** An unknown id drops the message. */
    method SendMessage(ghost t: ThreadId, from: nat, to: ActorId, payload: Bytes)
      requires Valid() && t in model.locals && model.locals[t].Resting?
      modifies this`history, this`model, refs.Values
      ensures Valid() && model.locals == old(model.locals)
      ensures history == old(history) + R.SendMoves(old(model), t, to, Message(from, payload))
    {
      hide Consistent, Distinct, R.RuntimeInv, R.SendMoves, R.CanMoves, R.DoAll, Enqueue, StatesOf;
      TableFacts(threads, history, model, actors, refs);
      ghost var moves := R.SendMoves(model, t, to, Message(from, payload));
      R.SendMovesDo(model, t, to, Message(from, payload));
      AdvanceActors(threads, history, model, moves, actors, refs);
      if to in actors {
        Deliver(actors[to], from, payload, refs, model.table[to]);
      }
      history, model := history + moves, R.DoAll(model, moves);
    }

    /** The snapshot of Tick: the actors of all ids, in some order. */
    method TakeSnapshot() returns (snapshot: seq<ActorObject>, ghost order: seq<ActorId>)
      ensures IsSnapshot(actors, snapshot, order)
    {
      snapshot, order := [], [];
      var ids := actors.Keys;
      while ids != {}
        invariant ids <= actors.Keys
        invariant forall id :: id in order <==> id in actors.Keys - ids
        invariant forall i, j :: 0 <= i < j < |order| ==> order[i] != order[j]
        invariant |snapshot| == |order|
        invariant forall i :: 0 <= i < |order| ==> order[i] in actors && snapshot[i] == actors[order[i]]
        decreases |ids|
      {
        var id :| id in ids;
        snapshot := snapshot + [actors[id]];
        order := order + [id];
        ids := ids - {id};
      }
    }

    /** Every actor gets one tick for each id it is registered under. */
    method Tick(ghost t: ThreadId) returns (ghost order: seq<ActorId>)
      requires Valid() && t in model.locals && model.locals[t].Resting?
      modifies this`history, this`model, refs.Values
      ensures Valid() && model.locals == old(model.locals)
      ensures R.Enumerates(order, old(model.table)) && history == old(history) + R.TickMoves(t, order)
      ensures R.Ticked(old(model), t, R.RefsOf(old(model.table), order), model)
    {
      var snapshot;
      snapshot, order := TakeSnapshot();
      hide Consistent, Distinct, R.RuntimeInv, R.Enumerates, R.RefsOf, R.TickMoves, R.Ticked, R.CanMoves, R.DoAll;
      hide IsSnapshot, PointTo, TickedTo, StatesOf;
      SnapshotRefs(threads, history, model, actors, refs, snapshot, order);
      TickLoop(snapshot, refs, R.RefsOf(model.table, order));
      AllTicked(model, t, order, StatesOf(refs));
      AdvanceActors(threads, history, model, R.TickMoves(t, order), actors, refs);
      history, model := history + R.TickMoves(t, order), R.DoAll(model, R.TickMoves(t, order));
    }

    /** The strand of an actor runs the task at its front, whether or not it is still in the table. */
    method RunStrand(actor: ActorObject, ghost ref: ActorRef, replies: Message -> seq<Message>, tickSends: seq<Message>)
      requires Valid() && ref in refs && refs[ref] == actor && actor.phase.Idle? && actor.strand != []
      modifies this`history, this`model, actor
      ensures Valid() && model.table == old(model.table) && model.locals == old(model.locals)
      ensures history == old(history) + TaskMoves(ref, old(model.actors[ref]), replies, tickSends)
    {
      hide Consistent, Distinct, R.RuntimeInv, R.CanMoves, R.DoAll, TaskMoves, AfterTask;
      StateAt(refs, ref);
      hide StatesOf;
      TableFacts(threads, history, model, actors, refs);
      ghost var moves := TaskMoves(ref, model.actors[ref], replies, tickSends);
      TaskMovesDo(model, ref, replies, tickSends);
      AdvanceActors(threads, history, model, moves, actors, refs);
      RunOneTask(actor, refs, ref, replies, tickSends);
      history, model := history + moves, R.DoAll(model, moves);
    }

    /** No call of the runtime loses what an actor object accepted: until it has handled everything,
        somebody holds it and its strand can step. */
    lemma NothingIsLost()
      requires Valid()
      ensures R.NoDangling(model)
      ensures forall r :: r in refs && refs[r].handled != refs[r].accepted ==>
                            R.Held(model, r) && CanStep(refs[r].State())
    {
      R.NothingAcceptedIsLost(threads, history);
      assert forall r :: r in refs ==> StatesOf(refs)[r] == refs[r].State();
    }
  }

  method RunOneTask(actor: ActorObject, ghost refs: map<ActorRef, ActorObject>, ghost ref: ActorRef,
                    replies: Message -> seq<Message>, tickSends: seq<Message>)
    requires Distinct(refs) && ref in refs && refs[ref] == actor && actor.phase.Idle? && actor.strand != []
    modifies actor
    ensures var a := old(StatesOf(refs))[ref];
            StatesOf(refs) == old(StatesOf(refs))[ref := AfterTask(a, replies, tickSends)]
  {
    actor.RunTask(replies, tickSends);
  }

  /** The second loop of Tick. */
  method TickLoop(snapshot: seq<ActorObject>, ghost refs: map<ActorRef, ActorObject>, ghost rs: seq<ActorRef>)
    requires Distinct(refs) && PointTo(refs, rs, snapshot)
    modifies refs.Values
    ensures TickedTo(old(StatesOf(refs)), StatesOf(refs), rs, |rs|)
  {
    ghost var before := StatesOf(refs);
    assert TickedTo(before, before, rs, 0);
    hide TickedTo, PostTick, Distinct;
    var i := 0;
    while i < |snapshot|
      invariant 0 <= i <= |snapshot|
      invariant TickedTo(before, StatesOf(refs), rs, i)
    {
      assert rs[i] in refs && refs[rs[i]] in refs.Values;
      OneMoreTick(before, StatesOf(refs), rs, i);
      DeliverTick(snapshot[i], refs, rs[i]);
      i := i + 1;
    }
  }
}
