/** The actor runtime told from its moves alone: which actor an id names, which message a thread is
    about to deliver and to whom, and what each actor object has accepted. */
module ActorSends {
  import opened Basics
  import opened ActorMachine
  import opened ActorRuntime

  /** The actor an id names: the one of the last Spawn, unless a Kill came after it. */
  function Named(moves: seq<Move>, id: ActorId): Option<ActorRef> {
    if moves == [] then None
    else
      match Last(moves)
      case Spawn(i, ref) => if i == id then Some(ref) else Named(Front(moves), id)
      case Kill(i) => if i == id then None else Named(Front(moves), id)
      case _ => Named(Front(moves), id)
  }

  /** What a thread is about to deliver: the message of its last lookup, to the actor the id named
      then. */
  function InHand(moves: seq<Move>, t: ThreadId): Option<(ActorRef, Message)> {
    if moves == [] then None
    else
      match Last(moves)
      case Lookup(u, to, msg) =>
        if u != t then InHand(Front(moves), t)
        else if Named(Front(moves), to).Some? then Some((Named(Front(moves), to).value, msg))
        else None
      case Deliver(u) => if u == t then None else InHand(Front(moves), t)
      case _ => InHand(Front(moves), t)
  }

  /** The messages handed to an actor: those delivered after a lookup, and those enqueued directly. */
  function HandedTo(moves: seq<Move>, ref: ActorRef): seq<Message> {
    if moves == [] then []
    else
      HandedTo(Front(moves), ref) +
      match Last(moves)
      case Deliver(t) =>
        var hand := InHand(Front(moves), t);
        if hand.Some? && hand.value.0 == ref then [hand.value.1] else []
      case Direct(r, msg) => if r == ref then [msg] else []
      case _ => []
  }

  // The same in the runtime.

  function NamedIn(s: Runtime, id: ActorId): Option<ActorRef> {
    if id in s.table then Some(s.table[id]) else None
  }

  function HandIn(s: Runtime, t: ThreadId): Option<(ActorRef, Message)> {
    if t in s.locals && s.locals[t].Sending? then Some((s.locals[t].target, s.locals[t].m)) else None
  }

  function AcceptedIn(s: Runtime, ref: ActorRef): seq<Message> {
    if ref in s.actors || ref in s.collected then ActorOf(s, ref).accepted else []
  }

  /** The runtime is what the moves tell. */
  ghost predicate Told(s: Runtime, moves: seq<Move>) {
    (forall id :: Named(moves, id) == NamedIn(s, id)) && (forall t :: InHand(moves, t) == HandIn(s, t)) &&
    forall ref :: HandedTo(moves, ref) == AcceptedIn(s, ref)
  }

  lemma TableTold(s: Runtime, moves: seq<Move>, m: Move, id: ActorId)
    requires Told(s, moves) && CanMove(s, m)
    ensures Named(moves + [m], id) == NamedIn(Do(s, m), id)
  {
    assert Front(moves + [m]) == moves && Last(moves + [m]) == m;
    assert Named(moves, id) == NamedIn(s, id);
    hide Held, Enumerates, HandedTo, InHand;
  }

  lemma HandTold(s: Runtime, moves: seq<Move>, m: Move, t: ThreadId)
    requires Told(s, moves) && CanMove(s, m)
    ensures InHand(moves + [m], t) == HandIn(Do(s, m), t)
  {
    assert Front(moves + [m]) == moves && Last(moves + [m]) == m;
    assert InHand(moves, t) == HandIn(s, t);
    assert m.Lookup? ==> Named(moves, m.to) == NamedIn(s, m.to);
    hide Held, Enumerates, HandedTo, Named;
  }

  /** What a move hands to an actor is what the actor gets sent. */
  lemma HandsOver(s: Runtime, moves: seq<Move>, m: Move, ref: ActorRef)
    requires Told(s, moves) && CanMove(s, m)
    ensures var e := EventFor(s, m, ref);
            HandedTo(moves + [m], ref) ==
            HandedTo(moves, ref) + if e.Some? && e.value.Send? then [e.value.m] else []
  {
    assert Front(moves + [m]) == moves && Last(moves + [m]) == m;
    if m.Deliver? {
      assert InHand(moves, m.t) == HandIn(s, m.t);
    }
    hide Enumerates, Held, InHand, Named;
  }

  lemma AcceptedAfter(a: Actor, e: Event)
    ensures Apply(a, e).accepted == a.accepted + if e.Send? then [e.m] else []
  {
  }

  /** Nothing is handed to an actor that is not there, and a new one starts with nothing. */
  lemma NewIsEmpty(s: Runtime, m: Move, ref: ActorRef)
    requires RuntimeInv(s) && CanMove(s, m) && ref !in s.actors && ref !in s.collected
    ensures EventFor(s, m, ref).Some? ==> EventFor(s, m, ref).value.Schedule?
    ensures ref in Do(s, m).actors ==> Do(s, m).actors[ref] == NEW_ACTOR
    ensures ref !in Do(s, m).collected
  {
    hide Enumerates, ActorsInv;
  }

  lemma AcceptedTold(s: Runtime, moves: seq<Move>, m: Move, ref: ActorRef)
    requires RuntimeInv(s) && Told(s, moves) && CanMove(s, m)
    ensures HandedTo(moves + [m], ref) == AcceptedIn(Do(s, m), ref)
  {
    assert HandedTo(moves, ref) == AcceptedIn(s, ref);
    hide RuntimeInv, Do, CanMove, Told, HandedTo, EventFor, Apply;
    HandsOver(s, moves, m, ref);
    if ref in s.actors || ref in s.collected {
      MoveOnActor(s, m, ref);
      if EventFor(s, m, ref).Some? {
        AcceptedAfter(ActorOf(s, ref), EventFor(s, m, ref).value);
      }
    } else {
      NewIsEmpty(s, m, ref);
    }
  }

  lemma MoveTold(s: Runtime, moves: seq<Move>, m: Move)
    requires RuntimeInv(s) && Told(s, moves) && CanMove(s, m)
    ensures Told(Do(s, m), moves + [m])
  {
    hide RuntimeInv, Do, CanMove, NamedIn, HandIn, AcceptedIn;
    var s' := Do(s, m);
    forall id ensures Named(moves + [m], id) == NamedIn(s', id) {
      TableTold(s, moves, m, id);
    }
    forall t ensures InHand(moves + [m], t) == HandIn(s', t) {
      HandTold(s, moves, m, t);
    }
    forall ref ensures HandedTo(moves + [m], ref) == AcceptedIn(s', ref) {
      AcceptedTold(s, moves, m, ref);
    }
  }

  lemma {:induction false} MovesTold(s: Runtime, before: seq<Move>, moves: seq<Move>)
    requires RuntimeInv(s) && Told(s, before) && CanMoves(s, moves)
    ensures Told(DoAll(s, moves), before + moves)
    decreases |moves|
  {
    if moves == [] {
      assert before + moves == before;
    } else {
      hide RuntimeInv, Told, Do, CanMove;
      MoveKeeps(s, moves[0]);
      MoveTold(s, before, moves[0]);
      MovesTold(Do(s, moves[0]), before + [moves[0]], moves[1..]);
      assert before + [moves[0]] + moves[1..] == before + moves;
    }
  }

  /** In every run an id names the actor of its last Spawn, a message goes to the actor its id named
      when it was looked up, and an actor object has accepted exactly the messages handed to it, in
      order: none is dropped, repeated or made up. */
  lemma AcceptedIsHanded(threads: set<ThreadId>, moves: seq<Move>)
    requires CanMoves(Init(threads), moves)
    ensures var s := DoAll(Init(threads), moves);
            (forall id :: NamedIn(s, id) == Named(moves, id)) && (forall t :: HandIn(s, t) == InHand(moves, t)) &&
            (forall ref :: ref in s.actors || ref in s.collected ==> ActorOf(s, ref).accepted == HandedTo(moves, ref))
  {
    assert Told(Init(threads), []);
    MovesTold(Init(threads), [], moves);
    assert [] + moves == moves;
    var s := DoAll(Init(threads), moves);
    assert forall ref :: ref in s.actors || ref in s.collected ==> AcceptedIn(s, ref) == ActorOf(s, ref).accepted;
  }

  /** So every message handed to an actor object that was collected has been handled by it, and of a
      living one what it handled, its batch and its mailbox are the messages handed to it. */
  lemma HandedIsHandled(threads: set<ThreadId>, moves: seq<Move>, ref: ActorRef)
    requires CanMoves(Init(threads), moves)
    ensures var s := DoAll(Init(threads), moves);
            (ref in s.collected ==> s.collected[ref].handled == HandedTo(moves, ref)) &&
            (ref in s.actors ==>
               s.actors[ref].handled + Rest(s.actors[ref].phase) + s.actors[ref].mailbox == HandedTo(moves, ref))
  {
    MovesKeep(Init(threads), moves);
    AcceptedIsHanded(threads, moves);
    assert ref in DoAll(Init(threads), moves).actors ==> ActorMachine.Inv(DoAll(Init(threads), moves).actors[ref]);
    hide DoAll, CanMoves, HandedTo;
  }
}
