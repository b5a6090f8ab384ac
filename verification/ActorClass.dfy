/** src/actor/actor.cpp in place: the methods of Actor, and the strand running one task. What
    HandleMessage and Tick do is left to subclasses; here they may send messages to their own
    actor, the case that touches the mailbox while the batch is being handled. */
module ActorClass {
  import opened Basics
  import opened ActorMachine

  /** The events of handling one batch: each handler call, then what it sends to itself. */
  function BatchEvents(batch: seq<Message>, replies: Message -> seq<Message>): seq<Event> {
    if batch == [] then []
    else BatchEvents(Front(batch), replies) + [Step] + Sends(replies(Last(batch)))
  }

  function Sends(ms: seq<Message>): seq<Event> {
    seq(|ms|, i requires 0 <= i < |ms| => Send(ms[i]))
  }

  /** Starting a task, swapping, handling the batch, leaving it, and the tick body if any. */
  function TaskEvents(task: Task, batch: seq<Message>, replies: Message -> seq<Message>,
                      tickSends: seq<Message>): seq<Event> {
    [Step, Step] + BatchEvents(batch, replies) + [Step] +
    if task.Tick? then Sends(tickSends) + [Step] else []
  }

  class ActorObject {
    var mailbox: seq<Message>
    var strand: seq<Task>
    ghost var phase: Phase
    ghost var accepted: seq<Message>
    ghost var handled: seq<Message>
    ghost var stolen: nat
    ghost var spurious: nat

    ghost function State(): Actor
      reads this
    {
      Actor(mailbox, strand, phase, accepted, handled, stolen, spurious)
    }

    constructor ()
      ensures State() == NEW_ACTOR
    {
      mailbox, strand := [], [];
      phase, accepted, handled, stolen, spurious := Idle, [], [], 0, 0;
    }

    method EnqueueMessage(sender: nat, payload: Bytes)
      modifies this
      ensures mailbox == old(mailbox) + [Message(sender, payload)]
      ensures strand == if old(mailbox) == [] then old(strand) + [Drain] else old(strand)
      ensures State() == Enqueue(old(State()), Message(sender, payload))
    {
      var wasEmpty := mailbox == [];
      mailbox := mailbox + [Message(sender, payload)];
      if wasEmpty {
        strand := strand + [Drain];
      }
      accepted := accepted + [Message(sender, payload)];
    }

    method ScheduleTick()
      modifies this
      ensures State() == PostTick(old(State()))
    {
      strand := strand + [Tick];
    }

    method EnqueueAll(ms: seq<Message>)
      modifies this
      ensures State() == Run(old(State()), Sends(ms))
    {
      var i := 0;
      assert Sends(ms)[..0] == [];
      while i < |ms|
        invariant 0 <= i <= |ms|
        invariant State() == Run(old(State()), Sends(ms)[..i])
      {
        EnqueueMessage(ms[i].sender, ms[i].payload);
        assert Sends(ms)[..i + 1] == Sends(ms)[..i] + [Send(ms[i])];
        RunAppend(old(State()), Sends(ms)[..i], [Send(ms[i])]);
        i := i + 1;
      }
      assert Sends(ms)[..i] == Sends(ms);
    }

    /** The handler of a subclass, which may send to its own actor. */
    method HandleMessage(msg: Message, replies: Message -> seq<Message>)
      requires phase.Handling? && phase.rest != [] && msg == phase.rest[0]
      modifies this
      ensures State() == Run(Apply(old(State()), Step), Sends(replies(msg)))
    {
      handled := handled + [msg];
      phase := Handling(phase.task, phase.rest[1..]);
      EnqueueAll(replies(msg));
    }

    /** Swap the mailbox out, then handle the batch message by message; the handlers' sends to
        this actor land in the new mailbox and wait for the next task. */
    method ProcessMessages(replies: Message -> seq<Message>)
      requires phase.Starting?
      modifies this
      ensures State() == Run(old(State()), [Step] + BatchEvents(old(mailbox), replies))
      ensures phase == Handling(old(phase.task), [])
      ensures handled == old(handled) + old(mailbox)
    {
      ghost var start := State();
      var local := mailbox;
      mailbox := [];
      if phase.task.Tick? && local != [] {
        stolen := stolen + 1;
      }
      if phase.task.Drain? && local == [] {
        spurious := spurious + 1;
      }
      phase := Handling(phase.task, local);
      SwapIsFirst(start, State(), replies);
      hide Run, Sends, AfterTurns;
      var i := 0;
      while i < |local|
        invariant 0 <= i <= |local|
        invariant State() == AfterTurns(start, local, replies, i)
      {
        var msg := local[i];
        AfterTurnsPhase(start, local, replies, i);
        ghost var before := State();
        HandleMessage(msg, replies);
        NextTurn(start, local, replies, i, before);
        i := i + 1;
      }
      AfterTurnsPhase(start, local, replies, i);
      AllTurns(start, local, replies);
    }

    /** The strand runs the task at its front to its end. */
    method RunTask(replies: Message -> seq<Message>, tickSends: seq<Message>)
      requires phase.Idle? && strand != []
      modifies this
      ensures State() == Run(old(State()), TaskEvents(old(strand[0]), old(mailbox), replies, tickSends))
      ensures phase.Idle? && handled == old(handled) + old(mailbox)
    {
      ghost var start := State();
      var task := strand[0];
      ghost var batch := mailbox;
      strand := strand[1..];
      phase := Starting(task);
      assert State() == Apply(start, Step);
      ProcessMessages(replies);
      ghost var done := State();
      hide Run, Sends, BatchEvents;
      if task == Tick {
        phase := Ticking;
        assert State() == Apply(done, Step);
        SendsKeep(State(), tickSends);
        EnqueueAll(tickSends);
        phase := Idle;
        assert State() == Apply(Run(Apply(done, Step), Sends(tickSends)), Step);
      } else {
        phase := Idle;
        assert State() == Apply(done, Step);
      }
      TaskIsItsEvents(start, task, batch, replies, tickSends);
    }
  }

  /** The state after the swap and i turns of the loop of ProcessMessages. */
  ghost function AfterTurns(start: Actor, local: seq<Message>, replies: Message -> seq<Message>, i: nat): Actor
    requires i <= |local|
  {
    Run(start, [Step] + BatchEvents(local[..i], replies))
  }

  lemma SwapIsFirst(start: Actor, s: Actor, replies: Message -> seq<Message>)
    requires s == Apply(start, Step)
    ensures s == AfterTurns(start, start.mailbox, replies, 0)
  {
    RunOne(start, Step);
    assert [Step] + BatchEvents(start.mailbox[..0], replies) == [Step];
  }

  lemma AllTurns(start: Actor, local: seq<Message>, replies: Message -> seq<Message>)
    ensures AfterTurns(start, local, replies, |local|) == Run(start, [Step] + BatchEvents(local, replies))
  {
    assert local[..|local|] == local;
  }

  /** One turn: the strand steps, and then the handler sends. */
  lemma NextTurn(start: Actor, local: seq<Message>, replies: Message -> seq<Message>, i: nat, before: Actor)
    requires i < |local| && before == AfterTurns(start, local, replies, i)
    ensures AfterTurns(start, local, replies, i + 1) == Run(Apply(before, Step), Sends(replies(local[i])))
  {
    hide Run, Sends, Apply;
    var events := [Step] + BatchEvents(local[..i], replies);
    assert Front(local[..i + 1]) == local[..i];
    assert [Step] + BatchEvents(local[..i + 1], replies) == (events + [Step]) + Sends(replies(local[i]));
    RunAppend(start, events + [Step], Sends(replies(local[i])));
    RunAppend(start, events, [Step]);
    RunOne(before, Step);
  }

  /** After i turns the rest of the batch is still to be handled. */
  lemma {:induction false} AfterTurnsPhase(start: Actor, local: seq<Message>, replies: Message -> seq<Message>, i: nat)
    requires start.phase.Starting? && start.mailbox == local && i <= |local|
    ensures var s := AfterTurns(start, local, replies, i);
            s.phase == Handling(start.phase.task, local[i..]) && s.handled == start.handled + local[..i]
  {
    if i == 0 {
      SwapIsFirst(start, Apply(start, Step), replies);
    } else {
      hide AfterTurns, Sends;
      AfterTurnsPhase(start, local, replies, i - 1);
      var before := AfterTurns(start, local, replies, i - 1);
      NextTurn(start, local, replies, i - 1, before);
      SendsKeep(Apply(before, Step), replies(local[i - 1]));
      assert start.handled + local[..i - 1] + [local[i - 1]] == start.handled + local[..i];
    }
  }

  /** The pieces of a task are the events of a task. */
  lemma TaskIsItsEvents(start: Actor, task: Task, batch: seq<Message>, replies: Message -> seq<Message>,
                        tickSends: seq<Message>)
    ensures var done := Run(Apply(start, Step), [Step] + BatchEvents(batch, replies));
            Run(start, TaskEvents(task, batch, replies, tickSends)) ==
            if task.Tick? then Apply(Run(Apply(done, Step), Sends(tickSends)), Step) else Apply(done, Step)
  {
    hide Run;
    var middle := [Step] + BatchEvents(batch, replies);
    var events := [Step] + middle;
    RunOne(start, Step);
    RunAppend(start, [Step], middle);
    RunOne(Run(start, events), Step);
    RunAppend(start, events, [Step]);
    if task.Tick? {
      RunAppend(start, events + [Step], Sends(tickSends));
      var ticked := events + [Step] + Sends(tickSends);
      RunOne(Run(start, ticked), Step);
      RunAppend(start, ticked, [Step]);
      assert ticked + [Step] == TaskEvents(task, batch, replies, tickSends);
    } else {
      assert events + [Step] == TaskEvents(task, batch, replies, tickSends);
    }
  }

  /** Sends change neither the running batch nor what was handled. */
  lemma {:induction false} SendsKeep(a: Actor, ms: seq<Message>)
    ensures Run(a, Sends(ms)).phase == a.phase && Run(a, Sends(ms)).handled == a.handled
    decreases |ms|
  {
    if ms != [] {
      assert Sends(ms)[1..] == Sends(ms[1..]);
      SendsKeep(Enqueue(a, ms[0]), ms[1..]);
    }
  }

  // A task only steps the strand while it has something to do, and only then sends.

  lemma {:induction false} SendsRun(a: Actor, ms: seq<Message>)
    requires CanStep(a)
    ensures Runs(a, Sends(ms)) && CanStep(Run(a, Sends(ms)))
    decreases |ms|
  {
    if ms != [] {
      assert Sends(ms)[1..] == Sends(ms[1..]);
      SendsRun(Enqueue(a, ms[0]), ms[1..]);
    }
  }

  /** A step, and then sends, after other events. */
  lemma StepAndSendsRun(a: Actor, events: seq<Event>, ms: seq<Message>)
    requires Runs(a, events) && CanStep(Run(a, events)) && CanStep(Apply(Run(a, events), Step))
    ensures Runs(a, events + [Step] + Sends(ms))
    ensures Run(a, events + [Step] + Sends(ms)) == Run(Apply(Run(a, events), Step), Sends(ms))
  {
    hide Run, Runs, Sends, CanStep, Apply;
    RunOne(Run(a, events), Step);
    RunsAppend(a, events, [Step]);
    RunAppend(a, events, [Step]);
    SendsRun(Apply(Run(a, events), Step), ms);
    RunsAppend(a, events + [Step], Sends(ms));
    RunAppend(a, events + [Step], Sends(ms));
  }

  lemma {:induction false} BatchRuns(a: Actor, task: Task, batch: seq<Message>, rest: seq<Message>,
                                     replies: Message -> seq<Message>)
    requires a.phase == Handling(task, batch + rest)
    ensures Runs(a, BatchEvents(batch, replies)) && Run(a, BatchEvents(batch, replies)).phase == Handling(task, rest)
    decreases |batch|
  {
    if batch == [] {
      assert batch + rest == rest;
    } else {
      hide Run, Runs, Sends;
      var events, msg := BatchEvents(Front(batch), replies), Last(batch);
      assert batch + rest == Front(batch) + ([msg] + rest);
      BatchRuns(a, task, Front(batch), [msg] + rest, replies);
      assert ([msg] + rest)[1..] == rest;
      StepAndSendsRun(a, events, replies(msg));
      SendsKeep(Apply(Run(a, events), Step), replies(msg));
    }
  }

  /** The whole task. */
  lemma TaskRuns(a: Actor, replies: Message -> seq<Message>, tickSends: seq<Message>)
    requires a.phase.Idle? && a.strand != []
    ensures Runs(a, TaskEvents(a.strand[0], a.mailbox, replies, tickSends))
  {
    hide Run, Runs, Sends, BatchEvents;
    var task, begun := a.strand[0], Apply(a, Step);
    var swapped := Apply(begun, Step);
    RunOne(a, Step);
    RunAppend(a, [Step], [Step]);
    RunOne(begun, Step);
    RunsAppend(a, [Step], [Step]);
    var batch := BatchEvents(a.mailbox, replies);
    assert a.mailbox + [] == a.mailbox;
    BatchRuns(swapped, task, a.mailbox, [], replies);
    assert [Step] + [Step] == [Step, Step];
    RunsAppend(a, [Step, Step], batch);
    RunAppend(a, [Step, Step], batch);
    var events := [Step, Step] + batch;
    LastStepsRun(a, events, task, tickSends);
    assert events + [Step] + (if task.Tick? then Sends(tickSends) + [Step] else []) ==
           TaskEvents(task, a.mailbox, replies, tickSends);
  }

  /** Leaving the batch, and the tick body if there is one. */
  lemma LastStepsRun(a: Actor, events: seq<Event>, task: Task, tickSends: seq<Message>)
    requires Runs(a, events) && Run(a, events).phase == Handling(task, [])
    ensures Runs(a, events + [Step] + if task.Tick? then Sends(tickSends) + [Step] else [])
  {
    hide Run, Runs, Sends;
    RunOne(Run(a, events), Step);
    if task.Tick? {
      StepAndSendsRun(a, events, tickSends);
      SendsKeep(Apply(Run(a, events), Step), tickSends);
      var ticked := events + [Step] + Sends(tickSends);
      RunOne(Run(a, ticked), Step);
      RunsAppend(a, ticked, [Step]);
      assert ticked + [Step] == events + [Step] + (Sends(tickSends) + [Step]);
    } else {
      RunsAppend(a, events, [Step]);
      assert events + [Step] + [] == events + [Step];
    }
  }
}
