/** The mailbox and strand of one actor, src/actor/actor.cpp.

    The strand is a FIFO of posted tasks of which at most one runs at a time. Both users of
    the mailbox hold mailbox_mutex_, so EnqueueMessage and the swap of ProcessMessages are one
    step each; senders on other threads may step between any two steps of the running task,
    and so may the running handler itself. */
module ActorMachine {
  import opened Basics

  datatype Message = Message(sender: nat, payload: Bytes)

  datatype Task = Drain | Tick

  /** What the strand is doing. */
  datatype Phase =
    | Idle
    | Starting(task: Task)                        // the task began, its swap is next
    | Handling(task: Task, rest: seq<Message>)    // the local batch, not yet handled part
    | Ticking                                     // in the tick body

  /** `accepted` and `handled` are histories; `stolen` counts ticks that swapped out a
      nonempty mailbox, `spurious` drains that found it empty. */
  datatype Actor = Actor(
    mailbox: seq<Message>,
    strand: seq<Task>,
    phase: Phase,
    accepted: seq<Message>,
    handled: seq<Message>,
    stolen: nat,
    spurious: nat)

  const NEW_ACTOR := Actor([], [], Idle, [], [], 0, 0)

  function Enqueue(a: Actor, m: Message): Actor {
    a.(mailbox := a.mailbox + [m],
       strand := if a.mailbox == [] then a.strand + [Drain] else a.strand,
       accepted := a.accepted + [m])
  }

  function PostTick(a: Actor): Actor {
    a.(strand := a.strand + [Tick])
  }

  function PostTicks(a: Actor, n: nat): Actor {
    if n == 0 then a else PostTick(PostTicks(a, n - 1))
  }

  function Swap(a: Actor, task: Task): Actor {
    a.(mailbox := [],
       phase := Handling(task, a.mailbox),
       stolen := if task.Tick? && a.mailbox != [] then a.stolen + 1 else a.stolen,
       spurious := if task.Drain? && a.mailbox == [] then a.spurious + 1 else a.spurious)
  }

  predicate CanStep(a: Actor) {
    !(a.phase.Idle? && a.strand == [])
  }

  /** The next step of the strand; none if it has nothing to do. */
  function StrandStep(a: Actor): Actor {
    match a.phase
    case Idle => if a.strand == [] then a else a.(phase := Starting(a.strand[0]), strand := a.strand[1..])
    case Starting(task) => Swap(a, task)
    case Handling(task, rest) =>
      if rest != [] then a.(phase := Handling(task, rest[1..]), handled := a.handled + [rest[0]])
      else if task.Tick? then a.(phase := Ticking)
      else a.(phase := Idle)
    case Ticking => a.(phase := Idle)
  }

  datatype Event = Send(m: Message) | Schedule | Step

  function Apply(a: Actor, e: Event): Actor {
    match e
    case Send(m) => Enqueue(a, m)
    case Schedule => PostTick(a)
    case Step => StrandStep(a)
  }

  function Run(a: Actor, events: seq<Event>): Actor
    decreases |events|
  {
    if events == [] then a else Run(Apply(a, events[0]), events[1..])
  }

  /** Steps of the strand while it has something to do, and sends in between. */
  predicate Runs(a: Actor, events: seq<Event>)
    decreases |events|
  {
    events == [] || (!events[0].Schedule? && CanStep(a) && Runs(Apply(a, events[0]), events[1..]))
  }

  function Rest(p: Phase): seq<Message> {
    if p.Handling? then p.rest else []
  }

  function DrainsIn(strand: seq<Task>): nat {
    if strand == [] then 0 else (if Last(strand).Drain? then 1 else 0) + DrainsIn(Front(strand))
  }

  /** Drain tasks that have not swapped yet. */
  function PendingDrains(a: Actor): nat {
    DrainsIn(a.strand) + if a.phase == Starting(Drain) then 1 else 0
  }

  /** Exactly-once FIFO, and the exact accounting of wakeups. */
  ghost predicate Inv(a: Actor) {
    a.handled + Rest(a.phase) + a.mailbox == a.accepted &&
    PendingDrains(a) == (if a.mailbox != [] then 1 else 0) + a.stolen - a.spurious &&
    (a.mailbox != [] ==> PendingDrains(a) >= 1)
  }

  lemma {:induction false} DrainsAppend(strand: seq<Task>, task: Task)
    ensures DrainsIn(strand + [task]) == DrainsIn(strand) + if task.Drain? then 1 else 0
  {
    assert Front(strand + [task]) == strand;
  }

  lemma {:induction false} DrainsPop(strand: seq<Task>)
    requires strand != []
    ensures DrainsIn(strand) == DrainsIn(strand[1..]) + if strand[0].Drain? then 1 else 0
  {
    if |strand| > 1 {
      DrainsPop(Front(strand));
      assert Front(strand)[1..] == Front(strand[1..]);
    }
  }

  lemma SendKeeps(a: Actor, m: Message)
    requires Inv(a)
    ensures Inv(Enqueue(a, m))
  {
    DrainsAppend(a.strand, Drain);
    assert a.handled + Rest(a.phase) + (a.mailbox + [m]) == a.accepted + [m];
  }

  lemma StepKeeps(a: Actor)
    requires Inv(a)
    ensures Inv(StrandStep(a))
  {
    match a.phase {
      case Idle => if a.strand != [] { DrainsPop(a.strand); }
      case Starting(_) => assert a.handled + a.mailbox + [] == a.handled + [] + a.mailbox;
      case Handling(_, rest) =>
        if rest != [] {
          assert rest == [rest[0]] + rest[1..];
          assert a.handled + [rest[0]] + rest[1..] + a.mailbox == a.handled + rest + a.mailbox;
        }
      case Ticking =>
    }
  }

  lemma ApplyKeeps(a: Actor, e: Event)
    requires Inv(a)
    ensures Inv(Apply(a, e))
  {
    match e {
      case Send(m) => SendKeeps(a, m);
      case Schedule => DrainsAppend(a.strand, Tick);
      case Step => StepKeeps(a);
    }
  }

  lemma {:induction false} RunKeeps(a: Actor, events: seq<Event>)
    requires Inv(a)
    ensures Inv(Run(a, events))
    decreases |events|
  {
    if events != [] {
      ApplyKeeps(a, events[0]);
      RunKeeps(Apply(a, events[0]), events[1..]);
    }
  }

  lemma {:induction false} RunAppend(a: Actor, xs: seq<Event>, ys: seq<Event>)
    ensures Run(a, xs + ys) == Run(Run(a, xs), ys)
    decreases |xs|
  {
    if xs == [] {
      assert xs + ys == ys;
    } else {
      assert (xs + ys)[0] == xs[0] && (xs + ys)[1..] == xs[1..] + ys;
      RunAppend(Apply(a, xs[0]), xs[1..], ys);
    }
  }

  lemma {:induction false} RunsAppend(a: Actor, xs: seq<Event>, ys: seq<Event>)
    requires Runs(a, xs) && Runs(Run(a, xs), ys)
    ensures Runs(a, xs + ys)
    decreases |xs|
  {
    if xs == [] {
      assert xs + ys == ys;
    } else {
      assert (xs + ys)[0] == xs[0] && (xs + ys)[1..] == xs[1..] + ys;
      RunsAppend(Apply(a, xs[0]), xs[1..], ys);
    }
  }

  lemma RunOne(a: Actor, e: Event)
    ensures Run(a, [e]) == Apply(a, e)
    ensures !e.Schedule? && CanStep(a) ==> Runs(a, [e])
  {
    assert [e][1..] == [] && Run(a, [e]) == Run(Apply(a, e), []);
    assert Runs(Apply(a, e), []);
  }

  /** The messages sent, told from the events alone. */
  function Sent(events: seq<Event>): seq<Message> {
    if events == [] then [] else (if events[0].Send? then [events[0].m] else []) + Sent(events[1..])
  }

  /** Nothing is dropped or made up: what is accepted is what is sent, in order. */
  lemma {:induction false} AcceptedIsSent(a: Actor, events: seq<Event>)
    ensures Run(a, events).accepted == a.accepted + Sent(events)
    decreases |events|
  {
    if events != [] {
      AcceptedIsSent(Apply(a, events[0]), events[1..]);
    }
  }

  /** In every reachable state the messages handled, the rest of the running batch and the
      mailbox are the messages sent, in order. */
  lemma ExactlyOnceInOrder(events: seq<Event>)
    ensures var a := Run(NEW_ACTOR, events);
            a.handled + Rest(a.phase) + a.mailbox == Sent(events) == a.accepted
  {
    RunKeeps(NEW_ACTOR, events);
    AcceptedIsSent(NEW_ACTOR, events);
  }

  /** How often in a run a tick finds messages when it swaps, and a drain none. */
  function Steals(a: Actor, events: seq<Event>): nat
    decreases |events|
  {
    if events == [] then 0
    else (if events[0].Step? && a.phase == Starting(Tick) && a.mailbox != [] then 1 else 0) +
         Steals(Apply(a, events[0]), events[1..])
  }

  function EmptyDrains(a: Actor, events: seq<Event>): nat
    decreases |events|
  {
    if events == [] then 0
    else (if events[0].Step? && a.phase == Starting(Drain) && a.mailbox == [] then 1 else 0) +
         EmptyDrains(Apply(a, events[0]), events[1..])
  }

  lemma {:induction false} CountersCount(a: Actor, events: seq<Event>)
    ensures Run(a, events).stolen == a.stolen + Steals(a, events)
    ensures Run(a, events).spurious == a.spurious + EmptyDrains(a, events)
    decreases |events|
  {
    if events != [] {
      CountersCount(Apply(a, events[0]), events[1..]);
    }
  }

  /** Exact wakeup accounting, and hence: a nonempty mailbox always has a pending drain. */
  lemma NoLostWakeup(events: seq<Event>)
    ensures var a := Run(NEW_ACTOR, events);
            PendingDrains(a) == (if a.mailbox != [] then 1 else 0) +
                                Steals(NEW_ACTOR, events) - EmptyDrains(NEW_ACTOR, events) &&
            (a.mailbox != [] ==> PendingDrains(a) >= 1) &&
            EmptyDrains(NEW_ACTOR, events) <= Steals(NEW_ACTOR, events)
  {
    RunKeeps(NEW_ACTOR, events);
    CountersCount(NEW_ACTOR, events);
  }

  /** The task an event posts: a drain for a message that meets an empty mailbox, and a tick. */
  function PostedBy(a: Actor, e: Event): seq<Task> {
    match e
    case Send(_) => if a.mailbox == [] then [Drain] else []
    case Schedule => [Tick]
    case Step => []
  }

  /** The task it starts. */
  function StartedBy(a: Actor, e: Event): seq<Task> {
    if e.Step? && Apply(a, e).phase.Starting? then [Apply(a, e).phase.task] else []
  }

  function Posted(a: Actor, events: seq<Event>): seq<Task>
    decreases |events|
  {
    if events == [] then [] else PostedBy(a, events[0]) + Posted(Apply(a, events[0]), events[1..])
  }

  function StartedTasks(a: Actor, events: seq<Event>): seq<Task>
    decreases |events|
  {
    if events == [] then [] else StartedBy(a, events[0]) + StartedTasks(Apply(a, events[0]), events[1..])
  }

  lemma OneTask(a: Actor, e: Event)
    ensures a.strand + PostedBy(a, e) == StartedBy(a, e) + Apply(a, e).strand
  {
  }

  /** No task is lost, and tasks start in the order in which they were posted. */
  lemma {:induction false} TasksStartInOrder(a: Actor, events: seq<Event>)
    ensures a.strand + Posted(a, events) == StartedTasks(a, events) + Run(a, events).strand
    decreases |events|
  {
    if events == [] {
      assert a.strand + [] == [] + a.strand;
    } else {
      var e, b, rest := events[0], Apply(a, events[0]), events[1..];
      hide PostedBy, StartedBy, Apply;
      TasksStartInOrder(b, rest);
      OneTask(a, e);
      Associate(a.strand, PostedBy(a, e), Posted(b, rest));
      Associate(StartedBy(a, e), b.strand, Posted(b, rest));
      Associate(StartedBy(a, e), StartedTasks(b, rest), Run(b, rest).strand);
    }
  }

  /** Tick bodies run so far, and ticks that still have theirs to come. */
  function TickBodies(a: Actor, events: seq<Event>): nat
    decreases |events|
  {
    if events == [] then 0
    else (if events[0].Step? && a.phase.Ticking? then 1 else 0) + TickBodies(Apply(a, events[0]), events[1..])
  }

  function TicksIn(strand: seq<Task>): nat {
    if strand == [] then 0 else (if strand[0].Tick? then 1 else 0) + TicksIn(strand[1..])
  }

  function TicksDue(a: Actor): nat {
    TicksIn(a.strand) +
    match a.phase
    case Idle => 0
    case Starting(task) => if task.Tick? then 1 else 0
    case Handling(task, _) => if task.Tick? then 1 else 0
    case Ticking => 1
  }

  function Scheduled(events: seq<Event>): nat {
    if events == [] then 0 else (if events[0].Schedule? then 1 else 0) + Scheduled(events[1..])
  }

  lemma {:induction false} TicksAppend(strand: seq<Task>, task: Task)
    ensures TicksIn(strand + [task]) == TicksIn(strand) + if task.Tick? then 1 else 0
  {
    if strand == [] {
      assert ([] + [task])[1..] == [];
    } else {
      assert (strand + [task])[1..] == strand[1..] + [task];
      TicksAppend(strand[1..], task);
    }
  }

  /** Each tick that is scheduled runs its body exactly once, or is still due. */
  lemma {:induction false} EveryTickRuns(a: Actor, events: seq<Event>)
    ensures TicksDue(a) + Scheduled(events) == TickBodies(a, events) + TicksDue(Run(a, events))
    decreases |events|
  {
    if events != [] {
      EveryTickRuns(Apply(a, events[0]), events[1..]);
      TicksAppend(a.strand, Drain);
      TicksAppend(a.strand, Tick);
    }
  }

  function From(ms: seq<Message>, sender: nat): seq<Message> {
    if ms == [] then []
    else From(Front(ms), sender) + if Last(ms).sender == sender then [Last(ms)] else []
  }

  lemma {:induction false} FromAppend(xs: seq<Message>, ys: seq<Message>, sender: nat)
    ensures From(xs + ys, sender) == From(xs, sender) + From(ys, sender)
    decreases |ys|
  {
    if ys == [] {
      assert xs + ys == xs;
    } else {
      assert Front(xs + ys) == xs + Front(ys) && Last(xs + ys) == Last(ys);
      FromAppend(xs, Front(ys), sender);
    }
  }

  /** Per-sender order: what was handled of a sender is a prefix of what it sent. */
  lemma PerSenderOrder(events: seq<Event>, sender: nat)
    ensures From(Run(NEW_ACTOR, events).handled, sender) <= From(Sent(events), sender)
  {
    RunKeeps(NEW_ACTOR, events);
    ExactlyOnceInOrder(events);
    var a := Run(NEW_ACTOR, events);
    assert a.accepted == a.handled + (Rest(a.phase) + a.mailbox);
    FromAppend(a.handled, Rest(a.phase) + a.mailbox, sender);
  }

  // Progress.

  /** Strand steps until the next swap is done. */
  function StepsToSwap(p: Phase): nat {
    match p
    case Idle => 2
    case Starting(_) => 1
    case Handling(task, rest) => |rest| + (if task.Tick? then 2 else 1) + 2
    case Ticking => 3
  }

  /** Strand steps until the j-th accepted message is handled: those before it in the running
      batch; or the rest of the batch, at most one tick body, the start and swap of the next
      task, and the messages before it in the mailbox. */
  function StepsLeft(a: Actor, j: nat): nat {
    var h, r := |a.handled|, |Rest(a.phase)|;
    if j < h then 0 else if j < h + r then j - h + 1 else StepsToSwap(a.phase) + (j - h - r) + 1
  }

  function Steps(events: seq<Event>): nat {
    if events == [] then 0 else (if events[0].Step? then 1 else 0) + Steps(events[1..])
  }

  /** A step of the strand brings every waiting message exactly one step closer, whoever
      enqueues or schedules in between; and while one waits the strand can step. */
  lemma OneStepCloser(a: Actor, e: Event, j: nat)
    requires Inv(a) && j < |a.accepted|
    ensures StepsLeft(a, j) > 0 ==> CanStep(a)
    ensures StepsLeft(Apply(a, e), j) ==
            if e.Step? && StepsLeft(a, j) > 0 then StepsLeft(a, j) - 1 else StepsLeft(a, j)
  {
    assert |a.accepted| == |a.handled| + |Rest(a.phase)| + |a.mailbox|;
    if e.Step? && a.phase.Idle? && a.strand == [] {
      assert a.mailbox == [];
    }
  }

  /** Exact progress bound: after n strand steps, interleaved with anything, the message needs
      exactly n fewer; it has been handled as soon as n reaches StepsLeft. */
  lemma {:induction false} HandledAfterSteps(a: Actor, events: seq<Event>, j: nat)
    requires Inv(a) && j < |a.accepted|
    ensures var n, left := Steps(events), StepsLeft(a, j);
            StepsLeft(Run(a, events), j) == if n < left then left - n else 0
    ensures Steps(events) >= StepsLeft(a, j) ==>
              j < |Run(a, events).handled| && Run(a, events).handled[j] == a.accepted[j]
    decreases |events|
  {
    if events == [] {
      if StepsLeft(a, j) == 0 {
        HandledIsAccepted(a, j);
      }
    } else {
      ApplyKeeps(a, events[0]);
      OneStepCloser(a, events[0], j);
      AcceptedGrows(a, events[0]);
      HandledAfterSteps(Apply(a, events[0]), events[1..], j);
    }
  }

  lemma HandledIsAccepted(a: Actor, j: nat)
    requires Inv(a) && j < |a.accepted| && StepsLeft(a, j) == 0
    ensures j < |a.handled| && a.handled[j] == a.accepted[j]
  {
  }

  lemma AcceptedGrows(a: Actor, e: Event)
    ensures a.accepted <= Apply(a, e).accepted
  {
  }
}
