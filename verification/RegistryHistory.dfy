/** The registry as its callers see it: each call of Create, Get, Destroy and Migrate takes effect
    once between its invocation and its return, and returns what the atomic registry answers. */
module RegistryHistory {
  import opened Basics
  import opened Histories
  import opened RegistrySpec
  import opened RegistryMachine
  import opened RegistryProof

  /** What a call gives its caller: the id, what the callback is called with, or the verdict. */
  datatype Result = NewId(id: ObjectId) | Saw(header: Option<Header>) | Said(ok: bool) | Nothing

  type CallEvent = Event<Call, Result>

  predicate OnHeaders(call: Call) {
    call.Create? || call.Get? || call.Destroy? || call.Migrate?
  }

  /** The event is an effect of this call. */
  predicate Concerns(call: Call, e: RegistryEvent) {
    match call
    case Create(h) => e == Created(h)
    case Get(id) => e.Got? && e.id == id
    case Destroy(id) => e.Destroyed? && e.id == id
    case Migrate(id, target) => (e.MigrateMissed? && e.id == id) || (e.Migrated? && e.id == id && e.target == target)
    case _ => false
  }

  /** What the atomic registry answers. */
  function AnswerOf(e: RegistryEvent): Result {
    match e
    case Created(h) => NewId(h.id)
    case Got(_, a) => Saw(a)
    case Destroyed(_, _) => Nothing
    case MigrateMissed(_) => Said(false)
    case Migrated(_, _, _, ok, _) => Said(ok)
  }

  /** What the code of the call gives its caller in the end. */
  function ResultOf(p: Task): Result
    requires p.Doing?
  {
    match p.call
    case Create(h) => NewId(h.id)
    case Get(_) => Saw(if p.ok then Some(p.view) else None)
    case Migrate(_, _) => Said(p.ok)
    case _ => Nothing
  }

  /** The stages after the call has taken effect. */
  predicate Decided(stage: Stage) {
    stage.GetUnlock? || stage.DestroyLeave? || stage.DestroyRemove? || stage.StorageWait? || stage.MigrateUnlock? ||
    stage.LeaveShared? || stage.LeaveUnique? || stage.Done?
  }

  function PhaseAt(p: Task): Phase<Call, Result> {
    if p.Rest? || !OnHeaders(p.call) then Quiet
    else if Decided(p.stage) then Taken(p.call, ResultOf(p))
    else Pending(p.call)
  }

  /** What a move adds to the history. */
  function EventsOf(s: Sys, m: Move): seq<CallEvent>
    requires CanMove(s, m)
  {
    match m
    case Start(t, call) => if OnHeaders(call) then [Invoke(t, call)] else []
    case Advance(t, c) =>
      var p, log := s.tasks[t], Do(s, m).log;
      if !OnHeaders(p.call) then []
      else if |log| > |s.log| then [Take(t, p.call, AnswerOf(Last(log)))]
      else if Code(s, t, c).Finish? then [Return(t, p.call, ResultOf(p))]
      else []
  }

  /** The history of a schedule, after the history so far. */
  function History(s: Sys, moves: seq<Move>, sofar: seq<CallEvent>): seq<CallEvent>
    requires CanMoves(s, moves)
    decreases |moves|
  {
    if moves == [] then sofar else History(Do(s, moves[0]), moves[1..], sofar + EventsOf(s, moves[0]))
  }

  /** The Take events of the history are the events of the atomic registry, one by one: each is an
      effect of the call and gives the answer of the atomic registry. */
  predicate Explains(h: seq<CallEvent>, log: seq<RegistryEvent>) {
    if h == [] then log == []
    else if Last(h).Take? then
      log != [] && Concerns(Last(h).op, Last(log)) && AnswerOf(Last(log)) == Last(h).answer &&
      Explains(Front(h), Front(log))
    else Explains(Front(h), log)
  }

  lemma ExplainsAppend(h: seq<CallEvent>, e: CallEvent, log: seq<RegistryEvent>)
    ensures !e.Take? ==> Explains(h + [e], log) == Explains(h, log)
    ensures forall r :: e.Take? && Concerns(e.op, r) && AnswerOf(r) == e.answer && Explains(h, log) ==>
                          Explains(h + [e], log + [r])
  {
    assert Front(h + [e]) == h && Last(h + [e]) == e;
    forall r ensures Front(log + [r]) == log && Last(log + [r]) == r {
    }
  }

  ghost predicate HistoryInv(h: seq<CallEvent>, s: Sys) {
    Explains(h, s.log) && forall t :: PhaseOf(h, t) == if t in s.tasks then PhaseAt(s.tasks[t]) else Quiet
  }

  // What one instruction does to log and phase.

  /** The call takes effect with e, or it does not and goes on as before, or it is over. */
  ghost predicate Effective(p: Task, q: Task, log: seq<RegistryEvent>, log': seq<RegistryEvent>, over: bool)
    requires p.Doing?
  {
    if log' != log then
      |log'| == |log| + 1 && log' == log + [Last(log')] &&
      OnHeaders(p.call) && !Decided(p.stage) && Concerns(p.call, Last(log')) && !over &&
      q.Doing? && q.call == p.call && Decided(q.stage) && ResultOf(q) == AnswerOf(Last(log'))
    else if over then q.Rest? && (OnHeaders(p.call) ==> Decided(p.stage))
    else PhaseAt(q) == PhaseAt(p)
  }

  /** What the instruction lemmas assume. */
  ghost predicate Ready(s: Sys, t: ThreadId, c: Choice, i: Instr) {
    t in s.tasks && s.tasks[t].Doing? && RightCall(s.tasks[t].call, s.tasks[t].stage) &&
    i == Code(s, t, c) && Enabled(s, t, i)
  }

  lemma NotingIsEffective(s: Sys, t: ThreadId, c: Choice, i: Instr, s': Sys)
    requires Ready(s, t, c, i) && s' == Exec(s, t, i)
    requires i.Insert? || i.Miss? || i.Copy? || i.Erase? || i.Commit?
    ensures Effective(s.tasks[t], After(s, t, i), s.log, s'.log, i.Finish?)
  {
  }

  lemma LocksAreEffective(s: Sys, t: ThreadId, c: Choice, i: Instr, s': Sys)
    requires Ready(s, t, c, i) && s' == Exec(s, t, i)
    requires i.LockRegistry? || i.UnlockRegistry? || i.LockEngine? || i.UnlockEngine? || i.LockEntry? || i.UnlockEntry?
    ensures Effective(s.tasks[t], After(s, t, i), s.log, s'.log, i.Finish?)
  {
  }

  lemma OthersAreEffective(s: Sys, t: ThreadId, c: Choice, i: Instr, s': Sys)
    requires Ready(s, t, c, i) && s' == Exec(s, t, i)
    requires i.GoTo? || i.View? || i.Decide? || i.Stamp? || i.AddFunction? || i.Begin? || i.Await? || i.Finish?
    ensures Effective(s.tasks[t], After(s, t, i), s.log, s'.log, i.Finish?)
  {
    hide StepTo, HeaderIn, TargetOf;
  }

  lemma AdvanceIsEffective(s: Sys, t: ThreadId, c: Choice, s': Sys)
    requires Inv(s) && CanMove(s, Advance(t, c)) && s' == Do(s, Advance(t, c))
    ensures s'.tasks == s.tasks[t := After(s, t, Code(s, t, c))]
    ensures Effective(s.tasks[t], s'.tasks[t], s.log, s'.log, Code(s, t, c).Finish?)
  {
    TaskFacts(s, t);
    assert RightCall(s.tasks[t].call, s.tasks[t].stage);
    hide Inv, TaskInv, Exec, Code, Enabled, RightCall, Effective, After;
    var i := Code(s, t, c);
    if i.Insert? || i.Miss? || i.Copy? || i.Erase? || i.Commit? {
      NotingIsEffective(s, t, c, i, s');
    } else if i.GoTo? || i.View? || i.Decide? || i.Stamp? || i.AddFunction? || i.Begin? || i.Await? || i.Finish? {
      OthersAreEffective(s, t, c, i, s');
    } else {
      LocksAreEffective(s, t, c, i, s');
    }
  }

  /** The phases after an event of t, which is now at the task q. */
  lemma PhasesAfter(h: seq<CallEvent>, s: Sys, s': Sys, e: CallEvent, q: Task)
    requires HistoryInv(h, s) && e.thread in s.tasks && s'.tasks == s.tasks[e.thread := q]
    requires PhaseAfter(PhaseAt(s.tasks[e.thread]), e) == PhaseAt(q)
    ensures forall t :: PhaseOf(h + [e], t) == if t in s'.tasks then PhaseAt(s'.tasks[t]) else Quiet
  {
    hide PhaseAt, PhaseAfter, Explains;
    forall t ensures PhaseOf(h + [e], t) == if t in s'.tasks then PhaseAt(s'.tasks[t]) else Quiet {
      PhaseAppend(h, e, t);
    }
  }

  lemma StartKeepsHistory(h: seq<CallEvent>, s: Sys, t: ThreadId, call: Call)
    requires HistoryInv(h, s) && CanMove(s, Start(t, call))
    ensures HistoryInv(h + EventsOf(s, Start(t, call)), Do(s, Start(t, call)))
  {
    var s' := Do(s, Start(t, call));
    if OnHeaders(call) {
      hide Explains;
      PhasesAfter(h, s, s', Invoke(t, call), s'.tasks[t]);
      ExplainsAppend(h, Invoke(t, call), s.log);
    } else {
      assert h + [] == h;
    }
  }

  lemma AdvanceKeepsHistory(h: seq<CallEvent>, s: Sys, t: ThreadId, c: Choice, s': Sys, q: Task)
    requires HistoryInv(h, s) && CanMove(s, Advance(t, c)) && s' == Do(s, Advance(t, c))
    requires s'.tasks == s.tasks[t := q]
    requires Effective(s.tasks[t], q, s.log, s'.log, Code(s, t, c).Finish?)
    ensures HistoryInv(h + EventsOf(s, Advance(t, c)), s')
  {
    assert t in s.tasks && s.tasks[t].Doing?;
    hide Explains, Do, Code, CanAdvance, Concerns;
    var p, events := s.tasks[t], EventsOf(s, Advance(t, c));
    if events == [] {
      assert h + events == h;
    } else {
      var e := events[0];
      assert events == [e];
      PhasesAfter(h, s, s', e, q);
      ExplainsAppend(h, e, s.log);
    }
  }

  lemma {:induction false} MovesKeepHistory(h: seq<CallEvent>, s: Sys, moves: seq<Move>)
    requires Inv(s) && HistoryInv(h, s) && CanMoves(s, moves)
    ensures HistoryInv(History(s, moves, h), DoAll(s, moves))
    decreases |moves|
  {
    if moves != [] {
      hide Inv, HistoryInv, EventsOf, Effective;
      var s' := Do(s, moves[0]);
      MoveKeeps(s, moves[0]);
      match moves[0] {
        case Start(t, call) => StartKeepsHistory(h, s, t, call);
        case Advance(t, c) =>
          AdvanceIsEffective(s, t, c, s');
          AdvanceKeepsHistory(h, s, t, c, s', s'.tasks[t]);
      }
      MovesKeepHistory(h + EventsOf(s, moves[0]), s', moves[1..]);
    }
  }

  // Main results.

  /** After any schedule the history of the registry calls is well-formed, and the calls took effect
      and answered as the atomic registry does in the order of their Take events. */
  lemma RegistryIsLinearizable(threads: set<ThreadId>, rehashing: set<Machine.CellRef>, moves: seq<Move>)
    requires CanMoves(Init(threads, rehashing), moves)
    ensures var s, h := DoAll(Init(threads, rehashing), moves), History(Init(threads, rehashing), moves, []);
            WellFormed(h) && Explains(h, s.log) && LegalRegistry(s.log) &&
            StoredHeaders(s.entries) == HeadersAfter(s.log)
  {
    var s0 := Init(threads, rehashing);
    InitInv(threads, rehashing);
    assert HistoryInv([], s0);
    MovesKeepHistory([], s0, moves);
    RegistryIsAtomic(threads, rehashing, moves);
    NeverBroken(History(s0, moves, []), DoAll(s0, moves));
  }

  lemma NeverBroken(h: seq<CallEvent>, s: Sys)
    requires HistoryInv(h, s)
    ensures WellFormed(h) && Explains(h, s.log)
  {
    hide Explains;
    forall t ensures PhaseOf(h, t) != Broken {
      assert t in s.tasks ==> PhaseAt(s.tasks[t]) != Broken;
    }
  }

  /** The Take event of the history that an event of the atomic registry is the effect of. */
  lemma {:induction false} TakeOf(h: seq<CallEvent>, log: seq<RegistryEvent>, n: nat) returns (j: nat)
    requires Explains(h, log) && n < |log|
    ensures j < |h| && h[j].Take? && Concerns(h[j].op, log[n]) && h[j].answer == AnswerOf(log[n])
  {
    if Last(h).Take? && n == |log| - 1 {
      j := |h| - 1;
    } else {
      j := TakeOf(Front(h), if Last(h).Take? then Front(log) else log, n);
    }
  }

  /** The other way round, with the events before it. */
  lemma {:induction false} EventOf(h: seq<CallEvent>, log: seq<RegistryEvent>, j: nat) returns (n: nat)
    requires Explains(h, log) && j < |h| && h[j].Take?
    ensures n < |log| && Concerns(h[j].op, log[n]) && h[j].answer == AnswerOf(log[n]) && Explains(h[..j], log[..n])
    decreases |h|
  {
    if j == |h| - 1 {
      n := |log| - 1;
      assert h[..j] == Front(h) && log[..n] == Front(log);
    } else {
      var rest := if Last(h).Take? then Front(log) else log;
      n := EventOf(Front(h), rest, j);
      assert h[..j] == Front(h)[..j] && log[..n] == rest[..n];
    }
  }

  /** The call that took effect with this event stored the header. */
  predicate Stores(e: CallEvent, id: ObjectId, header: Header) {
    e.Take? &&
    ((e.op == Create(header) && header.id == id) ||
     (e.op.Migrate? && e.op.id == id && e.op.target == header.version && e.answer == Said(true)))
  }

  /** A Get that hands out a header does so because, before it returned, a Create of that header or
      a successful Migrate of the object to its version took effect. */
  lemma GetReturnsCommitted(threads: set<ThreadId>, rehashing: set<Machine.CellRef>, moves: seq<Move>,
                            k: nat, id: ObjectId, header: Header)
    requires CanMoves(Init(threads, rehashing), moves)
    requires var h := History(Init(threads, rehashing), moves, []);
             k < |h| && h[k].Return? && h[k].op == Get(id) && h[k].answer == Saw(Some(header))
    ensures var h := History(Init(threads, rehashing), moves, []);
            exists i :: 0 <= i < k && Stores(h[i], id, header)
  {
    var h, log := History(Init(threads, rehashing), moves, []), DoAll(Init(threads, rehashing), moves).log;
    RegistryIsLinearizable(threads, rehashing, moves);
    hide History, DoAll, CanMoves, Explains, LegalRegistry, HeadersAfter, WellFormed;
    ReturnHasItsTake(h, k);
    var a, j :| 0 <= a < j < k && h[a] == Invoke(h[k].thread, h[k].op) &&
                h[j] == Take(h[k].thread, h[k].op, h[k].answer);
    var n := EventOf(h, log, j);
    GetSeesCommitted(log, n);
    var m :| 0 <= m < n && CommittedBy(log[m], id, header);
    var i := TakeOf(h[..j], log[..n], m);
    CommitFits(log, m);
    assert Stores(h[i], id, header);
  }

  /** A committed migration stores its target version. */
  lemma CommitFits(log: seq<RegistryEvent>, m: nat)
    requires LegalRegistry(log) && m < |log|
    ensures log[m].Migrated? && log[m].ok ==> log[m].next.version == log[m].target
  {
    PrefixIsLegal(log, m + 1);
    assert Last(log[..m + 1]) == log[m];
  }
}
