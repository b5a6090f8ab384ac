/** What Migrate of the registry answers and stores under any schedule, told from the calls, what was
    registered when it was looked up, and the verdicts of the migration functions. */
module RegistryMigrate {
  import opened Basics
  import opened Histories
  import opened RegistrySpec
  import opened RegistryMachine
  import opened RegistryProof
  import opened RegistryHistory
  import M = Migration

  /** One lookup of a version pair, or one verdict of the function found. */
  datatype Step = Looked(found: bool) | Judged(ok: bool, view: Header)

  /** What a Migrate call of one thread has met: the header it started from, and its steps. */
  datatype Trace = Trace(start: Option<Header>, steps: seq<Step>)

  const NEW_TRACE := Trace(None, [])

  /** The k-th pair on the way from one version to another is registered. */
  ghost predicate Registered(functions: set<(U32, U32)>, from: U32, to: U32, k: nat) {
    exists p :: p in functions && if from < to then p.0 == from + k && p.1 == from + k + 1
                                  else p.0 == from - k && p.1 == from - k - 1
  }

  /** The trace of t after one more move. Each lookup is for the next pair on the way. */
  ghost function TraceAfter(s: Sys, m: Move, t: ThreadId, tr: Trace): Trace
    requires CanMove(s, m)
  {
    if m.t != t then tr
    else
      match m
      case Start(_, _) => NEW_TRACE
      case Advance(_, c) =>
        var p := s.tasks[t];
        if !p.call.Migrate? then tr
        else if p.stage.MigrateView? then tr.(start := HeaderOf(StoredHeaders(s.entries), p.call.id))
        else if p.stage.EngineFind? && tr.start.Some? then
          var found := Registered(s.functions, tr.start.value.version, p.call.target, |tr.steps| / 2);
          tr.(steps := tr.steps + [Looked(found)])
        else if p.stage.FuncRun? && c.Verdict? then tr.(steps := tr.steps + [Judged(c.ok, c.view)])
        else tr
  }

  /** The trace of the last call of t in a schedule. */
  ghost function TraceOf(s: Sys, moves: seq<Move>, t: ThreadId, tr: Trace): Trace
    requires CanMoves(s, moves)
    decreases |moves|
  {
    if moves == [] then tr else TraceOf(Do(s, moves[0]), moves[1..], t, TraceAfter(s, moves[0], t, tr))
  }

  predicate Good(e: Step) {
    if e.Looked? then e.found else e.ok
  }

  predicate AllGood(steps: seq<Step>) {
    forall i :: 0 <= i < |steps| ==> Good(steps[i])
  }

  /** Every lookup is followed by its verdict. */
  predicate Alternate(steps: seq<Step>) {
    forall i :: 0 <= i < |steps| ==> (steps[i].Looked? <==> i % 2 == 0)
  }

  /** The header the steps have made of the one started from: that of the last verdict, with the
      version it was called for. */
  function HeaderMade(start: Header, target: U32, steps: seq<Step>): Header
    requires |steps| / 2 <= M.Distance(start.version, target)
  {
    if steps == [] || !Last(steps).Judged? then start
    else Last(steps).view.(version := M.VersionAt(start.version, target, |steps| / 2))
  }

  /** The loop has taken these steps so far, all with success. */
  ghost predicate Rounds(start: Header, steps: seq<Step>, p: Task)
    requires p.Doing? && p.call.Migrate?
  {
    p.seen == start && |steps| % 2 == 0 && |steps| / 2 <= M.Distance(start.version, p.call.target) &&
    Alternate(steps) && AllGood(steps) &&
    p.current == M.VersionAt(start.version, p.call.target, |steps| / 2) &&
    p.view == HeaderMade(start, p.call.target, steps)
  }

  /** The way is done, or the last step failed. */
  ghost predicate Over(start: Header, steps: seq<Step>, p: Task)
    requires p.Doing? && p.call.Migrate?
  {
    p.seen == start && Alternate(steps) &&
    if p.ok then
      |steps| == 2 * M.Distance(start.version, p.call.target) && AllGood(steps) &&
      p.view == HeaderMade(start, p.call.target, steps)
    else
      steps != [] && !Good(Last(steps)) && AllGood(Front(steps)) &&
      |steps| <= 2 * M.Distance(start.version, p.call.target)
  }

  /** The trace agrees with where the call is. */
  ghost predicate TraceInv(tr: Trace, p: Task) {
    p.Doing? && p.call.Migrate? ==>
      if p.stage.MigrateStart? || p.stage.MigrateFind? || p.stage.MigrateLock? || p.stage.MigrateView? then
        tr == NEW_TRACE
      else if p.stage.MigrateLoop? then tr.start.Some? && Rounds(tr.start.value, tr.steps, p)
      else if p.stage.EngineStart? || p.stage.EngineFind? then
        tr.start.Some? && Rounds(tr.start.value, tr.steps, p) && p.current != p.call.target
      else if p.stage.EngineLeave? || p.stage.FuncRun? || p.stage.FuncWait? || p.stage.EngineLeaveMissing? then
        tr.start.Some? && tr.steps != [] && Rounds(tr.start.value, Front(tr.steps), p) && p.current != p.call.target &&
        Last(tr.steps) == Looked(!p.stage.EngineLeaveMissing?)
      else if p.stage.MigrateCommit? || p.stage.MigrateUnlock? then tr.start.Some? && Over(tr.start.value, tr.steps, p)
      else if tr.start.Some? then Over(tr.start.value, tr.steps, p)
      else tr == NEW_TRACE && !p.ok
  }

  lemma PairIsNext(functions: set<(U32, U32)>, start: U32, target: U32, k: nat)
    requires k < M.Distance(start, target)
    ensures var at := M.VersionAt(start, target, k);
            at != target && NextVersion(at, target) == M.VersionAt(start, target, k + 1) &&
            (Registered(functions, start, target, k) <==> (at, NextVersion(at, target)) in functions)
  {
  }

  lemma AtTheEnd(start: U32, target: U32, k: nat)
    requires k <= M.Distance(start, target)
    ensures M.VersionAt(start, target, k) == target <==> k == M.Distance(start, target)
  {
  }

  /** What a step of t does to its own trace. */
  ghost predicate Kept(s: Sys, t: ThreadId, c: Choice, tr: Trace) {
    CanAdvance(s, t, c) &&
    TraceInv(TraceAfter(s, Advance(t, c), t, tr), After(s, t, Code(s, t, c)))
  }

  /** What the step lemmas assume. */
  ghost predicate Traced(s: Sys, t: ThreadId, c: Choice, tr: Trace) {
    CanAdvance(s, t, c) && TaskInv(StoredHeaders(s.entries), s.tasks[t]) && s.tasks[t].call.Migrate? &&
    TraceInv(tr, s.tasks[t])
  }

  lemma FirstStepsKeep(s: Sys, t: ThreadId, c: Choice, tr: Trace)
    requires Traced(s, t, c, tr)
    requires var st := s.tasks[t].stage; st.MigrateStart? || st.MigrateFind? || st.MigrateLock?
    ensures Kept(s, t, c, tr)
  {
  }

  lemma ViewKeeps(s: Sys, t: ThreadId, c: Choice, tr: Trace)
    requires Traced(s, t, c, tr) && s.tasks[t].stage.MigrateView?
    ensures Kept(s, t, c, tr)
  {
  }

  lemma LoopKeeps(s: Sys, t: ThreadId, c: Choice, tr: Trace)
    requires Traced(s, t, c, tr) && s.tasks[t].stage.MigrateLoop?
    ensures Kept(s, t, c, tr)
  {
    AtTheEnd(tr.start.value.version, s.tasks[t].call.target, |tr.steps| / 2);
  }

  lemma FindKeeps(s: Sys, t: ThreadId, c: Choice, tr: Trace)
    requires Traced(s, t, c, tr) && (s.tasks[t].stage.EngineStart? || s.tasks[t].stage.EngineFind?)
    ensures Kept(s, t, c, tr)
  {
    AtTheEnd(tr.start.value.version, s.tasks[t].call.target, |tr.steps| / 2);
    PairIsNext(s.functions, tr.start.value.version, s.tasks[t].call.target, |tr.steps| / 2);
  }

  lemma LeaveKeeps(s: Sys, t: ThreadId, c: Choice, tr: Trace)
    requires Traced(s, t, c, tr)
    requires var st := s.tasks[t].stage; st.EngineLeave? || st.EngineLeaveMissing? || st.FuncWait?
    ensures Kept(s, t, c, tr)
  {
    AtTheEnd(tr.start.value.version, s.tasks[t].call.target, |Front(tr.steps)| / 2);
  }

  /** A verdict ends a round, or the call. */
  lemma VerdictMakes(start: Header, steps: seq<Step>, p: Task, ok: bool, view: Header)
    requires p.Doing? && p.call.Migrate? && steps != [] && Last(steps) == Looked(true)
    requires Rounds(start, Front(steps), p) && p.current != p.call.target
    ensures ok ==> Rounds(start, steps + [Judged(true, view)],
                          p.(stage := MigrateLoop, view := view.(version := StepTo(p)), current := StepTo(p)))
    ensures !ok ==> Over(start, steps + [Judged(false, view)], p.(stage := MigrateCommit, ok := false))
  {
    var k, target := |Front(steps)| / 2, p.call.target;
    AtTheEnd(start.version, target, k);
    PairIsNext({}, start.version, target, k);
    var all := steps + [Judged(ok, view)];
    assert Front(all) == steps && steps == Front(steps) + [Looked(true)];
    assert |all| / 2 == k + 1 && |all| % 2 == 0;
  }

  lemma FuncRunKeeps(s: Sys, t: ThreadId, c: Choice, tr: Trace)
    requires Traced(s, t, c, tr) && s.tasks[t].stage.FuncRun?
    ensures Kept(s, t, c, tr)
  {
    if c.Verdict? {
      VerdictMakes(tr.start.value, tr.steps, s.tasks[t], c.ok, c.view);
    }
    hide Rounds, Over, TaskInv, Exec, StepTo;
  }

  lemma LastStepsKeep(s: Sys, t: ThreadId, c: Choice, tr: Trace)
    requires Traced(s, t, c, tr)
    requires var st := s.tasks[t].stage;
             st.MigrateCommit? || st.MigrateUnlock? || st.LeaveShared? || st.Done? || st.LeaveUnique? || st.StorageWait?
    ensures Kept(s, t, c, tr)
  {
  }

  lemma OwnMoveKeeps(s: Sys, t: ThreadId, c: Choice, tr: Trace)
    requires Traced(s, t, c, tr)
    ensures Kept(s, t, c, tr)
  {
    var stage := s.tasks[t].stage;
    StagesOfMigrate(s, t, c);
    hide *;
    if stage.MigrateStart? || stage.MigrateFind? || stage.MigrateLock? {
      FirstStepsKeep(s, t, c, tr);
    } else if stage.MigrateView? {
      ViewKeeps(s, t, c, tr);
    } else if stage.MigrateLoop? {
      LoopKeeps(s, t, c, tr);
    } else if stage.EngineStart? || stage.EngineFind? {
      FindKeeps(s, t, c, tr);
    } else if stage.EngineLeave? || stage.EngineLeaveMissing? || stage.FuncWait? {
      LeaveKeeps(s, t, c, tr);
    } else if stage.FuncRun? {
      FuncRunKeeps(s, t, c, tr);
    } else {
      LastStepsKeep(s, t, c, tr);
    }
  }

  lemma StagesOfMigrate(s: Sys, t: ThreadId, c: Choice)
    requires CanAdvance(s, t, c) && TaskInv(StoredHeaders(s.entries), s.tasks[t]) && s.tasks[t].call.Migrate?
    ensures var st := s.tasks[t].stage;
            OfMigrate(st) || st.LeaveShared? || st.LeaveUnique? || st.Done? || st.StorageWait?
  {
    hide Code, Enabled;
  }

  /** Moves that are none of a Migrate of t. */
  lemma OtherMoveKeeps(s: Sys, m: Move, t: ThreadId, tr: Trace)
    requires CanMove(s, m) && t in s.tasks && TraceInv(tr, s.tasks[t])
    requires m.t != t || m.Start? || !s.tasks[t].call.Migrate?
    ensures t in Do(s, m).tasks && TraceInv(TraceAfter(s, m, t, tr), Do(s, m).tasks[t])
  {
    hide Code, Enabled, Rounds, Over;
  }

  lemma MoveKeepsTrace(s: Sys, m: Move, t: ThreadId, tr: Trace)
    requires Inv(s) && CanMove(s, m) && t in s.tasks && TraceInv(tr, s.tasks[t])
    ensures t in Do(s, m).tasks && TraceInv(TraceAfter(s, m, t, tr), Do(s, m).tasks[t])
  {
    if m.Advance? && m.t == t && s.tasks[t].call.Migrate? {
      TaskFacts(s, t);
      hide Inv, Code, TraceInv, TaskInv, Exec, Enabled, TraceAfter;
      OwnMoveKeeps(s, t, m.choice, tr);
    } else {
      hide *;
      OtherMoveKeeps(s, m, t, tr);
    }
  }

  lemma {:induction false} MovesKeepTrace(s: Sys, moves: seq<Move>, t: ThreadId, tr: Trace)
    requires Inv(s) && CanMoves(s, moves) && t in s.tasks && TraceInv(tr, s.tasks[t])
    ensures var s' := DoAll(s, moves); t in s'.tasks && TraceInv(TraceOf(s, moves, t, tr), s'.tasks[t])
    decreases |moves|
  {
    if moves != [] {
      hide Inv, TraceInv, CanMove, Do, TraceAfter;
      MoveKeeps(s, moves[0]);
      MoveKeepsTrace(s, moves[0], t, tr);
      MovesKeepTrace(Do(s, moves[0]), moves[1..], t, TraceAfter(s, moves[0], t, tr));
    }
  }

  /** After any schedule the trace of each thread agrees with where its call is. */
  lemma TraceIsRight(threads: set<ThreadId>, rehashing: set<Machine.CellRef>, moves: seq<Move>, t: ThreadId)
    requires CanMoves(Init(threads, rehashing), moves) && t in DoAll(Init(threads, rehashing), moves).tasks
    ensures var s := DoAll(Init(threads, rehashing), moves);
            TraceInv(TraceOf(Init(threads, rehashing), moves, t, NEW_TRACE), s.tasks[t]) &&
            TaskInv(StoredHeaders(s.entries), s.tasks[t])
  {
    var s0 := Init(threads, rehashing);
    InitInv(threads, rehashing);
    TasksStay(s0, moves);
    MovesKeep(s0, moves);
    MovesKeepTrace(s0, moves, t, NEW_TRACE);
    TaskFacts(DoAll(s0, moves), t);
  }

  lemma {:induction false} TasksStay(s: Sys, moves: seq<Move>)
    requires CanMoves(s, moves)
    ensures DoAll(s, moves).tasks.Keys == s.tasks.Keys
    decreases |moves|
  {
    if moves != [] {
      hide Code, Enabled;
      TasksStay(Do(s, moves[0]), moves[1..]);
    }
  }

  // Main results.

  /** What a Migrate that answers `ok` must have met. */
  ghost predicate Explained(tr: Trace, target: U32, ok: bool) {
    (ok <==> tr.start.Some? && AllGood(tr.steps)) && Alternate(tr.steps) &&
    (tr.start == None ==> tr.steps == []) &&
    (ok ==> |tr.steps| == 2 * M.Distance(tr.start.value.version, target)) &&
    (!ok && tr.steps != [] ==> AllGood(Front(tr.steps)))
  }

  lemma DoneIsExplained(tr: Trace, p: Task)
    requires p.Doing? && p.call.Migrate? && p.stage.Done? && TraceInv(tr, p)
    ensures Explained(tr, p.call.target, p.ok)
  {
  }

  lemma ReturnsAtDone(s: Sys, t: ThreadId, c: Choice)
    requires CanMove(s, Advance(t, c)) && EventsOf(s, Advance(t, c)) != []
    requires EventsOf(s, Advance(t, c))[0].Return? && s.tasks[t].call.Migrate?
    requires RightCall(s.tasks[t].call, s.tasks[t].stage)
    ensures s.tasks[t].stage.Done?
    ensures EventsOf(s, Advance(t, c)) == [Return(t, s.tasks[t].call, Said(s.tasks[t].ok))]
  {
  }

  /** When a Migrate returns, under any schedule: it answers true if and only if the object was there,
      each version pair was registered when it was looked up, and each function called said so. Then
      all pairs of the way were looked up; otherwise it stopped at the first that failed. */
  lemma MigrateSaysTrueIff(threads: set<ThreadId>, rehashing: set<Machine.CellRef>, moves: seq<Move>,
                           t: ThreadId, c: Choice, id: ObjectId, target: U32, ok: bool)
    requires CanMoves(Init(threads, rehashing), moves)
    requires var s := DoAll(Init(threads, rehashing), moves);
             CanMove(s, Advance(t, c)) && EventsOf(s, Advance(t, c)) == [Return(t, Migrate(id, target), Said(ok))]
    ensures Explained(TraceOf(Init(threads, rehashing), moves, t, NEW_TRACE), target, ok)
  {
    var s := DoAll(Init(threads, rehashing), moves);
    assert t in s.tasks && s.tasks[t].Doing? && s.tasks[t].call == Migrate(id, target);
    TraceIsRight(threads, rehashing, moves, t);
    assert RightCall(s.tasks[t].call, s.tasks[t].stage);
    hide TraceInv, TaskInv, TraceOf, DoAll, CanMoves, CanMove, EventsOf, Explained, Init, RightCall;
    ReturnsAtDone(s, t, c);
    DoneIsExplained(TraceOf(Init(threads, rehashing), moves, t, NEW_TRACE), s.tasks[t]);
  }

  /** The header a successful Migrate leaves: that of the last verdict with the target version, or the
      one it started from if there was no step. */
  ghost predicate LeavesVerdict(tr: Trace, target: U32, stored: Option<Header>) {
    tr.start.Some? &&
    if tr.steps == [] then stored == tr.start
    else Last(tr.steps).Judged? && stored == Some(Last(tr.steps).view.(version := target))
  }

  lemma CommitLeavesVerdict(tr: Trace, p: Task)
    requires p.Doing? && p.call.Migrate? && p.stage.MigrateCommit? && p.ok && TraceInv(tr, p)
    ensures tr.start == Some(p.seen) && LeavesVerdict(tr, p.call.target, Some(p.view))
  {
    AtTheEnd(tr.start.value.version, p.call.target, |tr.steps| / 2);
  }

  lemma CommitsView(s: Sys, t: ThreadId, c: Choice)
    requires CanMove(s, Advance(t, c)) && EventsOf(s, Advance(t, c)) != [] && s.tasks[t].call.Migrate?
    requires EventsOf(s, Advance(t, c))[0].Take? && EventsOf(s, Advance(t, c))[0].answer == Said(true)
    requires TaskInv(StoredHeaders(s.entries), s.tasks[t])
    ensures s.tasks[t].stage.MigrateCommit? && s.tasks[t].ok
    ensures var id := IdOf(s.tasks[t].call);
            HeaderOf(StoredHeaders(s.entries), id) == Some(s.tasks[t].seen) &&
            HeaderOf(StoredHeaders(Do(s, Advance(t, c)).entries), id) == Some(s.tasks[t].view)
  {
  }

  /** When a successful Migrate takes effect, under any schedule, the header it started from is still
      stored and is replaced by what the last verdict left. */
  lemma MigrateStoresVerdict(threads: set<ThreadId>, rehashing: set<Machine.CellRef>, moves: seq<Move>,
                             t: ThreadId, c: Choice, id: ObjectId, target: U32)
    requires CanMoves(Init(threads, rehashing), moves)
    requires var s := DoAll(Init(threads, rehashing), moves);
             CanMove(s, Advance(t, c)) && EventsOf(s, Advance(t, c)) == [Take(t, Migrate(id, target), Said(true))]
    ensures var s, tr := DoAll(Init(threads, rehashing), moves), TraceOf(Init(threads, rehashing), moves, t, NEW_TRACE);
            HeaderOf(StoredHeaders(s.entries), id) == tr.start &&
            LeavesVerdict(tr, target, HeaderOf(StoredHeaders(Do(s, Advance(t, c)).entries), id))
  {
    var s := DoAll(Init(threads, rehashing), moves);
    assert t in s.tasks && s.tasks[t].Doing? && s.tasks[t].call == Migrate(id, target);
    TraceIsRight(threads, rehashing, moves, t);
    hide TraceInv, TaskInv, TraceOf, DoAll, CanMoves, CanMove, EventsOf, LeavesVerdict, Init, Do, StoredHeaders;
    CommitsView(s, t, c);
    CommitLeavesVerdict(TraceOf(Init(threads, rehashing), moves, t, NEW_TRACE), s.tasks[t]);
  }
}
