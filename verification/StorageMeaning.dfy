/** What the answers of the store mean in terms of the calls alone: a component has the data of the
    last accepted write to it that no later Remove or RemoveAll has cleared. */
module StorageMeaning {
  import opened Basics
  import opened Histories
  import opened StorageSpec
  import opened StorageMachine
  import opened StorageProof

  /** An accepted write of the component takes effect. */
  predicate Stores(e: StorageEvent, o: ObjectId, ty: ComponentType) {
    e.Take? && (e.op.Write? || (e.op.WriteSized? && |e.op.data| == e.op.size)) && e.op.obj == o && e.op.ty == ty
  }

  /** A removal of the component takes effect. */
  predicate Clears(e: StorageEvent, o: ObjectId, ty: ComponentType) {
    e.Take? && ((e.op.Remove? && e.op.obj == o && e.op.ty == ty) || (e.op.RemoveAll? && e.op.obj == o))
  }

  /** Of the first k events, the j-th is the last write of the component, not cleared since. */
  ghost predicate LatestAt(log: seq<StorageEvent>, k: nat, j: int, o: ObjectId, ty: ComponentType) {
    0 <= j < k <= |log| && Stores(log[j], o, ty) &&
    forall i :: j < i < k ==> !Stores(log[i], o, ty) && !Clears(log[i], o, ty)
  }

  /** The component is there with this data, or it is not there. */
  ghost predicate HasData(log: seq<StorageEvent>, k: nat, o: ObjectId, ty: ComponentType, data: Option<ComponentData>) {
    if data.Some? then exists j :: LatestAt(log, k, j, o, ty) && log[j].op.data == data.value
    else forall j :: !LatestAt(log, k, j, o, ty)
  }

  lemma HasDataFront(log: seq<StorageEvent>, o: ObjectId, ty: ComponentType, data: Option<ComponentData>)
    requires log != [] && HasData(Front(log), |log| - 1, o, ty, data)
    requires !Stores(Last(log), o, ty) && !Clears(Last(log), o, ty)
    ensures HasData(log, |log|, o, ty, data)
  {
    var front, k := Front(log), |log| - 1;
    assert forall i :: 0 <= i < k ==> front[i] == log[i];
    forall j ensures LatestAt(log, |log|, j, o, ty) == LatestAt(front, k, j, o, ty) {
      if LatestAt(log, |log|, j, o, ty) {
        assert j != k;
        forall i | j < i < k ensures !Stores(front[i], o, ty) && !Clears(front[i], o, ty) {
          assert front[i] == log[i];
        }
      }
    }
    if data.Some? {
      var j :| LatestAt(front, k, j, o, ty) && front[j].op.data == data.value;
      assert LatestAt(log, |log|, j, o, ty) && log[j].op.data == data.value;
    }
  }

  lemma HasDataLast(log: seq<StorageEvent>, o: ObjectId, ty: ComponentType)
    requires log != []
    ensures Stores(Last(log), o, ty) ==> HasData(log, |log|, o, ty, Some(Last(log).op.data))
    ensures Clears(Last(log), o, ty) ==> HasData(log, |log|, o, ty, None)
  {
    var k := |log| - 1;
    if Stores(Last(log), o, ty) {
      assert LatestAt(log, |log|, k, o, ty);
    } else if Clears(Last(log), o, ty) {
      forall j ensures !LatestAt(log, |log|, j, o, ty) {
        assert j < k ==> Clears(log[k], o, ty);
      }
    }
  }

  /** What the atomic map holds. */
  lemma {:induction false} LookupIsLatest(log: seq<StorageEvent>, o: ObjectId, ty: ComponentType)
    ensures HasData(log, |log|, o, ty, Lookup(Replay(log), o, ty))
  {
    if log != [] {
      var e, m := Last(log), Replay(Front(log));
      LookupIsLatest(Front(log), o, ty);
      HasDataLast(log, o, ty);
      EffectOnOne(e, m, o, ty);
      hide Replay, HasData;
      if !Stores(e, o, ty) && !Clears(e, o, ty) {
        HasDataFront(log, o, ty, Lookup(m, o, ty));
      }
      ReplayLast(log);
    }
  }

  lemma ReplayLast(log: seq<StorageEvent>)
    requires log != []
    ensures Replay(log) == if Last(log).Take? then Apply(Last(log).op, Replay(Front(log))).0 else Replay(Front(log))
  {
  }

  lemma EffectOnOne(e: StorageEvent, m: Contents, o: ObjectId, ty: ComponentType)
    ensures var m' := if e.Take? then Apply(e.op, m).0 else m;
            Lookup(m', o, ty) == if Stores(e, o, ty) then Some(e.op.data)
                                 else if Clears(e, o, ty) then None else Lookup(m, o, ty)
  {
  }

  /** The answer of a call is right for what was written and removed in the first k events. */
  ghost predicate RightAnswer(log: seq<StorageEvent>, k: nat, op: Op, answer: Answer) {
    match op
    case Read(o, ty) => answer.Found? && HasData(log, k, o, ty, answer.data)
    case Write(_, _, _) => answer == Nothing
    case WriteSized(_, _, size, data) => answer == Flag(|data| == size)
    case Remove(o, ty) => answer == Flag(exists j :: LatestAt(log, k, j, o, ty))
    case RemoveAll(_) => answer == Nothing
  }

  lemma HasDataPrefix(log: seq<StorageEvent>, k: nat, o: ObjectId, ty: ComponentType, data: Option<ComponentData>)
    requires k <= |log| && HasData(log[..k], k, o, ty, data)
    ensures HasData(log, k, o, ty, data)
  {
    var front := log[..k];
    assert forall i :: 0 <= i < k ==> front[i] == log[i];
    forall j ensures LatestAt(log, k, j, o, ty) == LatestAt(front, k, j, o, ty) {
      if LatestAt(log, k, j, o, ty) {
        forall i | j < i < k ensures !Stores(front[i], o, ty) && !Clears(front[i], o, ty) {
          assert front[i] == log[i];
        }
      }
    }
    if data.Some? {
      var j :| LatestAt(front, k, j, o, ty) && front[j].op.data == data.value;
      assert LatestAt(log, k, j, o, ty) && log[j].op.data == data.value;
    }
  }

  lemma {:induction false} LegalPrefix(log: seq<StorageEvent>, k: nat)
    requires Legal(log) && k < |log| && log[k].Take?
    ensures log[k].answer == Apply(log[k].op, Replay(log[..k])).1
    decreases |log|
  {
    if k == |log| - 1 {
      assert log[..k] == Front(log);
    } else {
      LegalPrefix(Front(log), k);
      assert Front(log)[..k] == log[..k];
    }
  }

  /** In every legal history each call answers for the last writes before it: Read gives the data of
      the last one that was not cleared since, Remove says whether there is one. */
  lemma AnswersAreLatest(log: seq<StorageEvent>, k: nat)
    requires Legal(log) && k < |log| && log[k].Take?
    ensures RightAnswer(log, k, log[k].op, log[k].answer)
  {
    LegalPrefix(log, k);
    var op := log[k].op;
    if op.Read? || op.Remove? {
      LookupIsLatest(log[..k], op.obj, op.ty);
      HasDataPrefix(log, k, op.obj, op.ty, Lookup(Replay(log[..k]), op.obj, op.ty));
    }
  }

  /** The calls of the schedule, and the calls of the history. */
  function Begun(moves: seq<Move>): seq<(ThreadId, Op)> {
    if moves == [] then []
    else (if moves[0].Begin? then [(moves[0].t, moves[0].op)] else []) + Begun(moves[1..])
  }

  function Invoked(log: seq<StorageEvent>): seq<(ThreadId, Op)> {
    if log == [] then []
    else Invoked(Front(log)) + if Last(log).Invoke? then [(Last(log).thread, Last(log).op)] else []
  }

  lemma InvokedAppend(log: seq<StorageEvent>, e: StorageEvent)
    ensures Invoked(log + [e]) == Invoked(log) + if e.Invoke? then [(e.thread, e.op)] else []
  {
    assert Front(log + [e]) == log && Last(log + [e]) == e;
  }

  lemma MoveInvokes(s: Store, m: Move)
    requires CanMove(s, m)
    ensures Invoked(Do(s, m).log) == Invoked(s.log) + if m.Begin? then [(m.t, m.op)] else []
  {
    match m {
      case Begin(t, op) => InvokedAppend(s.log, Invoke(t, op));
      case Advance(t) =>
        ExecLog(s, t, Code(s, t), Do(s, m));
        NoInvoke(s, t, Code(s, t), Do(s, m));
        hide Exec, Code;
        if Do(s, m).log != s.log {
          InvokedAppend(s.log, Last(Do(s, m).log));
        }
    }
  }

  lemma NoInvoke(s: Store, t: ThreadId, i: Instr, s': Store)
    requires t in s.points && s.points[t].In? && s' == Exec(s, t, i)
    ensures s'.log != s.log ==> s'.log != [] && !Last(s'.log).Invoke?
  {
    hide Access, Stale, Dead, Rehashes, HeldCell;
  }

  lemma {:induction false} MovesInvoke(s: Store, moves: seq<Move>)
    requires CanMoves(s, moves)
    ensures Invoked(DoAll(s, moves).log) == Invoked(s.log) + Begun(moves)
    decreases |moves|
  {
    if moves != [] {
      hide Do, CanMove, Invoked;
      var first := if moves[0].Begin? then [(moves[0].t, moves[0].op)] else [];
      MoveInvokes(s, moves[0]);
      MovesInvoke(Do(s, moves[0]), moves[1..]);
      Associate(Invoked(s.log), first, Begun(moves[1..]));
    }
  }

  /** The store as its callers see it, after any schedule: the history consists of exactly the calls
      that were made, and every call answers for the last writes before it took effect. */
  lemma StoreAnswersForLastWrites(threads: set<ThreadId>, rehashing: set<CellRef>, moves: seq<Move>)
    requires CanMoves(Init(threads, rehashing), moves)
    ensures var log := DoAll(Init(threads, rehashing), moves).log;
            WellFormed(log) && Invoked(log) == Begun(moves) &&
            forall k :: 0 <= k < |log| && log[k].Take? ==> RightAnswer(log, k, log[k].op, log[k].answer)
  {
    var log := DoAll(Init(threads, rehashing), moves).log;
    StoreIsLinearizable(threads, rehashing, moves);
    MovesInvoke(Init(threads, rehashing), moves);
    hide WellFormed, RightAnswer, Legal, CanMoves, DoAll;
    forall k | 0 <= k < |log| && log[k].Take? ensures RightAnswer(log, k, log[k].op, log[k].answer) {
      AnswersAreLatest(log, k);
    }
  }
}
