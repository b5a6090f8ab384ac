/** What the answers of the registry mean in terms of the calls alone: an object has the header that
    the last Create or successful Migrate of its id left, unless a Destroy came after it. */
module RegistryMeaning {
  import opened Basics
  import opened RegistrySpec
  import opened RegistryMachine
  import opened RegistryHistory

  /** The call that takes effect here changes what is stored for the id. */
  predicate Touches(e: CallEvent, id: ObjectId) {
    e.Take? &&
    match e.op
    case Create(h) => h.id == id
    case Destroy(o) => o == id
    case Migrate(o, _) => o == id && e.answer == Said(true)
    case _ => false
  }

  /** What it leaves. */
  predicate Leaves(e: CallEvent, a: Option<Header>)
    requires e.Take?
  {
    match e.op
    case Create(h) => a == Some(h)
    case Destroy(_) => a == None
    case Migrate(_, target) => a.Some? && a.value.version == target
    case _ => false
  }

  /** Of the first k events the j-th is the last to touch the id. */
  ghost predicate LastTouch(h: seq<CallEvent>, k: nat, j: int, id: ObjectId) {
    0 <= j < k <= |h| && Touches(h[j], id) && forall i :: j < i < k ==> !Touches(h[i], id)
  }

  ghost predicate ShowsAt(h: seq<CallEvent>, k: nat, id: ObjectId, a: Option<Header>) {
    if exists j :: LastTouch(h, k, j, id) then exists j :: LastTouch(h, k, j, id) && Leaves(h[j], a) else a == None
  }

  lemma ShowsPrefix(h: seq<CallEvent>, k: nat, id: ObjectId, a: Option<Header>)
    requires k <= |h| && ShowsAt(h[..k], k, id, a)
    ensures ShowsAt(h, k, id, a)
  {
    var front := h[..k];
    assert forall i :: 0 <= i < k ==> front[i] == h[i];
    forall j ensures LastTouch(h, k, j, id) == LastTouch(front, k, j, id) {
      if LastTouch(h, k, j, id) {
        forall i | j < i < k ensures !Touches(front[i], id) {
          assert front[i] == h[i];
        }
      }
    }
    if j :| LastTouch(front, k, j, id) && Leaves(front[j], a) {
      assert LastTouch(h, k, j, id) && Leaves(h[j], a);
    }
  }

  lemma ShowsOneMore(h: seq<CallEvent>, k: nat, id: ObjectId, a: Option<Header>)
    requires k < |h| && !Touches(h[k], id) && ShowsAt(h, k, id, a)
    ensures ShowsAt(h, k + 1, id, a)
  {
    var n := k + 1;
    forall j ensures LastTouch(h, n, j, id) == LastTouch(h, k, j, id) {
      assert LastTouch(h, n, j, id) ==> j != k;
    }
    if j :| LastTouch(h, k, j, id) {
      assert LastTouch(h, n, j, id);
    }
    if j :| LastTouch(h, n, j, id) {
      assert LastTouch(h, k, j, id);
    }
  }

  lemma ShowsLast(h: seq<CallEvent>, id: ObjectId, a: Option<Header>)
    requires h != [] && Touches(Last(h), id) && Leaves(Last(h), a)
    ensures ShowsAt(h, |h|, id, a)
  {
    assert LastTouch(h, |h|, |h| - 1, id);
  }

  /** What one event of the atomic registry does to one id. */
  lemma EffectOnOne(e: CallEvent, r: RegistryEvent, m: Headers, id: ObjectId)
    requires e.Take? && Concerns(e.op, r) && AnswerOf(r) == e.answer && Fits(r, m)
    ensures if Touches(e, id) then Leaves(e, HeaderOf(Effect(r, m), id))
            else HeaderOf(Effect(r, m), id) == HeaderOf(m, id)
  {
  }

  /** What the atomic registry stores. */
  lemma {:induction false} HeaderIsLatest(h: seq<CallEvent>, log: seq<RegistryEvent>, id: ObjectId)
    requires Explains(h, log) && LegalRegistry(log)
    ensures ShowsAt(h, |h|, id, HeaderOf(HeadersAfter(log), id))
    decreases |h|
  {
    if h != [] {
      var front, e := Front(h), Last(h);
      var before := if e.Take? then Front(log) else log;
      HeaderIsLatest(front, before, id);
      assert front == h[..|h| - 1];
      if e.Take? {
        EffectOnOne(e, Last(log), HeadersAfter(Front(log)), id);
      }
      hide ShowsAt, Explains, Concerns, Leaves;
      ShowsPrefix(h, |h| - 1, id, HeaderOf(HeadersAfter(before), id));
      if Touches(e, id) {
        ShowsLast(h, id, HeaderOf(HeadersAfter(log), id));
      } else {
        ShowsOneMore(h, |h| - 1, id, HeaderOf(HeadersAfter(log), id));
      }
    }
  }

  /** The answer of a call fits what the first k events left. */
  ghost predicate RightAnswer(h: seq<CallEvent>, k: nat, call: Call, answer: Result) {
    match call
    case Create(header) => answer == NewId(header.id)
    case Get(id) => answer.Saw? && ShowsAt(h, k, id, answer.header)
    case Destroy(_) => answer == Nothing
    case Migrate(id, _) => answer.Said? && (answer.ok ==> !ShowsAt(h, k, id, None))
    case _ => true
  }

  lemma ShowsOnlyOne(h: seq<CallEvent>, k: nat, id: ObjectId, a: Option<Header>)
    requires ShowsAt(h, k, id, a) && ShowsAt(h, k, id, None)
    ensures a == None
  {
    if i :| LastTouch(h, k, i, id) {
      var j :| LastTouch(h, k, j, id) && Leaves(h[j], a);
      var n :| LastTouch(h, k, n, id) && Leaves(h[n], None);
      assert j == n;
    }
  }

  lemma TakeIsRight(h: seq<CallEvent>, log: seq<RegistryEvent>, k: nat)
    requires Explains(h, log) && LegalRegistry(log) && k < |h| && h[k].Take?
    ensures RightAnswer(h, k, h[k].op, h[k].answer)
  {
    var n := EventOf(h, log, k);
    PrefixIsLegal(log, n);
    FitsThen(log, n);
    var id := IdOf(h[k].op);
    HeaderIsLatest(h[..k], log[..n], id);
    hide Explains, LegalRegistry, HeadersAfter, ShowsAt;
    var a := HeaderOf(HeadersAfter(log[..n]), id);
    ShowsPrefix(h, k, id, a);
    if h[k].op.Migrate? && ShowsAt(h, k, id, None) {
      ShowsOnlyOne(h, k, id, a);
    }
  }

  lemma FitsThen(log: seq<RegistryEvent>, n: nat)
    requires LegalRegistry(log) && n < |log|
    ensures Fits(log[n], HeadersAfter(log[..n]))
  {
    PrefixIsLegal(log, n + 1);
    assert Front(log[..n + 1]) == log[..n] && Last(log[..n + 1]) == log[n];
  }

  /** The registry as its callers see it, after any schedule: every call answers for the last Create,
      Destroy or successful Migrate of the id before it took effect. */
  lemma RegistryAnswersForLastCalls(threads: set<ThreadId>, rehashing: set<Machine.CellRef>, moves: seq<Move>)
    requires CanMoves(Init(threads, rehashing), moves)
    ensures var h := History(Init(threads, rehashing), moves, []);
            forall k :: 0 <= k < |h| && h[k].Take? ==> RightAnswer(h, k, h[k].op, h[k].answer)
  {
    var h, log := History(Init(threads, rehashing), moves, []), DoAll(Init(threads, rehashing), moves).log;
    RegistryIsLinearizable(threads, rehashing, moves);
    hide History, DoAll, CanMoves, Explains, LegalRegistry, RightAnswer;
    forall k | 0 <= k < |h| && h[k].Take? ensures RightAnswer(h, k, h[k].op, h[k].answer) {
      TakeIsRight(h, log, k);
    }
  }
}
