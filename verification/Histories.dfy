/** Histories of concurrent calls: each is invoked, takes effect, and returns. */
module Histories {
  import opened Basics

  datatype Event<Op, Answer> =
    | Invoke(thread: ThreadId, op: Op)
    | Take(thread: ThreadId, op: Op, answer: Answer)
    | Return(thread: ThreadId, op: Op, answer: Answer)

  /** What one thread is doing according to the history; Broken as soon as its events are
      not Invoke(op), Take(op, a), Return(op, a) over and over. */
  datatype Phase<Op, Answer> = Quiet | Pending(op: Op) | Taken(op: Op, answer: Answer) | Broken

  function PhaseAfter<Op(==), Answer(==)>(p: Phase<Op, Answer>, e: Event<Op, Answer>): Phase<Op, Answer> {
    match e
    case Invoke(_, op) => if p.Quiet? then Pending(op) else Broken
    case Take(_, op, a) => if p == Pending(op) then Taken(op, a) else Broken
    case Return(_, op, a) => if p == Taken(op, a) then Quiet else Broken
  }

  function PhaseOf<Op(==), Answer(==)>(log: seq<Event<Op, Answer>>, t: ThreadId): Phase<Op, Answer> {
    if log == [] then Quiet
    else if Last(log).thread == t then PhaseAfter(PhaseOf(Front(log), t), Last(log))
    else PhaseOf(Front(log), t)
  }

  /** Every thread makes one call after the other, and each call takes effect once, between its
      Invoke and its Return, which returns the answer given there. */
  ghost predicate WellFormed<Op, Answer>(log: seq<Event<Op, Answer>>) {
    forall t :: PhaseOf(log, t) != Broken
  }

  ghost predicate NoEventOf<Op, Answer>(log: seq<Event<Op, Answer>>, t: ThreadId, from: int, to: int) {
    forall i :: from < i < to && 0 <= i < |log| ==> log[i].thread != t
  }

  lemma {:induction false} TakenHasItsTake<Op, Answer>(log: seq<Event<Op, Answer>>, t: ThreadId)
    requires PhaseOf(log, t).Taken?
    ensures exists i, j :: 0 <= i < j < |log| &&
              log[i] == Invoke(t, PhaseOf(log, t).op) &&
              log[j] == Take(t, PhaseOf(log, t).op, PhaseOf(log, t).answer) &&
              NoEventOf(log, t, i, j) && NoEventOf(log, t, j, |log|)
  {
    var front := Front(log);
    if Last(log).thread != t {
      TakenHasItsTake(front, t);
      var i, j :| 0 <= i < j < |front| &&
                  front[i] == Invoke(t, PhaseOf(front, t).op) &&
                  front[j] == Take(t, PhaseOf(front, t).op, PhaseOf(front, t).answer) &&
                  NoEventOf(front, t, i, j) && NoEventOf(front, t, j, |front|);
      assert NoEventOf(log, t, i, j) && NoEventOf(log, t, j, |log|);
    } else {
      PendingHasItsInvoke(front, t);
      var i :| 0 <= i < |front| && front[i] == Invoke(t, PhaseOf(front, t).op) &&
               NoEventOf(front, t, i, |front|);
      assert log[i] == front[i];
      assert NoEventOf(log, t, i, |front|) && NoEventOf(log, t, |front|, |log|);
    }
  }

  lemma {:induction false} PendingHasItsInvoke<Op, Answer>(log: seq<Event<Op, Answer>>, t: ThreadId)
    requires PhaseOf(log, t).Pending?
    ensures exists i :: 0 <= i < |log| && log[i] == Invoke(t, PhaseOf(log, t).op) &&
              NoEventOf(log, t, i, |log|)
  {
    var front := Front(log);
    if Last(log).thread != t {
      PendingHasItsInvoke(front, t);
      var i :| 0 <= i < |front| && front[i] == Invoke(t, PhaseOf(front, t).op) &&
               NoEventOf(front, t, i, |front|);
      assert log[i] == front[i];
      assert NoEventOf(log, t, i, |log|);
    } else {
      assert log[|front|] == Invoke(t, PhaseOf(log, t).op);
      assert NoEventOf(log, t, |front|, |log|);
    }
  }

  lemma {:induction false} PrefixNotBroken<Op, Answer>(log: seq<Event<Op, Answer>>, t: ThreadId, k: nat)
    requires PhaseOf(log, t) != Broken
    requires k <= |log|
    ensures PhaseOf(log[..k], t) != Broken
    decreases |log|
  {
    if k == |log| {
      assert log[..k] == log;
    } else {
      PrefixNotBroken(Front(log), t, k);
      assert Front(log)[..k] == log[..k];
    }
  }

  /** In a well-formed history every Return is preceded by the Invoke and the Take of the
      same call, in that order and with nothing of that thread in between. So the order of
      the Take events respects real time: a call that returned before another was invoked
      took effect before it. */
  lemma ReturnHasItsTake<Op, Answer>(log: seq<Event<Op, Answer>>, k: nat)
    requires WellFormed(log)
    requires k < |log| && log[k].Return?
    ensures exists i, j :: 0 <= i < j < k &&
              log[i] == Invoke(log[k].thread, log[k].op) &&
              log[j] == Take(log[k].thread, log[k].op, log[k].answer) &&
              NoEventOf(log, log[k].thread, i, j) && NoEventOf(log, log[k].thread, j, k)
  {
    var t := log[k].thread;
    PrefixNotBroken(log, t, k + 1);
    var upto := log[..k + 1];
    assert Front(upto) == log[..k] && Last(upto) == log[k];
    TakenHasItsTake(log[..k], t);
    var i, j :| 0 <= i < j < k && log[..k][i] == Invoke(t, log[k].op) &&
                log[..k][j] == Take(t, log[k].op, log[k].answer) &&
                NoEventOf(log[..k], t, i, j) && NoEventOf(log[..k], t, j, k);
    assert log[i] == log[..k][i] && log[j] == log[..k][j];
    forall m | i < m < j && 0 <= m < |log| ensures log[m].thread != t {
      assert log[..k][m] == log[m];
    }
    forall m | j < m < k && 0 <= m < |log| ensures log[m].thread != t {
      assert log[..k][m] == log[m];
    }
    assert NoEventOf(log, t, i, j) && NoEventOf(log, t, j, k);
  }

  lemma PhaseAppend<Op, Answer>(log: seq<Event<Op, Answer>>, e: Event<Op, Answer>, t: ThreadId)
    ensures PhaseOf(log + [e], t) == if e.thread == t then PhaseAfter(PhaseOf(log, t), e) else PhaseOf(log, t)
  {
    assert Front(log + [e]) == log && Last(log + [e]) == e;
  }
}
