/** The few facts about division the rate limits need. */
module Division {

  lemma Distribute(d: int, x: int, y: int)
    ensures d * x - d * y == d * (x - y)
  {
  }

  lemma AtLeastOnce(k: int, d: int)
    requires k >= 1 && d >= 0
    ensures d * k >= d
  {
    if k > 1 {
      AtLeastOnce(k - 1, d);
      Distribute(d, k, k - 1);
    }
  }

  lemma Quotient(a: int, d: int, q: int, r: int)
    requires d > 0 && 0 <= r < d && a == d * q + r
    ensures a / d == q && a % d == r
  {
    var q', r' := a / d, a % d;
    assert a == d * q' + r';
    Distribute(d, q', q);
    Distribute(d, q, q');
    if q' > q {
      AtLeastOnce(q' - q, d);
    } else if q' < q {
      AtLeastOnce(q - q', d);
    }
  }
}

/** LOG_EVERY_MS of src/core/logging.h as a protocol of any number of threads at one call site.

    A call reads the clock, loads the last recorded time, and tries to replace it. The load is
    relaxed, so it may return any value the atomic ever held; the weak exchange compares with
    the newest value, and may fail for no reason. Nothing is assumed about the clock. */
module RateEveryMs {
  import opened Basics
  import opened Division

  datatype Pc =
    | Start
    | Clocked(now: int)
    | Loaded(now: int, last: int)
    | Logging(now: int)             // the exchange succeeded, the message is not out yet

  /** `hist` holds every value of the atomic, oldest first; `emitted` the clock values of the
      calls that logged, in the order of their messages. */
  datatype Site = Site(hist: seq<int>, threads: seq<Pc>, emitted: seq<int>)

  datatype Move =
    | ReadClock(t: ThreadId, now: int)
    | Load(t: ThreadId, age: nat)
    | Exchange(t: ThreadId, spurious: bool)
    | Emit(t: ThreadId)

  function NewSite(threads: nat): Site {
    Site([0], seq(threads, _ => Start), [])
  }

  predicate CanMove(s: Site, m: Move) {
    m.t < |s.threads| &&
    match m
    case ReadClock(t, _) => s.threads[t].Start?
    case Load(t, age) => s.threads[t].Clocked? && age < |s.hist|
    case Exchange(t, _) => s.threads[t].Loaded? && s.hist != []
    case Emit(t) => s.threads[t].Logging?
  }

  /** Does the exchange of the condition take place? */
  predicate Wins(s: Site, pc: Pc, spurious: bool, ms: int)
    requires pc.Loaded? && s.hist != []
  {
    pc.now - pc.last >= ms && Last(s.hist) == pc.last && !spurious
  }

  function Step(s: Site, m: Move, ms: int): Site
    requires CanMove(s, m)
  {
    var pc := s.threads[m.t];
    match m
    case ReadClock(t, now) => s.(threads := s.threads[t := Clocked(now)])
    case Load(t, age) => s.(threads := s.threads[t := Loaded(pc.now, s.hist[age])])
    case Exchange(t, spurious) =>
      if Wins(s, pc, spurious, ms) then s.(hist := s.hist + [pc.now], threads := s.threads[t := Logging(pc.now)])
      else s.(threads := s.threads[t := Start])
    case Emit(t) => s.(emitted := s.emitted + [pc.now], threads := s.threads[t := Start])
  }

  predicate CanMoveAll(s: Site, moves: seq<Move>, ms: int)
    decreases |moves|
  {
    moves == [] || (CanMove(s, moves[0]) && CanMoveAll(Step(s, moves[0], ms), moves[1..], ms))
  }

  function Run(s: Site, moves: seq<Move>, ms: int): Site
    requires CanMoveAll(s, moves, ms)
    decreases |moves|
  {
    if moves == [] then s else Run(Step(s, moves[0], ms), moves[1..], ms)
  }

  predicate Within(time: int, low: int, high: int) {
    low <= time <= high
  }

  /** How many of the times lie between low and high. */
  function CountIn(times: seq<int>, low: int, high: int): nat {
    if times == [] then 0
    else CountIn(Front(times), low, high) + if Within(Last(times), low, high) then 1 else 0
  }

  function OwnPending(pc: Pc, low: int, high: int): nat {
    if pc.Logging? && Within(pc.now, low, high) then 1 else 0
  }

  /** The same for the calls between their exchange and their message. */
  function PendingIn(threads: seq<Pc>, low: int, high: int): nat {
    if threads == [] then 0
    else PendingIn(Front(threads), low, high) + OwnPending(Last(threads), low, high)
  }

  lemma {:induction false} PendingUpdate(threads: seq<Pc>, t: nat, pc: Pc, low: int, high: int)
    requires t < |threads|
    ensures PendingIn(threads[t := pc], low, high) ==
            PendingIn(threads, low, high) - OwnPending(threads[t], low, high) + OwnPending(pc, low, high)
  {
    var updated := threads[t := pc];
    if t == |threads| - 1 {
      assert Front(updated) == Front(threads);
    } else {
      assert Front(updated) == Front(threads)[t := pc];
      PendingUpdate(Front(threads), t, pc, low, high);
    }
  }

  lemma {:induction false} NonePending(threads: seq<Pc>, low: int, high: int)
    requires forall t :: 0 <= t < |threads| ==> !threads[t].Logging?
    ensures PendingIn(threads, low, high) == 0
  {
    if threads != [] {
      NonePending(Front(threads), low, high);
    }
  }

  lemma CountSnoc(times: seq<int>, time: int, low: int, high: int)
    ensures CountIn(times + [time], low, high) == CountIn(times, low, high) + if Within(time, low, high) then 1 else 0
  {
    assert Front(times + [time]) == times;
  }

  predicate Spaced(times: seq<int>, ms: int) {
    forall i {:trigger times[i]} :: 1 <= i < |times| ==> times[i] - times[i - 1] >= ms
  }

  ghost predicate Inv(s: Site, ms: int) {
    s.hist != [] && s.hist[0] == 0 && Spaced(s.hist, ms) &&
    (forall t :: 0 <= t < |s.threads| && s.threads[t].Loaded? ==> s.threads[t].last in s.hist)
  }

  /** The recorded times are those logged and those about to be. */
  ghost predicate Accounted(s: Site, low: int, high: int) {
    s.hist != [] && CountIn(s.emitted, low, high) + PendingIn(s.threads, low, high) == CountIn(s.hist[1..], low, high)
  }

  lemma StepKeeps(s: Site, m: Move, ms: int)
    requires Inv(s, ms) && CanMove(s, m)
    ensures Inv(Step(s, m, ms), ms)
  {
  }

  lemma StepAccounts(s: Site, m: Move, ms: int, low: int, high: int)
    requires Accounted(s, low, high) && CanMove(s, m)
    ensures Accounted(Step(s, m, ms), low, high)
  {
    hide CountIn, PendingIn, Within;
    var s' := Step(s, m, ms);
    var pc := s.threads[m.t];
    PendingUpdate(s.threads, m.t, s'.threads[m.t], low, high);
    if m.Emit? {
      CountSnoc(s.emitted, pc.now, low, high);
    } else if m.Exchange? && Wins(s, pc, m.spurious, ms) {
      assert s'.hist[1..] == s.hist[1..] + [pc.now];
      CountSnoc(s.hist[1..], pc.now, low, high);
    }
  }

  lemma {:induction false} RunKeeps(s: Site, moves: seq<Move>, ms: int)
    requires Inv(s, ms) && CanMoveAll(s, moves, ms)
    ensures Inv(Run(s, moves, ms), ms)
    decreases |moves|
  {
    if moves != [] {
      StepKeeps(s, moves[0], ms);
      RunKeeps(Step(s, moves[0], ms), moves[1..], ms);
    }
  }

  lemma {:induction false} RunAccounts(s: Site, moves: seq<Move>, ms: int, low: int, high: int)
    requires Accounted(s, low, high) && CanMoveAll(s, moves, ms)
    ensures Accounted(Run(s, moves, ms), low, high)
    decreases |moves|
  {
    if moves != [] {
      StepAccounts(s, moves[0], ms, low, high);
      RunAccounts(Step(s, moves[0], ms), moves[1..], ms, low, high);
    }
  }

  /** In every run the recorded times are at least ms apart, the first one from 0. */
  lemma RecordedTimesAreSpaced(threads: nat, moves: seq<Move>, ms: int)
    requires CanMoveAll(NewSite(threads), moves, ms)
    ensures Inv(Run(NewSite(threads), moves, ms), ms)
  {
    RunKeeps(NewSite(threads), moves, ms);
  }

  /** In every run each recorded time belongs to exactly one call, which has logged or is about
      to, and no other call logs: so it is for the times between any two bounds. */
  lemma LoggedAreTheRecorded(threads: nat, moves: seq<Move>, ms: int, low: int, high: int)
    requires CanMoveAll(NewSite(threads), moves, ms)
    ensures var s := Run(NewSite(threads), moves, ms);
            s.hist != [] && CountIn(s.emitted, low, high) + PendingIn(s.threads, low, high) ==
                            CountIn(s.hist[1..], low, high)
  {
    NonePending(NewSite(threads).threads, low, high);
    RunAccounts(NewSite(threads), moves, ms, low, high);
  }

  /** Not only neighbours are apart. */
  lemma {:induction false} SpacedFar(times: seq<int>, ms: int, i: nat, j: nat)
    requires ms >= 0 && Spaced(times, ms) && i < j < |times|
    ensures times[j] - times[i] >= ms
    decreases j
  {
    assert times[j] - times[j - 1] >= ms;
    if i < j - 1 {
      SpacedFar(times, ms, i, j - 1);
    }
  }

  lemma {:induction false} NothingBelow(times: seq<int>, low: int, high: int)
    requires forall i :: 0 <= i < |times| ==> times[i] < low
    ensures CountIn(times, low, high) == 0
  {
    if times != [] {
      NothingBelow(Front(times), low, high);
    }
  }

  lemma {:induction false} SameCount(times: seq<int>, low: int, high: int, high': int)
    requires high' <= high && forall i :: 0 <= i < |times| ==> times[i] <= high'
    ensures CountIn(times, low, high) == CountIn(times, low, high')
  {
    if times != [] {
      SameCount(Front(times), low, high, high');
    }
  }

  lemma FrontIsEarlier(times: seq<int>, ms: int)
    requires ms >= 0 && Spaced(times, ms) && times != []
    ensures Spaced(Front(times), ms)
    ensures forall i :: 0 <= i < |Front(times)| ==> Front(times)[i] <= Last(times) - ms
  {
    forall i | 0 <= i < |Front(times)| ensures Front(times)[i] <= Last(times) - ms {
      SpacedFar(times, ms, i, |times| - 1);
    }
  }

  /** At most one recorded time for each ms of the window, and one more. */
  lemma {:induction false} SpacedCount(times: seq<int>, ms: int, low: int, high: int)
    requires ms > 0 && Spaced(times, ms) && high >= low - ms
    ensures CountIn(times, low, high) <= (high - low) / ms + 1
    decreases |times|
  {
    hide Spaced;
    if times == [] {
      SmallestWindow(low, high, ms);
    } else {
      var front, x := Front(times), Last(times);
      FrontIsEarlier(times, ms);
      if x > high {
        SpacedCount(front, ms, low, high);
      } else if x < low {
        NothingBelow(times, low, high);
        SmallestWindow(low, high, ms);
      } else {
        SameCount(front, low, high, x - ms);
        SpacedCount(front, ms, low, x - ms);
        OneLess(x, low, high, ms);
      }
    }
  }

  lemma SmallestWindow(low: int, high: int, ms: int)
    requires ms > 0 && high >= low - ms
    ensures (high - low) / ms + 1 >= 0
  {
    DivMono(-ms, high - low, ms);
    DivMinusOne(0, ms);
  }

  lemma OneLess(x: int, low: int, high: int, ms: int)
    requires ms > 0 && x <= high
    ensures (x - ms - low) / ms + 1 <= (high - low) / ms
  {
    DivMinusOne(x - low, ms);
    DivMono(x - low, high - low, ms);
    assert x - low - ms == x - ms - low;
  }

  lemma DivMinusOne(a: int, d: int)
    requires d > 0
    ensures (a - d) / d == a / d - 1
  {
    Quotient(a - d, d, a / d - 1, a % d);
  }

  lemma DivMono(a: int, b: int, d: int)
    requires d > 0 && a <= b
    ensures a / d <= b / d
  {
    var q, q' := a / d, b / d;
    assert a == d * q + a % d && b == d * q' + b % d;
    if q > q' {
      AtLeastOnce(q - q', d);
      Distribute(d, q, q');
    }
  }

  /** The rate limit: in every run, of the messages whose recorded times lie in one window of
      length `width`, at most width / ms + 1 are ever logged. */
  lemma RateIsLimited(threads: nat, moves: seq<Move>, ms: int, low: int, width: nat)
    requires ms > 0 && CanMoveAll(NewSite(threads), moves, ms)
    ensures CountIn(Run(NewSite(threads), moves, ms).emitted, low, low + width) <= width / ms + 1
  {
    hide *;
    RecordedTimesAreSpaced(threads, moves, ms);
    LoggedAreTheRecorded(threads, moves, ms, low, low + width);
    RecordedInWindow(Run(NewSite(threads), moves, ms), ms, low, width);
  }

  lemma RecordedInWindow(s: Site, ms: int, low: int, width: nat)
    requires ms > 0 && Inv(s, ms)
    ensures CountIn(s.hist[1..], low, low + width) <= width / ms + 1
  {
    var times := s.hist[1..];
    forall i {:trigger times[i]} | 1 <= i < |times| ensures times[i] - times[i - 1] >= ms {
      assert times[i] == s.hist[i + 1];
    }
    SpacedCount(times, ms, low, low + width);
  }

  /** A call whose time is due and whose exchange does not fail spuriously is only silenced by
      a time recorded after the one it loaded. */
  lemma SilencedByNewer(s: Site, t: ThreadId, ms: int)
    requires ms > 0 && Inv(s, ms) && CanMove(s, Exchange(t, false))
    requires s.threads[t].now - s.threads[t].last >= ms
    ensures Step(s, Exchange(t, false), ms).threads[t].Start? <==> Last(s.hist) > s.threads[t].last
  {
    var last := s.threads[t].last;
    var i :| 0 <= i < |s.hist| && s.hist[i] == last;
    if i < |s.hist| - 1 {
      SpacedFar(s.hist, ms, i, |s.hist| - 1);
    }
  }

  /** A call that runs undisturbed, loads the newest value and meets no spurious failure, logs
      if and only if its time is at least ms later than every recorded one and 0; then its time
      is recorded. */
  lemma UndisturbedCall(s: Site, t: ThreadId, now: int, ms: int, s1: Site, s2: Site)
    requires ms > 0 && Inv(s, ms) && CanMove(s, ReadClock(t, now))
    requires s1 == Step(s, ReadClock(t, now), ms)
    requires s2 == Step(s1, Load(t, |s1.hist| - 1), ms)
    ensures var s3 := Step(s2, Exchange(t, false), ms);
            (s3.threads[t].Logging? <==> forall r :: r in s.hist ==> now - r >= ms) &&
            s3.hist == (if s3.threads[t].Logging? then s.hist + [now] else s.hist) && s3.emitted == s.emitted
  {
    LatestIsGreatest(s, ms);
    hide Inv, Spaced;
    assert Last(s.hist) in s.hist;
  }

  lemma LatestIsGreatest(s: Site, ms: int)
    requires ms >= 0 && Inv(s, ms)
    ensures s.hist != [] && forall r :: r in s.hist ==> r <= Last(s.hist)
  {
    forall r | r in s.hist ensures r <= Last(s.hist) {
      var i :| 0 <= i < |s.hist| && s.hist[i] == r;
      if i < |s.hist| - 1 {
        SpacedFar(s.hist, ms, i, |s.hist| - 1);
      }
    }
  }
}

/** LOG_EVERY_N and LOG_FIRST_N of src/core/logging.h: a call takes a number with one atomic
    fetch_add and logs if its number is chosen. */
module RateCounted {
  import opened Basics
  import opened Division

  datatype Rule = EveryN(n: int) | FirstN(n: int)

  /** LOG_EVERY_N divides by n. */
  predicate ValidRule(rule: Rule) {
    rule.EveryN? ==> rule.n != 0
  }

  predicate Chosen(rule: Rule, count: nat)
    requires ValidRule(rule)
  {
    match rule
    case EveryN(n) => count % n == 0
    case FirstN(n) => count < n
  }

  datatype Pc = Start | Counted(count: nat)

  datatype Site = Site(counter: nat, threads: seq<Pc>, emitted: seq<nat>)

  datatype Move = FetchAdd(t: ThreadId) | Finish(t: ThreadId)

  function NewSite(threads: nat): Site {
    Site(0, seq(threads, _ => Start), [])
  }

  predicate CanMove(s: Site, m: Move) {
    m.t < |s.threads| && (if m.FetchAdd? then s.threads[m.t].Start? else s.threads[m.t].Counted?)
  }

  function Step(s: Site, m: Move, rule: Rule): Site
    requires CanMove(s, m) && ValidRule(rule)
  {
    match m
    case FetchAdd(t) => s.(counter := s.counter + 1, threads := s.threads[t := Counted(s.counter)])
    case Finish(t) =>
      var count := s.threads[t].count;
      s.(emitted := if Chosen(rule, count) then s.emitted + [count] else s.emitted,
         threads := s.threads[t := Start])
  }

  predicate CanMoveAll(s: Site, moves: seq<Move>, rule: Rule)
    requires ValidRule(rule)
    decreases |moves|
  {
    moves == [] || (CanMove(s, moves[0]) && CanMoveAll(Step(s, moves[0], rule), moves[1..], rule))
  }

  function Run(s: Site, moves: seq<Move>, rule: Rule): Site
    requires ValidRule(rule) && CanMoveAll(s, moves, rule)
    decreases |moves|
  {
    if moves == [] then s else Run(Step(s, moves[0], rule), moves[1..], rule)
  }

  /** The numbers of `only`, or all. */
  predicate Counts(count: nat, only: Option<nat>) {
    only == None || only == Some(count)
  }

  function Occurrences(numbers: seq<nat>, only: Option<nat>): nat {
    if numbers == [] then 0
    else Occurrences(Front(numbers), only) + if Counts(Last(numbers), only) then 1 else 0
  }

  function OwnPending(pc: Pc, rule: Rule, only: Option<nat>): nat
    requires ValidRule(rule)
  {
    if pc.Counted? && Chosen(rule, pc.count) && Counts(pc.count, only) then 1 else 0
  }

  /** Chosen numbers whose calls have not logged yet. */
  function Pending(threads: seq<Pc>, rule: Rule, only: Option<nat>): nat
    requires ValidRule(rule)
  {
    if threads == [] then 0 else Pending(Front(threads), rule, only) + OwnPending(Last(threads), rule, only)
  }

  /** The chosen numbers below k. */
  function ChosenBelow(k: nat, rule: Rule, only: Option<nat>): nat
    requires ValidRule(rule)
  {
    if k == 0 then 0 else ChosenBelow(k - 1, rule, only) + OwnPending(Counted(k - 1), rule, only)
  }

  lemma {:induction false} PendingUpdate(threads: seq<Pc>, t: nat, pc: Pc, rule: Rule, only: Option<nat>)
    requires ValidRule(rule) && t < |threads|
    ensures Pending(threads[t := pc], rule, only) ==
            Pending(threads, rule, only) - OwnPending(threads[t], rule, only) + OwnPending(pc, rule, only)
  {
    hide OwnPending;
    var updated := threads[t := pc];
    if t == |threads| - 1 {
      assert Front(updated) == Front(threads);
    } else {
      assert Front(updated) == Front(threads)[t := pc];
      PendingUpdate(Front(threads), t, pc, rule, only);
    }
  }

  lemma {:induction false} NonePending(threads: seq<Pc>, rule: Rule, only: Option<nat>)
    requires ValidRule(rule) && forall t :: 0 <= t < |threads| ==> threads[t].Start?
    ensures Pending(threads, rule, only) == 0
  {
    if threads != [] {
      NonePending(Front(threads), rule, only);
    }
  }

  ghost predicate Inv(s: Site, rule: Rule, only: Option<nat>)
    requires ValidRule(rule)
  {
    Occurrences(s.emitted, only) + Pending(s.threads, rule, only) == ChosenBelow(s.counter, rule, only)
  }

  lemma StepKeeps(s: Site, m: Move, rule: Rule, only: Option<nat>)
    requires ValidRule(rule) && Inv(s, rule, only) && CanMove(s, m)
    ensures Inv(Step(s, m, rule), rule, only)
  {
    hide Chosen, Pending;
    var s' := Step(s, m, rule);
    PendingUpdate(s.threads, m.t, s'.threads[m.t], rule, only);
    if m.Finish? {
      assert Front(s.emitted + [s.threads[m.t].count]) == s.emitted;
    }
  }

  lemma {:induction false} RunKeeps(s: Site, moves: seq<Move>, rule: Rule, only: Option<nat>)
    requires ValidRule(rule) && Inv(s, rule, only) && CanMoveAll(s, moves, rule)
    ensures Inv(Run(s, moves, rule), rule, only)
    decreases |moves|
  {
    if moves != [] {
      StepKeeps(s, moves[0], rule, only);
      RunKeeps(Step(s, moves[0], rule), moves[1..], rule, only);
    }
  }

  lemma NewSiteRuns(threads: nat, moves: seq<Move>, rule: Rule, only: Option<nat>)
    requires ValidRule(rule) && CanMoveAll(NewSite(threads), moves, rule)
    ensures Inv(Run(NewSite(threads), moves, rule), rule, only)
  {
    NonePending(NewSite(threads).threads, rule, only);
    RunKeeps(NewSite(threads), moves, rule, only);
  }

  /** How many numbers below k are chosen: each n-th, rounded up, or the first n. */
  function Quota(k: nat, rule: Rule): int
    requires ValidRule(rule)
  {
    match rule
    case EveryN(n) => Ceiling(k, if n < 0 then -n else n)
    case FirstN(n) => if n < 0 then 0 else if k < n then k else n
  }

  /** k / d, rounded up. */
  function Ceiling(k: nat, d: int): int
    requires d > 0
  {
    (k + d - 1) / d
  }

  lemma CeilingNext(k: nat, d: int)
    requires d > 0
    ensures Ceiling(k + 1, d) == Ceiling(k, d) + if k % d == 0 then 1 else 0
  {
    var q, r := k / d, k % d;
    Distribute(d, q + 1, q);
    Quotient(k + d, d, q + 1, r);
    if r == 0 {
      Quotient(k + d - 1, d, q, d - 1);
    } else {
      Quotient(k + d - 1, d, q + 1, r - 1);
    }
  }

  lemma SameDivisors(k: nat, n: int)
    requires n < 0
    ensures k % n == k % (-n)
  {
    assert k == n * (k / n) + k % n == (-n) * (-(k / n)) + k % n;
    Quotient(k, -n, -(k / n), k % n);
  }

  lemma {:induction false} ChosenBelowAll(k: nat, rule: Rule)
    requires ValidRule(rule)
    ensures ChosenBelow(k, rule, None) == Quota(k, rule)
  {
    if k == 0 {
      if rule.EveryN? {
        var d := if rule.n < 0 then -rule.n else rule.n;
        Quotient(d - 1, d, 0, d - 1);
      }
    } else {
      ChosenBelowAll(k - 1, rule);
      if rule.EveryN? {
        hide Ceiling;
        CeilingNext(k - 1, if rule.n < 0 then -rule.n else rule.n);
        if rule.n < 0 {
          SameDivisors(k - 1, rule.n);
        }
      }
    }
  }

  lemma {:induction false} ChosenBelowOne(k: nat, rule: Rule, c: nat)
    requires ValidRule(rule)
    ensures ChosenBelow(k, rule, Some(c)) == if c < k && Chosen(rule, c) then 1 else 0
  {
    hide Chosen;
    if k > 0 {
      ChosenBelowOne(k - 1, rule, c);
    }
  }

  /** In every run each chosen number among the calls so far is logged exactly once or about to
      be, and no other number is. */
  lemma LogsAreTheChosen(threads: nat, moves: seq<Move>, rule: Rule, c: nat)
    requires ValidRule(rule) && CanMoveAll(NewSite(threads), moves, rule)
    ensures var s := Run(NewSite(threads), moves, rule);
            Occurrences(s.emitted, Some(c)) + Pending(s.threads, rule, Some(c)) ==
            if c < Calls(moves) && Chosen(rule, c) then 1 else 0
  {
    CounterIsCalls(NewSite(threads), moves, rule);
    NewSiteRuns(threads, moves, rule, Some(c));
    ChosenBelowOne(Run(NewSite(threads), moves, rule).counter, rule, c);
  }

  lemma {:induction false} AllOccur(numbers: seq<nat>)
    ensures Occurrences(numbers, None) == |numbers|
  {
    if numbers != [] {
      AllOccur(Front(numbers));
    }
  }

  /** The calls made, told from the moves alone. */
  function Calls(moves: seq<Move>): nat {
    if moves == [] then 0 else (if moves[0].FetchAdd? then 1 else 0) + Calls(moves[1..])
  }

  lemma {:induction false} CounterIsCalls(s: Site, moves: seq<Move>, rule: Rule)
    requires ValidRule(rule) && CanMoveAll(s, moves, rule)
    ensures Run(s, moves, rule).counter == s.counter + Calls(moves)
    decreases |moves|
  {
    if moves != [] {
      hide Chosen;
      CounterIsCalls(Step(s, moves[0], rule), moves[1..], rule);
    }
  }

  /** So after k calls the messages, with those about to be logged, are exactly Quota(k). */
  lemma LogsFillTheQuota(threads: nat, moves: seq<Move>, rule: Rule)
    requires ValidRule(rule) && CanMoveAll(NewSite(threads), moves, rule)
    ensures var s := Run(NewSite(threads), moves, rule);
            s.counter == Calls(moves) && |s.emitted| + Pending(s.threads, rule, None) == Quota(Calls(moves), rule)
  {
    CounterIsCalls(NewSite(threads), moves, rule);
    var s := Run(NewSite(threads), moves, rule);
    NewSiteRuns(threads, moves, rule, None);
    ChosenBelowAll(s.counter, rule);
    AllOccur(s.emitted);
  }

  /** LOG_ONCE: once a call was made and all calls have finished, the one message is out. */
  lemma OnceIsOnce(threads: nat, moves: seq<Move>)
    requires CanMoveAll(NewSite(threads), moves, FirstN(1))
    requires var s := Run(NewSite(threads), moves, FirstN(1));
             Calls(moves) > 0 && forall t :: 0 <= t < |s.threads| ==> s.threads[t].Start?
    ensures Run(NewSite(threads), moves, FirstN(1)).emitted == [0]
  {
    var s := Run(NewSite(threads), moves, FirstN(1));
    LogsFillTheQuota(threads, moves, FirstN(1));
    NonePending(s.threads, FirstN(1), None);
    LogsAreTheChosen(threads, moves, FirstN(1), 0);
    NonePending(s.threads, FirstN(1), Some(0));
    assert s.emitted == [s.emitted[0]];
    assert Occurrences(Front(s.emitted), Some(0)) == 0;
  }
}
