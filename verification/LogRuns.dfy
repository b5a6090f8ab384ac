/** Whole runs of the log sink: which messages are still on disk, and how large the files are. */
module LogRuns {
  import opened Basics
  import opened LogNames
  import opened LogSink

  /** A message written on the day that names the file. */
  datatype Event = Event(today: string, msg: Bytes)

  function RunSink(cfg: Config, s: Sink, events: seq<Event>): (r: Sink)
    requires s.base in s.files
    ensures r.base in r.files
  {
    if events == [] then s
    else SinkIt(cfg, RunSink(cfg, s, Front(events)), Last(events).today, Last(events).msg)
  }

  /** The messages of one date, in order. */
  function MessagesOf(events: seq<Event>, date: string): seq<Bytes> {
    if events == [] then []
    else MessagesOf(Front(events), date) + if Last(events).today == date then [Last(events).msg] else []
  }

  function Flatten(msgs: seq<Bytes>): Bytes {
    if msgs == [] then [] else Flatten(Front(msgs)) + Last(msgs)
  }

  // What is kept of one date: chunks of messages, newest chunk first.

  function Keep(cfg: Config, chunks: seq<seq<Bytes>>, msg: Bytes): seq<seq<Bytes>> {
    if chunks == [] then [[msg]]
    else if |Flatten(chunks[0])| + |msg| > cfg.maxSize && |Flatten(chunks[0])| > 0 then
      [[msg]] + if |chunks| > cfg.maxFiles then chunks[..cfg.maxFiles] else chunks
    else [chunks[0] + [msg]] + chunks[1..]
  }

  function Kept(cfg: Config, start: seq<seq<Bytes>>, msgs: seq<Bytes>): seq<seq<Bytes>> {
    if msgs == [] then start else Keep(cfg, Kept(cfg, start, Front(msgs)), Last(msgs))
  }

  /** Oldest first. */
  function Messages(chunks: seq<seq<Bytes>>): seq<Bytes> {
    if chunks == [] then [] else Messages(chunks[1..]) + chunks[0]
  }

  predicate IsSuffix(xs: seq<Bytes>, ys: seq<Bytes>) {
    |xs| <= |ys| && ys[|ys| - |xs|..] == xs
  }

  /** The files of the date are exactly those of ages 0 .. |chunks| - 1, and hold the bytes of
      their chunks. */
  ghost predicate Shows(files: Files, date: string, chunks: seq<seq<Bytes>>) {
    forall i: nat :: File(files, CalcFilename(date, i)) == if i < |chunks| then Some(Flatten(chunks[i])) else None
  }

  /** The size counter is the length of the open file. */
  ghost predicate SizeTracked(s: Sink) {
    s.base in s.files && s.size == |s.files[s.base]|
  }

  /** One write keeps the counter right exactly if there is a backup file or the write does not
      rotate: otherwise the full file is opened again while the counter starts at the message. */
  lemma SizeStaysTrackedIff(cfg: Config, s: Sink, today: string, msg: Bytes)
    requires SizeTracked(s)
    ensures SizeTracked(SinkIt(cfg, s, today, msg)) <==>
            cfg.maxFiles >= 1 || !MustRotate(cfg, DateChecked(s, today), msg)
  {
    var c := DateChecked(s, today);
    if MustRotate(cfg, c, msg) {
      RotateEmptiesBaseIff(c.files, today, cfg.maxFiles);
    }
  }

  /** The counter is right at the start and after every write of the run. */
  ghost predicate AlwaysTracked(cfg: Config, s: Sink, events: seq<Event>)
    requires s.base in s.files
  {
    SizeTracked(RunSink(cfg, s, events)) && (events == [] || AlwaysTracked(cfg, s, Front(events)))
  }

  /** Every message of the run fits the file of its day, or finds it empty. */
  ghost predicate NeverRotates(cfg: Config, s: Sink, events: seq<Event>)
    requires s.base in s.files
  {
    events == [] ||
    (NeverRotates(cfg, s, Front(events)) &&
     !MustRotate(cfg, DateChecked(RunSink(cfg, s, Front(events)), Last(events).today), Last(events).msg))
  }

  /** The counter is right throughout a run if and only if there is a backup file or the run never
      rotates. */
  lemma {:induction false} AlwaysTrackedIff(cfg: Config, s: Sink, events: seq<Event>)
    requires SizeTracked(s)
    ensures AlwaysTracked(cfg, s, events) <==> cfg.maxFiles >= 1 || NeverRotates(cfg, s, events)
  {
    if events != [] {
      hide SinkIt, MustRotate, DateChecked, SizeTracked;
      AlwaysTrackedIff(cfg, s, Front(events));
      if AlwaysTracked(cfg, s, Front(events)) {
        TrackedAtEnd(cfg, s, Front(events));
        SizeStaysTrackedIff(cfg, RunSink(cfg, s, Front(events)), Last(events).today, Last(events).msg);
      }
    }
  }

  lemma TrackedAtEnd(cfg: Config, s: Sink, events: seq<Event>)
    requires s.base in s.files && AlwaysTracked(cfg, s, events)
    ensures SizeTracked(RunSink(cfg, s, events))
  {
  }

  /** With at least one backup file the counter is right after every write of every run. */
  lemma {:induction false} RunKeepsSize(cfg: Config, s: Sink, events: seq<Event>)
    requires SizeTracked(s) && cfg.maxFiles >= 1
    ensures SizeTracked(RunSink(cfg, s, events))
  {
    if events != [] {
      RunKeepsSize(cfg, s, Front(events));
      SizeStaysTrackedIff(cfg, RunSink(cfg, s, Front(events)), Last(events).today, Last(events).msg);
    }
  }

  /** A write touches no file of any other date. */
  lemma OtherDatesUntouched(cfg: Config, s: Sink, today: string, msg: Bytes, name: string)
    requires s.base in s.files
    requires forall i: nat :: name != CalcFilename(today, i)
    ensures File(SinkIt(cfg, s, today, msg).files, name) == File(s.files, name)
  {
    var c := DateChecked(s, today);
    RotateExact(c.files, today, cfg.maxFiles);
    assert name != CalcFilename(today, 0);
  }

  lemma ShowsOther(cfg: Config, s: Sink, today: string, msg: Bytes, date: string, chunks: seq<seq<Bytes>>)
    requires s.base in s.files && IsDateName(today) && IsDateName(date) && today != date
    requires Shows(s.files, date, chunks)
    ensures Shows(SinkIt(cfg, s, today, msg).files, date, chunks)
  {
    forall i: nat
      ensures File(SinkIt(cfg, s, today, msg).files, CalcFilename(date, i)) == File(s.files, CalcFilename(date, i))
    {
      forall j: nat ensures CalcFilename(date, i) != CalcFilename(today, j) {
        if CalcFilename(date, i) == CalcFilename(today, j) {
          FilenameInjective(date, i, today, j);
        }
      }
      OtherDatesUntouched(cfg, s, today, msg, CalcFilename(date, i));
    }
  }

  /** Opening the date's file: nothing, or an empty first chunk. */
  function OpenedChunks(chunks: seq<seq<Bytes>>): seq<seq<Bytes>> {
    if chunks == [] then [[]] else chunks
  }

  lemma OpenShows(s: Sink, date: string, chunks: seq<seq<Bytes>>)
    requires SizeTracked(s) && Shows(s.files, date, chunks)
    ensures var c := DateChecked(s, date); SizeTracked(c) && Shows(c.files, date, OpenedChunks(chunks))
  {
    assert File(s.files, CalcFilename(date, 0)) == if 0 < |chunks| then Some(Flatten(chunks[0])) else None;
    var c := DateChecked(s, date);
    forall i: nat ensures File(c.files, CalcFilename(date, i)) ==
                          if i < |OpenedChunks(chunks)| then Some(Flatten(OpenedChunks(chunks)[i])) else None
    {
      if CalcFilename(date, i) == CalcFilename(date, 0) {
        IndexInjective(date, i, 0);
      }
      assert File(s.files, CalcFilename(date, i)) == if i < |chunks| then Some(Flatten(chunks[i])) else None;
    }
  }

  lemma WriteShows(s: Sink, date: string, chunks: seq<seq<Bytes>>, msg: Bytes, size: nat)
    requires s.base == date && date in s.files && chunks != [] && Shows(s.files, date, chunks)
    ensures Shows(Written(s, msg, size).files, date, [chunks[0] + [msg]] + chunks[1..])
  {
    var after := [chunks[0] + [msg]] + chunks[1..];
    assert File(s.files, CalcFilename(date, 0)) == Some(Flatten(chunks[0]));
    assert Front(chunks[0] + [msg]) == chunks[0];
    forall i: nat ensures File(Written(s, msg, size).files, CalcFilename(date, i)) ==
                          if i < |after| then Some(Flatten(after[i])) else None
    {
      if CalcFilename(date, i) == CalcFilename(date, 0) {
        IndexInjective(date, i, 0);
      }
      assert File(s.files, CalcFilename(date, i)) == if i < |chunks| then Some(Flatten(chunks[i])) else None;
    }
  }

  lemma RotateShows(files: Files, date: string, chunks: seq<seq<Bytes>>, n: nat)
    requires n >= 1 && 1 <= |chunks| <= n + 1 && Shows(files, date, chunks)
    ensures Shows(Rotated(files, date, n), date, [[]] + if |chunks| > n then chunks[..n] else chunks)
  {
    var after := [[]] + if |chunks| > n then chunks[..n] else chunks;
    RotateExact(files, date, n);
    forall i: nat ensures File(Rotated(files, date, n), CalcFilename(date, i)) ==
                          if i < |after| then Some(Flatten(after[i])) else None
    {
      assert File(files, CalcFilename(date, i)) == if i < |chunks| then Some(Flatten(chunks[i])) else None;
      if CalcFilename(date, i) == date {
        IndexInjective(date, i, 0);
      }
      if 1 <= i <= n {
        assert File(files, CalcFilename(date, i - 1)) ==
               if i - 1 < |chunks| then Some(Flatten(chunks[i - 1])) else None;
      } else if i > n {
        forall j: nat | j <= n ensures CalcFilename(date, i) != CalcFilename(date, j) {
          if CalcFilename(date, i) == CalcFilename(date, j) {
            IndexInjective(date, i, j);
          }
        }
      }
    }
  }

  lemma RotatingSinkShows(cfg: Config, c: Sink, date: string, msg: Bytes, open: seq<seq<Bytes>>)
    requires cfg.maxFiles >= 1 && SizeTracked(c) && c.base == date && 1 <= |open| <= cfg.maxFiles + 1
    requires Shows(c.files, date, open) && |Flatten(open[0])| > 0
    ensures date in Rotated(c.files, date, cfg.maxFiles)
    ensures Shows(Written(c.(files := Rotated(c.files, date, cfg.maxFiles)), msg, |msg|).files, date,
                  [[msg]] + if |open| > cfg.maxFiles then open[..cfg.maxFiles] else open)
  {
    var rest := if |open| > cfg.maxFiles then open[..cfg.maxFiles] else open;
    RotateShows(c.files, date, open, cfg.maxFiles);
    WriteShows(c.(files := Rotated(c.files, date, cfg.maxFiles)), date, [[]] + rest, msg, |msg|);
    assert [([[]] + rest)[0] + [msg]] + ([[]] + rest)[1..] == [[msg]] + rest;
    hide Shows, ShiftDown;
  }

  /** One write of the date refines Keep. */
  lemma SinkShows(cfg: Config, s: Sink, date: string, msg: Bytes, chunks: seq<seq<Bytes>>)
    requires cfg.maxFiles >= 1 && SizeTracked(s) && |chunks| <= cfg.maxFiles + 1
    requires Shows(s.files, date, chunks)
    ensures Shows(SinkIt(cfg, s, date, msg).files, date, Keep(cfg, chunks, msg))
    ensures |Keep(cfg, chunks, msg)| <= cfg.maxFiles + 1
  {
    var c, open := DateChecked(s, date), OpenedChunks(chunks);
    OpenShows(s, date, chunks);
    FirstChunk(c.files, date, open);
    hide Shows, Rotated;
    if MustRotate(cfg, c, msg) {
      RotatingSinkShows(cfg, c, date, msg, open);
    } else {
      WriteShows(c, date, open, msg, c.size + |msg|);
      if chunks == [] {
        assert [open[0] + [msg]] + open[1..] == [[msg]];
      }
    }
  }

  lemma FirstChunk(files: Files, date: string, chunks: seq<seq<Bytes>>)
    requires Shows(files, date, chunks) && chunks != []
    ensures date in files && files[date] == Flatten(chunks[0])
  {
    assert File(files, CalcFilename(date, 0)) == Some(Flatten(chunks[0]));
  }

  /** The sink refines Kept, date by date: whatever was on disk of other dates, and however the
      dates of the messages interleave. */
  lemma {:induction false} RunShows(cfg: Config, s: Sink, events: seq<Event>, date: string, start: seq<seq<Bytes>>)
    requires cfg.maxFiles >= 1 && SizeTracked(s) && IsDateName(date) && |start| <= cfg.maxFiles + 1
    requires forall i :: 0 <= i < |events| ==> IsDateName(events[i].today)
    requires Shows(s.files, date, start)
    ensures Shows(RunSink(cfg, s, events).files, date, Kept(cfg, start, MessagesOf(events, date)))
    ensures |Kept(cfg, start, MessagesOf(events, date))| <= cfg.maxFiles + 1
  {
    if events != [] {
      var before, e := RunSink(cfg, s, Front(events)), Last(events);
      RunShows(cfg, s, Front(events), date, start);
      RunKeepsSize(cfg, s, Front(events));
      var chunks := Kept(cfg, start, MessagesOf(Front(events), date));
      if e.today == date {
        SinkShows(cfg, before, date, e.msg, chunks);
        assert Front(MessagesOf(events, date)) == MessagesOf(Front(events), date);
      } else {
        ShowsOther(cfg, before, e.today, e.msg, date, chunks);
        assert MessagesOf(events, date) == MessagesOf(Front(events), date);
      }
    }
  }

  // What Kept keeps.

  lemma {:induction false} MessagesTake(chunks: seq<seq<Bytes>>, n: nat)
    requires n <= |chunks|
    ensures IsSuffix(Messages(chunks[..n]), Messages(chunks))
    decreases n
  {
    if n > 0 {
      MessagesTake(chunks[1..], n - 1);
      assert chunks[..n][1..] == chunks[1..][..n - 1];
    }
  }

  lemma SuffixTrans(xs: seq<Bytes>, ys: seq<Bytes>, zs: seq<Bytes>)
    requires IsSuffix(xs, ys) && IsSuffix(ys, zs)
    ensures IsSuffix(xs, zs)
  {
  }

  lemma KeepSuffix(cfg: Config, chunks: seq<seq<Bytes>>, msg: Bytes)
    ensures IsSuffix(Messages(Keep(cfg, chunks, msg)), Messages(chunks) + [msg])
  {
    var after := Keep(cfg, chunks, msg);
    if chunks == [] {
      assert after[1..] == [];
    } else if |Flatten(chunks[0])| + |msg| > cfg.maxSize && |Flatten(chunks[0])| > 0 {
      var rest := if |chunks| > cfg.maxFiles then chunks[..cfg.maxFiles] else chunks;
      assert after[1..] == rest;
      if |chunks| > cfg.maxFiles {
        MessagesTake(chunks, cfg.maxFiles);
      }
    } else {
      assert after[1..] == chunks[1..];
      assert Messages(after) == Messages(chunks[1..]) + (chunks[0] + [msg]);
    }
  }

  lemma SuffixStep(xs: seq<Bytes>, ys: seq<Bytes>, zs: seq<Bytes>, msg: Bytes)
    requires IsSuffix(ys, zs) && IsSuffix(xs, ys + [msg])
    ensures IsSuffix(xs, zs + [msg])
  {
    assert (zs + [msg])[|zs| - |ys|..] == zs[|zs| - |ys|..] + [msg];
    SuffixTrans(xs, ys + [msg], zs + [msg]);
  }

  /** What is kept is a contiguous suffix of what was written: no message split, repeated or
      out of order. */
  lemma {:induction false} KeptIsSuffix(cfg: Config, start: seq<seq<Bytes>>, msgs: seq<Bytes>)
    ensures IsSuffix(Messages(Kept(cfg, start, msgs)), Messages(start) + msgs)
  {
    if msgs == [] {
      assert Messages(start) + msgs == Messages(start);
    } else {
      hide Messages, Keep, IsSuffix;
      var before, msg := Kept(cfg, start, Front(msgs)), Last(msgs);
      KeptIsSuffix(cfg, start, Front(msgs));
      KeepSuffix(cfg, before, msg);
      SuffixStep(Messages(Keep(cfg, before, msg)), Messages(before), Messages(start) + Front(msgs), msg);
      assert Messages(start) + Front(msgs) + [msg] == Messages(start) + msgs;
    }
  }

  /** Nothing is dropped before all maxFiles + 1 files are there. */
  lemma {:induction false} AllOrFull(cfg: Config, start: seq<seq<Bytes>>, msgs: seq<Bytes>)
    requires |Kept(cfg, start, msgs)| <= cfg.maxFiles
    ensures Messages(Kept(cfg, start, msgs)) == Messages(start) + msgs
  {
    if msgs == [] {
      assert Messages(start) + msgs == Messages(start);
    } else {
      var before, msg := Kept(cfg, start, Front(msgs)), Last(msgs);
      KeepAll(cfg, before, msg);
      hide Messages, Keep;
      AllOrFull(cfg, start, Front(msgs));
      assert Messages(start) + Front(msgs) + [msg] == Messages(start) + msgs;
    }
  }

  lemma KeepAll(cfg: Config, chunks: seq<seq<Bytes>>, msg: Bytes)
    requires |Keep(cfg, chunks, msg)| <= cfg.maxFiles
    ensures |chunks| <= cfg.maxFiles && Messages(Keep(cfg, chunks, msg)) == Messages(chunks) + [msg]
  {
    hide Flatten;
    var after := Keep(cfg, chunks, msg);
    if chunks == [] {
      assert after[1..] == [];
    } else if |after| > |chunks| {
      assert after[1..] == chunks;
    } else {
      assert after[1..] == chunks[1..];
      assert Messages(after) == Messages(chunks[1..]) + (chunks[0] + [msg]);
    }
  }

  /** Files are only closed when they must be: no older chunk is empty, and each together with the
      first message of the next newer one is larger than a file. */
  ghost predicate Tight(cfg: Config, chunks: seq<seq<Bytes>>) {
    forall i, j :: 0 <= i < j < |chunks| && j == i + 1 ==> HadToClose(cfg, chunks[i], chunks[j])
  }

  predicate HadToClose(cfg: Config, newer: seq<Bytes>, older: seq<Bytes>) {
    newer != [] && |Flatten(older)| > 0 && |Flatten(older)| + |newer[0]| > cfg.maxSize
  }

  lemma KeepIsTight(cfg: Config, chunks: seq<seq<Bytes>>, msg: Bytes)
    requires Tight(cfg, chunks)
    ensures Tight(cfg, Keep(cfg, chunks, msg))
  {
    hide Flatten;
    var after := Keep(cfg, chunks, msg);
    forall i, j | 0 <= i < j < |after| && j == i + 1 ensures HadToClose(cfg, after[i], after[j]) {
      if |Flatten(chunks[0])| + |msg| > cfg.maxSize && |Flatten(chunks[0])| > 0 {
        assert after[j] == chunks[i] && (i > 0 ==> after[i] == chunks[i - 1]);
      } else {
        assert HadToClose(cfg, chunks[i], chunks[j]);
      }
    }
  }

  lemma {:induction false} KeptIsTight(cfg: Config, start: seq<seq<Bytes>>, msgs: seq<Bytes>)
    requires Tight(cfg, start)
    ensures Tight(cfg, Kept(cfg, start, msgs))
  {
    if msgs != [] {
      hide Tight, Keep;
      KeptIsTight(cfg, start, Front(msgs));
      KeepIsTight(cfg, Kept(cfg, start, Front(msgs)), Last(msgs));
    }
  }

  /** The newest message is always kept. */
  lemma NewestIsKept(cfg: Config, start: seq<seq<Bytes>>, msgs: seq<Bytes>)
    requires msgs != []
    ensures Messages(Kept(cfg, start, msgs)) != [] && Last(Messages(Kept(cfg, start, msgs))) == Last(msgs)
  {
    KeepEndsWith(cfg, Kept(cfg, start, Front(msgs)), Last(msgs));
  }

  lemma KeepEndsWith(cfg: Config, chunks: seq<seq<Bytes>>, msg: Bytes)
    ensures Messages(Keep(cfg, chunks, msg)) != [] && Last(Messages(Keep(cfg, chunks, msg))) == msg
  {
    assert Last(Keep(cfg, chunks, msg)[0]) == msg;
  }

  /** A chunk fits, or its bytes are those of its one oversize message. */
  predicate FitsOrOversize(cfg: Config, chunk: seq<Bytes>) {
    |Flatten(chunk)| <= cfg.maxSize || (|Last(chunk)| > cfg.maxSize && Flatten(chunk) == Last(chunk))
  }

  lemma {:induction false} KeptSizes(cfg: Config, start: seq<seq<Bytes>>, msgs: seq<Bytes>)
    requires forall i :: 0 <= i < |start| ==> FitsOrOversize(cfg, start[i])
    ensures forall i :: 0 <= i < |Kept(cfg, start, msgs)| ==> FitsOrOversize(cfg, Kept(cfg, start, msgs)[i])
  {
    if msgs != [] {
      KeptSizes(cfg, start, Front(msgs));
      var chunks, msg := Kept(cfg, start, Front(msgs)), Last(msgs);
      assert Flatten([msg]) == msg by { assert Front([msg]) == []; }
      if chunks != [] {
        assert Front(chunks[0] + [msg]) == chunks[0] && Last(chunks[0] + [msg]) == msg;
      }
    }
  }

  lemma OneMoreTimes(n: nat, max: nat)
    requires n > 0
    ensures n * max == max + (n - 1) * max
  {
  }

  /** Every message of every kept chunk was written. */
  lemma {:induction false} LastWasWritten(chunks: seq<seq<Bytes>>, i: nat)
    requires i < |chunks| && chunks[i] != []
    ensures Last(chunks[i]) in Messages(chunks)
  {
    if i > 0 {
      LastWasWritten(chunks[1..], i - 1);
    }
  }

  /** The bytes of the files of a date, oldest file first. */
  function FileBytes(files: Files, date: string, count: nat): Bytes {
    if count == 0 then []
    else (var f := File(files, CalcFilename(date, count - 1)); if f.Some? then f.value else []) +
         FileBytes(files, date, count - 1)
  }

  lemma FlattenSnoc(msgs: seq<Bytes>, msg: Bytes)
    ensures Flatten(msgs + [msg]) == Flatten(msgs) + msg
  {
    assert Front(msgs + [msg]) == msgs && Last(msgs + [msg]) == msg;
  }

  lemma {:induction false} FlattenAppend(xs: seq<Bytes>, ys: seq<Bytes>)
    ensures Flatten(xs + ys) == Flatten(xs) + Flatten(ys)
    decreases |ys|
  {
    if ys == [] {
      assert xs + ys == xs;
    } else {
      var front, last := Front(ys), Last(ys);
      assert ys == front + [last] && xs + ys == (xs + front) + [last];
      hide Flatten;
      FlattenAppend(xs, front);
      FlattenSnoc(xs + front, last);
      FlattenSnoc(front, last);
      Associate(Flatten(xs), Flatten(front), last);
    }
  }

  lemma {:induction false} FilesHoldMessages(files: Files, date: string, chunks: seq<seq<Bytes>>)
    requires forall i :: 0 <= i < |chunks| ==> File(files, CalcFilename(date, i)) == Some(Flatten(chunks[i]))
    ensures FileBytes(files, date, |chunks|) == Flatten(Messages(chunks))
  {
    if chunks != [] {
      hide Flatten, Messages, CalcFilename, File;
      var front, last := Front(chunks), Last(chunks);
      assert forall i :: 0 <= i < |front| ==> front[i] == chunks[i];
      assert chunks == front + [last];
      FilesHoldMessages(files, date, front);
      MessagesSnoc(front, last);
      FlattenAppend(last, Messages(front));
      FileBytesOldest(files, date, |front|, Flatten(last));
    }
  }

  lemma FileBytesOldest(files: Files, date: string, n: nat, oldest: Bytes)
    requires File(files, CalcFilename(date, n)) == Some(oldest)
    ensures FileBytes(files, date, n + 1) == oldest + FileBytes(files, date, n)
  {
    hide CalcFilename, File;
  }

  lemma ShowsEach(files: Files, date: string, chunks: seq<seq<Bytes>>)
    requires Shows(files, date, chunks)
    ensures forall i :: 0 <= i < |chunks| ==> File(files, CalcFilename(date, i)) == Some(Flatten(chunks[i]))
  {
    hide Flatten, CalcFilename, File;
  }

  lemma {:induction false} MessagesSnoc(chunks: seq<seq<Bytes>>, oldest: seq<Bytes>)
    ensures Messages(chunks + [oldest]) == oldest + Messages(chunks)
  {
    if chunks == [] {
      assert (chunks + [oldest])[1..] == [];
    } else {
      var all, rest := chunks + [oldest], chunks[1..];
      assert all[0] == chunks[0] && all[1..] == rest + [oldest];
      MessagesSnoc(rest, oldest);
      assert Messages(all) == (oldest + Messages(rest)) + chunks[0];
    }
  }

  // Main results.

  /** The state after the constructor. */
  function Started(files: Files, base: string): (s: Sink)
    ensures s.base in s.files
  {
    Sink(Opened(files, base), base, |Opened(files, base)[base]|)
  }

  /** What the constructor leaves of a date that has no files. */
  function StartChunks(base: string, date: string): seq<seq<Bytes>> {
    if base == date then [[]] else []
  }

  lemma StartIsEmpty(base: string, date: string)
    ensures Messages(StartChunks(base, date)) == [] && |StartChunks(base, date)| <= 1
  {
    assert StartChunks(base, date) != [] ==> StartChunks(base, date)[1..] == [];
  }

  lemma StartShows(files: Files, base: string, date: string)
    requires IsDateName(base) && IsDateName(date)
    requires forall i: nat :: CalcFilename(date, i) !in files
    ensures SizeTracked(Started(files, base))
    ensures Shows(Started(files, base).files, date, StartChunks(base, date))
  {
    forall i: nat ensures File(Started(files, base).files, CalcFilename(date, i)) ==
                          if i < |StartChunks(base, date)| then Some(Flatten(StartChunks(base, date)[i])) else None
    {
      if CalcFilename(date, i) == CalcFilename(base, 0) {
        FilenameInjective(date, i, base, 0);
      }
    }
  }

  /** Retention over whole runs. Start the sink on any files but none of this date, and let it
      write any messages on any days. Then the files of this date have the ages 0 .. k - 1
      without gaps, k <= maxFiles + 1, and their bytes, oldest file first, are those of a
      contiguous suffix of the messages of this date, which ends with the newest; no file ends
      within a message. No message is dropped before there are maxFiles + 1 files, and each older
      file together with the first message of the next newer one is larger than maxSize. */
  lemma Retention(cfg: Config, files: Files, base: string, events: seq<Event>, date: string)
    requires cfg.maxFiles >= 1 && IsDateName(base) && IsDateName(date)
    requires forall i :: 0 <= i < |events| ==> IsDateName(events[i].today)
    requires forall i: nat :: CalcFilename(date, i) !in files
    ensures var chunks := Kept(cfg, StartChunks(base, date), MessagesOf(events, date));
            var after := RunSink(cfg, Started(files, base), events).files;
            |chunks| <= cfg.maxFiles + 1 && Shows(after, date, chunks) &&
            IsSuffix(Messages(chunks), MessagesOf(events, date)) &&
            FileBytes(after, date, |chunks|) == Flatten(Messages(chunks)) && Tight(cfg, chunks) &&
            (|chunks| <= cfg.maxFiles ==> Messages(chunks) == MessagesOf(events, date)) &&
            (MessagesOf(events, date) != [] ==>
               Messages(chunks) != [] && Last(Messages(chunks)) == Last(MessagesOf(events, date)))
  {
    hide *;
    var start, msgs := StartChunks(base, date), MessagesOf(events, date);
    StartShows(files, base, date);
    StartIsEmpty(base, date);
    RunShows(cfg, Started(files, base), events, date, start);
    KeptIsSuffix(cfg, start, msgs);
    assert Messages(start) + msgs == msgs;
    if |Kept(cfg, start, msgs)| <= cfg.maxFiles {
      AllOrFull(cfg, start, msgs);
    }
    assert Tight(cfg, start) by { StartIsTight(cfg, base, date); }
    KeptIsTight(cfg, start, msgs);
    var chunks := Kept(cfg, start, msgs);
    var after := RunSink(cfg, Started(files, base), events).files;
    ShowsEach(after, date, chunks);
    FilesHoldMessages(after, date, chunks);
    if msgs != [] {
      NewestIsKept(cfg, start, msgs);
    }
  }

  /** Sizes over whole runs: every file of the date has at most maxSize bytes or is one message
      larger than that; without such messages the date takes at most (maxFiles + 1) * maxSize. */
  lemma SizeBounds(cfg: Config, files: Files, base: string, events: seq<Event>, date: string)
    requires cfg.maxFiles >= 1 && IsDateName(base) && IsDateName(date)
    requires forall i :: 0 <= i < |events| ==> IsDateName(events[i].today)
    requires forall i: nat :: CalcFilename(date, i) !in files
    ensures var after, msgs := RunSink(cfg, Started(files, base), events).files, MessagesOf(events, date);
            (forall i: nat :: CalcFilename(date, i) in after ==>
               |after[CalcFilename(date, i)]| <= cfg.maxSize ||
               (after[CalcFilename(date, i)] in msgs && |after[CalcFilename(date, i)]| > cfg.maxSize)) &&
            ((forall m :: m in msgs ==> |m| <= cfg.maxSize) ==>
               |FileBytes(after, date, cfg.maxFiles + 1)| <= (cfg.maxFiles + 1) * cfg.maxSize)
  {
    var start, msgs := StartChunks(base, date), MessagesOf(events, date);
    var chunks, after := Kept(cfg, start, msgs), RunSink(cfg, Started(files, base), events).files;
    Retention(cfg, files, base, events, date);
    StartFits(cfg, base, date);
    KeptSizes(cfg, start, msgs);
    hide RunSink, Kept, Started, StartChunks, MessagesOf, IsDateName;
    FilesFit(cfg, after, date, chunks, msgs);
  }

  lemma StartIsTight(cfg: Config, base: string, date: string)
    ensures Tight(cfg, StartChunks(base, date))
  {
  }

  lemma StartFits(cfg: Config, base: string, date: string)
    ensures forall i :: 0 <= i < |StartChunks(base, date)| ==> FitsOrOversize(cfg, StartChunks(base, date)[i])
  {
  }

  lemma FilesFit(cfg: Config, after: Files, date: string, chunks: seq<seq<Bytes>>, msgs: seq<Bytes>)
    requires |chunks| <= cfg.maxFiles + 1 && Shows(after, date, chunks) && IsSuffix(Messages(chunks), msgs)
    requires forall i :: 0 <= i < |chunks| ==> FitsOrOversize(cfg, chunks[i])
    ensures forall i: nat :: CalcFilename(date, i) in after ==>
              |after[CalcFilename(date, i)]| <= cfg.maxSize ||
              (after[CalcFilename(date, i)] in msgs && |after[CalcFilename(date, i)]| > cfg.maxSize)
    ensures (forall m :: m in msgs ==> |m| <= cfg.maxSize) ==>
              |FileBytes(after, date, cfg.maxFiles + 1)| <= (cfg.maxFiles + 1) * cfg.maxSize
  {
    forall i: nat | CalcFilename(date, i) in after
      ensures |after[CalcFilename(date, i)]| <= cfg.maxSize ||
              (after[CalcFilename(date, i)] in msgs && |after[CalcFilename(date, i)]| > cfg.maxSize)
    {
      ChunkIsFile(after, date, chunks, i);
      if |Flatten(chunks[i])| > cfg.maxSize {
        OversizeWasWritten(chunks, msgs, i);
      }
    }
    hide Shows, FitsOrOversize, Flatten, Messages, IsSuffix;
    if forall m :: m in msgs ==> |m| <= cfg.maxSize {
      FilesAreSmall(after, date, cfg.maxFiles + 1, cfg.maxSize);
    }
  }

  lemma ChunkIsFile(files: Files, date: string, chunks: seq<seq<Bytes>>, i: nat)
    requires Shows(files, date, chunks) && CalcFilename(date, i) in files
    ensures i < |chunks| && files[CalcFilename(date, i)] == Flatten(chunks[i])
  {
    assert File(files, CalcFilename(date, i)) == if i < |chunks| then Some(Flatten(chunks[i])) else None;
  }

  lemma OversizeWasWritten(chunks: seq<seq<Bytes>>, msgs: seq<Bytes>, i: nat)
    requires i < |chunks| && chunks[i] != [] && IsSuffix(Messages(chunks), msgs)
    ensures Last(chunks[i]) in msgs
  {
    LastWasWritten(chunks, i);
    var k :| 0 <= k < |Messages(chunks)| && Messages(chunks)[k] == Last(chunks[i]);
    assert msgs[|msgs| - |Messages(chunks)| + k] == Last(chunks[i]);
  }

  lemma {:induction false} FilesAreSmall(files: Files, date: string, count: nat, max: nat)
    requires forall i: nat :: CalcFilename(date, i) in files ==> |files[CalcFilename(date, i)]| <= max
    ensures |FileBytes(files, date, count)| <= count * max
  {
    if count > 0 {
      FilesAreSmall(files, date, count - 1, max);
      OneMoreTimes(count, max);
    }
  }
}
