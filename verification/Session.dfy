/** One gateway session, src/core/gateway.cpp:13-104: a single-writer send queue and a read
    loop. Its handlers run one at a time, which holds for one worker thread. */
module Session {
  import opened Basics
  import opened Framing

  /** `wire` are the bytes written so far, `posted` the messages of all posted sends. */
  datatype Writer = Writer(
    queue: seq<Bytes>,
    inProgress: bool,
    inFlight: Option<Bytes>,
    wire: Bytes,
    posted: seq<Bytes>,
    failed: bool)

  const NEW_WRITER := Writer([], false, None, [], [], false)

  function DoWrite(w: Writer): Writer {
    if w.queue == [] then w.(inProgress := false, inFlight := None)
    else w.(inFlight := Some(Frame(w.queue[0])), queue := w.queue[1..])
  }

  /** The posted handler of Send. */
  function OnSend(w: Writer, msg: Bytes): Writer {
    var w' := w.(queue := w.queue + [msg], posted := w.posted + [msg]);
    if w.inProgress then w' else DoWrite(w'.(inProgress := true))
  }

  /** The write handler without an error. */
  function OnWritten(w: Writer): Writer
    requires w.inFlight.Some?
  {
    DoWrite(w.(wire := w.wire + w.inFlight.value, inFlight := None))
  }

  /** The write handler with an error after `sent` bytes of the frame got out. */
  function OnFailed(w: Writer, sent: nat): Writer
    requires w.inFlight.Some? && sent <= |w.inFlight.value|
  {
    w.(wire := w.wire + w.inFlight.value[..sent], inFlight := None, failed := true)
  }

  datatype Event = Send(msg: Bytes) | Written | Failed(sent: nat)

  predicate CanHandle(w: Writer, e: Event) {
    match e
    case Send(_) => true
    case Written => w.inFlight.Some?
    case Failed(sent) => w.inFlight.Some? && sent <= |w.inFlight.value|
  }

  function Handle(w: Writer, e: Event): Writer
    requires CanHandle(w, e)
  {
    match e
    case Send(msg) => OnSend(w, msg)
    case Written => OnWritten(w)
    case Failed(sent) => OnFailed(w, sent)
  }

  predicate CanHandleAll(w: Writer, events: seq<Event>)
    decreases |events|
  {
    events == [] || (CanHandle(w, events[0]) && CanHandleAll(Handle(w, events[0]), events[1..]))
  }

  function HandleAll(w: Writer, events: seq<Event>): Writer
    requires CanHandleAll(w, events)
    decreases |events|
  {
    if events == [] then w else HandleAll(Handle(w, events[0]), events[1..])
  }

  function InFlight(w: Writer): Bytes {
    if w.inFlight.Some? then w.inFlight.value else []
  }

  /** The frame in flight follows the wire; without an error everything posted is on the wire,
      in flight or queued, and the queue only waits behind a write; after one no write starts. */
  ghost predicate WriterInv(w: Writer) {
    w.wire + InFlight(w) <= Frames(w.posted) &&
    (if w.failed then w.inProgress && w.inFlight.None?
     else w.wire + InFlight(w) + Frames(w.queue) == Frames(w.posted) && (w.inProgress <==> w.inFlight.Some?) &&
          (w.queue != [] ==> w.inProgress))
  }

  lemma {:induction false} FramesAppend(xs: seq<Bytes>, ys: seq<Bytes>)
    ensures Frames(xs + ys) == Frames(xs) + Frames(ys)
    decreases |xs|
  {
    if xs == [] {
      assert xs + ys == ys;
    } else {
      assert (xs + ys)[0] == xs[0] && (xs + ys)[1..] == xs[1..] + ys;
      FramesAppend(xs[1..], ys);
    }
  }

  /** DoWrite moves the first queued frame into flight. */
  lemma DoWriteKeeps(w: Writer)
    requires !w.failed && w.inProgress && w.inFlight.None? && w.wire + Frames(w.queue) == Frames(w.posted)
    ensures WriterInv(DoWrite(w))
  {
    var w' := DoWrite(w);
    if w.queue == [] {
      assert w'.wire + InFlight(w') + Frames(w'.queue) == w.wire + Frames(w.queue);
    } else {
      assert w'.wire + InFlight(w') + Frames(w'.queue) == w.wire + (Frame(w.queue[0]) + Frames(w.queue[1..]));
    }
  }

  /** A message posted behind a write in progress joins the queue. */
  lemma QueueKeeps(w: Writer, w': Writer, msg: Bytes)
    requires WriterInv(w) && w.inProgress && !w.failed
    requires w' == w.(queue := w.queue + [msg], posted := w.posted + [msg])
    ensures WriterInv(w')
  {
    hide Frames, Frame;
    FramesAppend(w.posted, [msg]);
    FramesAppend(w.queue, [msg]);
    assert w'.wire + InFlight(w') + Frames(w'.queue) == w.wire + InFlight(w) + Frames(w.queue) + Frames([msg]);
  }

  lemma SendKeeps(w: Writer, msg: Bytes)
    requires WriterInv(w)
    ensures WriterInv(OnSend(w, msg))
  {
    hide Frames, Frame;
    if w.failed {
      FramesAppend(w.posted, [msg]);
    } else if w.inProgress {
      QueueKeeps(w, OnSend(w, msg), msg);
    } else {
      FramesAppend(w.posted, [msg]);
      var w' := w.(queue := w.queue + [msg], posted := w.posted + [msg], inProgress := true);
      assert w.wire + [] + Frames([]) + Frames([msg]) == w'.wire + Frames(w'.queue) by { FramesAppend([], [msg]); }
      DoWriteKeeps(w');
    }
  }

  lemma HandleKeeps(w: Writer, e: Event)
    requires WriterInv(w) && CanHandle(w, e)
    ensures WriterInv(Handle(w, e))
  {
    match e {
      case Send(msg) => SendKeeps(w, msg);
      case Written => DoWriteKeeps(w.(wire := w.wire + w.inFlight.value, inFlight := None));
      case Failed(sent) =>
        var f := w.inFlight.value;
        assert w.wire + f[..sent] + [] <= w.wire + f;
    }
  }

  lemma {:induction false} HandleAllKeeps(w: Writer, events: seq<Event>)
    requires WriterInv(w) && CanHandleAll(w, events)
    ensures WriterInv(HandleAll(w, events))
    decreases |events|
  {
    if events != [] {
      HandleKeeps(w, events[0]);
      HandleAllKeeps(Handle(w, events[0]), events[1..]);
    }
  }

  /** The messages of the sends, told from the events alone. */
  function Sent(events: seq<Event>): seq<Bytes> {
    if events == [] then [] else (if events[0].Send? then [events[0].msg] else []) + Sent(events[1..])
  }

  lemma {:induction false} PostedIsSent(w: Writer, events: seq<Event>)
    requires CanHandleAll(w, events)
    ensures HandleAll(w, events).posted == w.posted + Sent(events)
    decreases |events|
  {
    if events != [] {
      PostedIsSent(Handle(w, events[0]), events[1..]);
    }
  }

  /** In every run the writer has taken over exactly the messages sent, in order. */
  lemma TakesOverAll(events: seq<Event>)
    requires CanHandleAll(NEW_WRITER, events)
    ensures HandleAll(NEW_WRITER, events).posted == Sent(events)
  {
    PostedIsSent(NEW_WRITER, events);
    assert [] + Sent(events) == Sent(events);
  }

  /** A run with an error. */
  predicate HasFailed(events: seq<Event>) {
    exists i :: 0 <= i < |events| && events[i].Failed?
  }

  lemma {:induction false} FailedIffError(w: Writer, events: seq<Event>)
    requires CanHandleAll(w, events)
    ensures HandleAll(w, events).failed <==> w.failed || HasFailed(events)
    decreases |events|
  {
    if events != [] {
      FailedIffError(Handle(w, events[0]), events[1..]);
      if i :| 0 <= i < |events| && events[i].Failed? {
        assert i > 0 ==> events[1..][i - 1].Failed?;
      }
    }
  }

  /** Conservation in every run without an error: bytes on the wire, the frame in flight and
      the queued frames are the frames of all messages sent, in order; a nonempty queue waits
      behind a write in progress. */
  lemma NothingIsLost(events: seq<Event>)
    requires CanHandleAll(NEW_WRITER, events) && !HasFailed(events)
    ensures var w := HandleAll(NEW_WRITER, events);
            w.wire + InFlight(w) + Frames(w.queue) == Frames(Sent(events)) &&
            (w.queue != [] ==> w.inProgress) && (w.inProgress <==> w.inFlight.Some?)
  {
    HandleAllKeeps(NEW_WRITER, events);
    TakesOverAll(events);
    FailedIffError(NEW_WRITER, events);
  }

  function Completions(events: seq<Event>): nat {
    if events == [] then 0 else (if events[0].Written? then 1 else 0) + Completions(events[1..])
  }

  /** n messages are on the wire, the next one is in flight, the others wait. */
  ghost predicate Progress(w: Writer, n: nat) {
    !w.failed && n <= |w.posted| && w.wire == Frames(w.posted[..n]) && (w.inProgress <==> w.inFlight.Some?) &&
    if w.inFlight.Some? then n < |w.posted| && w.inFlight.value == Frame(w.posted[n]) && w.queue == w.posted[n + 1..]
    else n == |w.posted| && w.queue == []
  }

  lemma DoWriteProgress(w: Writer, n: nat)
    requires !w.failed && n <= |w.posted| && w.wire == Frames(w.posted[..n]) && w.queue == w.posted[n..]
    requires w.inProgress && w.inFlight.None?
    ensures Progress(DoWrite(w), n)
  {
    hide Frames, Frame;
    if w.queue != [] {
      assert w.queue[0] == w.posted[n] && w.queue[1..] == w.posted[n + 1..];
    }
  }

  lemma SendProgress(w: Writer, msg: Bytes, n: nat)
    requires Progress(w, n)
    ensures Progress(OnSend(w, msg), n)
  {
    hide Frames, Frame;
    var w' := w.(queue := w.queue + [msg], posted := w.posted + [msg]);
    assert w'.posted[..n] == w.posted[..n];
    if w.inProgress {
      assert w'.posted[n] == w.posted[n] && w'.posted[n + 1..] == w.posted[n + 1..] + [msg];
    } else {
      assert w'.queue == w'.posted[n..];
      DoWriteProgress(w'.(inProgress := true), n);
    }
  }

  lemma WrittenProgress(w: Writer, n: nat)
    requires Progress(w, n) && w.inFlight.Some?
    ensures Progress(OnWritten(w), n + 1)
  {
    hide Frame, Frames;
    assert w.posted[..n + 1] == w.posted[..n] + [w.posted[n]];
    FramesAppend(w.posted[..n], [w.posted[n]]);
    FramesOne(w.posted[n]);
    DoWriteProgress(w.(wire := w.wire + w.inFlight.value, inFlight := None), n + 1);
  }

  lemma FramesOne(msg: Bytes)
    ensures Frames([msg]) == Frame(msg)
  {
    assert [msg][1..] == [] && Frames([]) == [];
  }

  lemma {:induction false} EventsProgress(w: Writer, events: seq<Event>, n: nat)
    requires CanHandleAll(w, events) && Progress(w, n) && !HasFailed(events)
    ensures Progress(HandleAll(w, events), n + Completions(events))
    decreases |events|
  {
    if events != [] {
      var rest := events[1..];
      assert !events[0].Failed?;
      assert !HasFailed(rest) by {
        if i :| 0 <= i < |rest| && rest[i].Failed? {
          assert events[i + 1].Failed?;
        }
      }
      hide Progress, HasFailed;
      if events[0].Send? {
        SendProgress(w, events[0].msg, n);
        EventsProgress(Handle(w, events[0]), rest, n);
      } else {
        WrittenProgress(w, n);
        EventsProgress(Handle(w, events[0]), rest, n + 1);
      }
    }
  }

  /** One frame at a time: in every run without an error each completed write has put the frame of
      one message on the wire, in order, and at most the next one is in flight. */
  lemma OneFrameAtATime(events: seq<Event>)
    requires CanHandleAll(NEW_WRITER, events) && !HasFailed(events)
    ensures var w, n := HandleAll(NEW_WRITER, events), Completions(events);
            n <= |Sent(events)| && w.wire == Frames(Sent(events)[..n]) &&
            (if w.inFlight.Some? then n < |Sent(events)| && w.inFlight.value == Frame(Sent(events)[n])
             else n == |Sent(events)|)
  {
    assert Frames([]) == [];
    EventsProgress(NEW_WRITER, events, 0);
    TakesOverAll(events);
  }

  /** After a write error nothing is ever put in flight or on the wire again. */
  lemma {:induction false} SilentAfterError(w: Writer, events: seq<Event>)
    requires WriterInv(w) && w.failed && CanHandleAll(w, events)
    ensures var w' := HandleAll(w, events); w'.failed && w'.inFlight.None? && w'.wire == w.wire
    decreases |events|
  {
    if events != [] {
      HandleKeeps(w, events[0]);
      SilentAfterError(Handle(w, events[0]), events[1..]);
    }
  }

  /** End to end: whatever a session has written, split into any chunks, its peer delivers a
      beginning of the messages sent, and all of them once the writer is idle again without
      an error; the peer never closes. */
  lemma PeerReceivesInOrder(events: seq<Event>, chunks: seq<Bytes>)
    requires CanHandleAll(NEW_WRITER, events)
    requires Concat(chunks) == HandleAll(NEW_WRITER, events).wire
    requires forall m :: m in Sent(events) ==> Sendable(m)
    ensures var w, r := HandleAll(NEW_WRITER, events), FeedChunks(NEW_READER, chunks);
            r.delivered <= Sent(events) && !r.phase.Closed? &&
            (!HasFailed(events) && !w.inProgress ==> r.delivered == Sent(events))
  {
    var w := HandleAll(NEW_WRITER, events);
    HandleAllKeeps(NEW_WRITER, events);
    TakesOverAll(events);
    FailedIffError(NEW_WRITER, events);
    ChunksDoNotMatter(chunks);
    hide HandleAll, CanHandleAll, Sent;
    assert w.wire <= w.wire + InFlight(w);
    BeginningReadBack(w.wire, w.posted);
    if !w.failed && !w.inProgress {
      assert w.wire + [] + Frames([]) == w.wire;
      FramesReadBack(w.posted);
    }
  }

  // The imperative form.

  class GatewaySession {
    var length: U32
    var header: Bytes
    var inBody: bool
    var bodyBuf: Bytes
    var open: bool
    var sendQueue: seq<Bytes>
    var sendInProgress: bool
    var flying: Option<Bytes>
    ghost var delivered: seq<Bytes>
    ghost var wire: Bytes
    ghost var posted: seq<Bytes>
    ghost var failed: bool

    ghost function WriterState(): Writer
      reads this
    {
      Writer(sendQueue, sendInProgress, flying, wire, posted, failed)
    }

    ghost function ReaderState(): Reader
      reads this
    {
      Reader(if !open then Closed else if inBody then Body(length, bodyBuf) else Header(header), delivered)
    }

    constructor ()
      ensures WriterState() == NEW_WRITER && ReaderState() == NEW_READER
    {
      length, header, inBody, bodyBuf, open := 0, [], false, [], true;
      sendQueue, sendInProgress, flying := [], false, None;
      delivered, wire, posted, failed := [], [], [], false;
    }

    method StartWrite()
      modifies this`sendQueue, this`sendInProgress, this`flying
      ensures WriterState() == DoWrite(old(WriterState()))
    {
      if sendQueue == [] {
        sendInProgress := false;
        flying := None;
        return;
      }
      var msg := sendQueue[0];
      sendQueue := sendQueue[1..];
      flying := Some(Encode(|msg| % TWO_TO_32) + msg);
    }

    method PostedSend(msg: Bytes)
      modifies this`sendQueue, this`sendInProgress, this`flying, this`posted
      ensures WriterState() == OnSend(old(WriterState()), msg)
    {
      sendQueue := sendQueue + [msg];
      posted := posted + [msg];
      if !sendInProgress {
        sendInProgress := true;
        StartWrite();
      }
    }

    method WriteDone()
      requires flying.Some?
      modifies this`sendQueue, this`sendInProgress, this`flying, this`wire
      ensures WriterState() == OnWritten(old(WriterState()))
    {
      wire := wire + flying.value;
      flying := None;
      StartWrite();
    }

    /** A write that failed after `sent` bytes only closes the session: sendInProgress stays set,
        so no later send starts a write. */
    method WriteFailed(ghost sent: nat)
      requires flying.Some? && sent <= |flying.value|
      modifies this`flying, this`wire, this`failed
      ensures WriterState() == OnFailed(old(WriterState()), sent)
    {
      wire := wire + flying.value[..sent];
      flying := None;
      failed := true;
    }

    /** Bytes arrive: async_read fills the header or the body and calls its handler when full,
        which starts the other read, until the bytes are used up or the session is closed. */
    method Receive(chunk: Bytes)
      requires ReaderInv(ReaderState())
      modifies this`length, this`header, this`inBody, this`bodyBuf, this`open, this`delivered
      ensures ReaderState() == Feed(old(ReaderState()), chunk)
    {
      ghost var start := ReaderState();
      var i := 0;
      assert chunk[..0] == [];
      while i < |chunk| && open
        invariant 0 <= i <= |chunk| && ReaderInv(ReaderState())
        invariant ReaderState() == Feed(start, chunk[..i])
        decreases |chunk| - i
      {
        ghost var before := ReaderState();
        var wanted := if inBody then length - |bodyBuf| else 4 - |header|;
        var n := if wanted < |chunk| - i then wanted else |chunk| - i;
        var part := chunk[i..i + n];
        assert chunk[..i + n] == chunk[..i] + part;
        FeedAppend(start, chunk[..i], part);
        if inBody {
          FeedBody(before, part);
          bodyBuf := bodyBuf + part;
          if |bodyBuf| == length {
            delivered := delivered + [bodyBuf];
            inBody := false;
            header := [];
          }
        } else {
          FeedHeader(before, part);
          header := header + part;
          if |header| == 4 {
            length := Decode(header);
            if length < 4 {
              open := false;
            } else {
              inBody := true;
              bodyBuf := [];
            }
          }
        }
        assert ReaderState() == Feed(before, part);
        i := i + n;
      }
      assert chunk == chunk[..i] + chunk[i..];
      FeedAppend(start, chunk[..i], chunk[i..]);
      if !open {
        FeedClosed(ReaderState(), chunk[i..]);
      }
    }
  }

  /** OnReceive: a message is handed to the handler of its type. */
  function TypeOf(msg: Bytes): U32
    requires |msg| >= 4
  {
    Decode(msg[..4])
  }

  /** The type is the number in the first four bytes, in the byte order of the lengths. */
  lemma TypeIsInFront(n: U32, rest: Bytes)
    ensures TypeOf(Encode(n) + rest) == n
  {
    DecodeEncode(n);
    assert (Encode(n) + rest)[..4] == Encode(n);
  }

  type Handler = nat

  /** A call of a registered function with its arguments. */
  datatype HandlerCall = HandlerCall(handler: Handler, sessionId: nat, playerId: nat, msg: Bytes)

  class Dispatcher {
    var handlers: map<U32, Handler>
    ghost var calls: seq<HandlerCall>

    constructor ()
      ensures handlers == map[] && calls == []
    {
      handlers, calls := map[], [];
    }

    /** A later registration replaces an earlier one of the same type. */
    method RegisterHandler(msgType: U32, handler: Handler)
      modifies this`handlers
      ensures handlers == old(handlers)[msgType := handler]
    {
      handlers := handlers[msgType := handler];
    }

    method OnReceive(sessionId: nat, playerId: nat, msg: Bytes)
      modifies this`calls
      ensures |msg| < 4 || TypeOf(msg) !in handlers ==> calls == old(calls)
      ensures |msg| >= 4 && TypeOf(msg) in handlers ==>
                calls == old(calls) + [HandlerCall(handlers[TypeOf(msg)], sessionId, playerId, msg)]
    {
      if |msg| < 4 {
        return;
      }
      var msgType := Decode(msg[..4]);
      if msgType !in handlers {
        return;
      }
      var handler := handlers[msgType];
      calls := calls + [HandlerCall(handler, sessionId, playerId, msg)];
    }
  }
}
