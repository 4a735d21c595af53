/** One bidirectional stream as the host sees it: `StreamController` in `src/streams.ts`. */
module Streams {
  import opened Base
  import opened Errors
  import opened AsyncKernel
  import opened MessageQueues

  datatype Stream<T> = Stream(
    settlement: Option<Option<IrohError>>,
    chunks: Queue<T, IrohError>,
    released: nat,   // native closeStream calls
    disposed: nat)   // onDispose calls

  /** Native callbacks and host calls, each one run-to-completion step. */
  datatype StreamEvent<T> =
    | OnData(chunk: T)
    | OnClose(error: Option<IrohError>)
    | LocalClose
    | NextChunk
    | BreakLoop

  function Subscribe<T>(capacity: Option<int>): Stream<T>
  {
    Stream(None, Create(capacity), 0, 0)
  }

  function OverflowError(dropped: nat): IrohError
  {
    IrohError(5006, "stream consumer fell behind; " + Decimal(dropped) + " chunks dropped")
  }

  function Finished<T>(s: Stream<T>, error: Option<IrohError>): (Stream<T>, seq<Effect<T, IrohError>>)
  {
    if s.settlement.Some? then (s, [])
    else
      var (chunks, out) := Closed(s.chunks, error);
      (Stream(Some(error), chunks, s.released + 1, s.disposed + 1), out)
  }

  /** A chunk arrives. When the queue reports a lag, the stream fails in the same step. */
  function Received<T>(s: Stream<T>, chunk: T): (Stream<T>, seq<Effect<T, IrohError>>)
  {
    var (chunks, out) := Pushed(s.chunks, chunk);
    if chunks.dropped == s.chunks.dropped then (s.(chunks := chunks), out)
    else
      var (s', more) := Finished(s.(chunks := chunks), Some(OverflowError(chunks.dropped)));
      (s', out + more)
  }

  function StreamStep<T>(s: Stream<T>, event: StreamEvent<T>): (Stream<T>, seq<Effect<T, IrohError>>)
  {
    match event
    case OnData(chunk) => Received(s, chunk)
    case OnClose(error) => Finished(s, error)
    case LocalClose => Finished(s, None)
    case NextChunk => var (chunks, out) := Nexted(s.chunks); (s.(chunks := chunks), out)
    case BreakLoop => var (chunks, out) := Closed(s.chunks, None); (s.(chunks := chunks), out)
  }

  function StreamRun<T>(capacity: Option<int>, events: seq<StreamEvent<T>>): (Stream<T>, seq<Effect<T, IrohError>>)
  {
    if events == [] then (Subscribe(capacity), [])
    else
      var (before, out) := StreamRun(capacity, events[..|events| - 1]);
      var (after, more) := StreamStep(before, events[|events| - 1]);
      (after, out + more)
  }

  function ChunkOf<T>(event: StreamEvent<T>): seq<T>
  {
    if event.OnData? then [event.chunk] else []
  }

  /** Every chunk native code delivered in a run, in order. */
  function Chunks<T>(events: seq<StreamEvent<T>>): seq<T> { FlatMap(ChunkOf, events) }

  function LossOf<T>(e: Effect<T, IrohError>): seq<T>
  {
    if e.Discard? then [e.value] else []
  }

  /** The chunks that were received and then thrown away. */
  function Lost<T>(out: seq<Effect<T, IrohError>>): seq<T> { FlatMap(LossOf, out) }

  /** No hole: the received chunks are the delivered ones, then the lost ones, then the buffered
      ones, and nothing is lost while the queue is open. */
  ghost predicate NoHole<T(!new)>(q: Queue<T, IrohError>, received: seq<T>, out: seq<Effect<T, IrohError>>)
  {
    && received == Delivered(out) + Lost(out) + q.buffer
    && (!IsClosed(q) ==> Lost(out) == [])
  }

  /** The native side is released, and the owner told, once and exactly when the stream settles. */
  ghost predicate ReleasedOnce<T>(s: Stream<T>)
  {
    && (s.settlement.Some? ==> IsClosed(s.chunks))
    && s.released == (if s.settlement.Some? then 1 else 0)
    && s.disposed == s.released
  }

  ghost predicate StreamInv<T(!new)>(s: Stream<T>, received: seq<T>, out: seq<Effect<T, IrohError>>)
  {
    && QueueInv(s.chunks, received, 0, out)
    && NoHole(s.chunks, received, out)
    && ReleasedOnce(s)
  }

  lemma {:induction false} NoLossRemoves<T>(out: seq<Effect<T, IrohError>>)
    ensures Lost(out) == [] ==> Removed(out) == Delivered(out)
    ensures Delivered(out) == [] ==> Removed(out) == Lost(out)
  {
    if out != [] {
      NoLossRemoves(out[..|out| - 1]);
    }
  }

  lemma ProjectLoss<T>(out: seq<Effect<T, IrohError>>, more: seq<Effect<T, IrohError>>)
    ensures Lost(out + more) == Lost(out) + Lost(more)
  {
    FlatMapAppend(LossOf, out, more);
  }

  /** Closing an open queue adds its buffer to the losses and settles nothing with a value. */
  lemma ClosingLosesTheBuffer<T(!new)>(q: Queue<T, IrohError>, error: Option<IrohError>)
    requires !IsClosed(q)
    ensures Delivered(Closed(q, error).1) == [] && Lost(Closed(q, error).1) == q.buffer
  {
    var gone := Discards<T, IrohError>(q.buffer);
    var ends := Terminated<T, IrohError>(q.consumers, error).1;
    EndAllShape<T, IrohError>(q.consumers.waiters, error, q.consumers.errorDelivered);
    EndingsRemoveNothing<T, IrohError>(q.consumers.waiters, error, q.consumers.errorDelivered);
    DiscardsRemove<T, IrohError>(q.buffer);
    DiscardsDeliverNothing(q.buffer);
    Project(gone, ends);
    ProjectRemovals(gone, ends);
    NoLossRemoves(gone + ends);
  }

  lemma {:induction false} DiscardsDeliverNothing<T>(values: seq<T>)
    ensures Delivered(Discards<T, IrohError>(values)) == []
  {
    if values != [] {
      var init := values[..|values| - 1];
      var last: Effect<T, IrohError> := Discard(values[|values| - 1], AtClose);
      DiscardsDeliverNothing(init);
      assert Discards<T, IrohError>(values) == Discards<T, IrohError>(init) + [last];
      Project(Discards<T, IrohError>(init), [last]);
      ProjectOne(last);
    }
  }

  lemma CloseKeepsNoHole<T(!new)>(q: Queue<T, IrohError>, error: Option<IrohError>, received: seq<T>, out: seq<Effect<T, IrohError>>)
    requires NoHole(q, received, out)
    ensures NoHole(Closed(q, error).0, received, out + Closed(q, error).1)
  {
    var more := Closed(q, error).1;
    if IsClosed(q) {
      assert out + more == out;
    } else {
      ClosingLosesTheBuffer(q, error);
      Project(out, more);
      ProjectLoss(out, more);
    }
  }

  lemma EffectLoss<T>(e: Effect<T, IrohError>)
    ensures Lost([e]) == LossOf(e)
  {
    FlatMapOne(LossOf, e);
  }

  /** A push that evicts nothing. */
  lemma PushKeepsNoHole<T(!new)>(q: Queue<T, IrohError>, chunk: T, received: seq<T>, out: seq<Effect<T, IrohError>>)
    requires NoHole(q, received, out) && Pushed(q, chunk).0.dropped == q.dropped
    requires q.consumers.waiters != [] ==> q.buffer == []
    ensures NoHole(Pushed(q, chunk).0, if IsClosed(q) then received else received + [chunk],
                   out + Pushed(q, chunk).1)
  {
    var more := Pushed(q, chunk).1;
    if more == [] {
      assert out + more == out;
    } else {
      assert more == [more[0]];
      Project(out, more);
      ProjectLoss(out, more);
      ProjectOne(more[0]);
      EffectLoss(more[0]);
    }
  }

  /** A push that evicts, followed in the same step by the close it triggers: the evicted chunk
      and everything buffered behind it are lost together. */
  lemma OverflowKeepsNoHole<T(!new)>(q: Queue<T, IrohError>, chunk: T, error: Option<IrohError>,
                                     received: seq<T>, out: seq<Effect<T, IrohError>>)
    requires NoHole(q, received, out) && Pushed(q, chunk).0.dropped != q.dropped
    ensures var (q', evicted) := Pushed(q, chunk);
      var (q'', more) := Closed(q', error);
      !IsClosed(q) && !IsClosed(q') && NoHole(q'', received + [chunk], out + (evicted + more))
  {
    var (q', evicted) := Pushed(q, chunk);
    var more := Closed(q', error).1;
    EvictionEffects(q, chunk);
    ClosingLosesTheBuffer(q', error);
    BatchLosesTheRest(q.buffer, chunk, received, out, evicted, more);
  }

  lemma BatchLosesTheRest<T(!new)>(buffer: seq<T>, chunk: T, received: seq<T>, out: seq<Effect<T, IrohError>>,
                                   evicted: seq<Effect<T, IrohError>>, more: seq<Effect<T, IrohError>>)
    requires received == Delivered(out) + Lost(out) + buffer && Lost(out) == []
    requires Delivered(evicted) == [] && Delivered(more) == []
    requires Lost(evicted) + Lost(more) == buffer + [chunk]
    ensures var all := out + (evicted + more);
      received + [chunk] == Delivered(all) + Lost(all)
  {
    Project(evicted, more);
    ProjectLoss(evicted, more);
    Project(out, evicted + more);
    ProjectLoss(out, evicted + more);
  }

  lemma EvictionEffects<T(!new)>(q: Queue<T, IrohError>, chunk: T)
    requires Pushed(q, chunk).0.dropped != q.dropped
    ensures var (q', evicted) := Pushed(q, chunk);
      && !IsClosed(q) && !IsClosed(q')
      && Delivered(evicted) == []
      && Lost(evicted) + q'.buffer == q.buffer + [chunk]
  {
    var (q', evicted) := Pushed(q, chunk);
    var grown := q.buffer + [chunk];
    assert evicted == [evicted[0]] + [evicted[1]];
    Project([evicted[0]], [evicted[1]]);
    ProjectLoss([evicted[0]], [evicted[1]]);
    ProjectOne(evicted[0]);
    ProjectOne(evicted[1]);
    EffectLoss(evicted[0]);
    EffectLoss(evicted[1]);
    assert grown == [grown[0]] + grown[1..];
  }

  lemma NextKeepsNoHole<T(!new)>(q: Queue<T, IrohError>, received: seq<T>, out: seq<Effect<T, IrohError>>)
    requires NoHole(q, received, out) && (IsClosed(q) ==> q.buffer == [])
    ensures NoHole(Nexted(q).0, received, out + Nexted(q).1)
  {
    var more := Nexted(q).1;
    if more == [] {
      assert out + more == out;
    } else {
      assert more == [more[0]];
      Project(out, more);
      ProjectLoss(out, more);
      ProjectOne(more[0]);
      EffectLoss(more[0]);
      assert q.buffer != [] ==> q.buffer == [q.buffer[0]] + q.buffer[1..];
    }
  }

  /** What an event adds to the chunks accepted by the queue. */
  function Accepts<T>(s: Stream<T>, event: StreamEvent<T>): seq<T>
  {
    if IsClosed(s.chunks) then [] else ChunkOf(event)
  }

  lemma StepKeepsQueue<T(!new)>(s: Stream<T>, event: StreamEvent<T>, received: seq<T>, out: seq<Effect<T, IrohError>>)
    requires StreamInv(s, received, out)
    ensures QueueInv(StreamStep(s, event).0.chunks, received + Accepts(s, event), 0, out + StreamStep(s, event).1)
  {
    if Accepts(s, event) == [] {
      assert received + Accepts(s, event) == received;
    }
    match event
    case OnData(chunk) => ReceiveKeepsQueue(s, chunk, received, out);
    case OnClose(error) => FinishKeepsQueue(s, error, received, out);
    case LocalClose => FinishKeepsQueue(s, None, received, out);
    case NextChunk => NextKeepsInv(s.chunks, received, 0, out);
    case BreakLoop => CloseKeepsInv(s.chunks, None, received, 0, out);
  }

  lemma ReceiveKeepsQueue<T(!new)>(s: Stream<T>, chunk: T, received: seq<T>, out: seq<Effect<T, IrohError>>)
    requires QueueInv(s.chunks, received, 0, out) && ReleasedOnce(s)
    ensures QueueInv(Received(s, chunk).0.chunks, if IsClosed(s.chunks) then received else received + [chunk],
                     0, out + Received(s, chunk).1)
  {
    PushKeepsInv(s.chunks, chunk, received, 0, out);
    var (q', evicted) := Pushed(s.chunks, chunk);
    if q'.dropped != s.chunks.dropped {
      FailKeepsQueue(q', Some(OverflowError(q'.dropped)), received + [chunk], out, evicted);
    }
  }

  lemma FailKeepsQueue<T(!new)>(q: Queue<T, IrohError>, error: Option<IrohError>, received: seq<T>,
                                out: seq<Effect<T, IrohError>>, evicted: seq<Effect<T, IrohError>>)
    requires QueueInv(q, received, 0, out + evicted)
    ensures QueueInv(Closed(q, error).0, received, 0, out + (evicted + Closed(q, error).1))
  {
    CloseKeepsInv(q, error, received, 0, out + evicted);
    assert (out + evicted) + Closed(q, error).1 == out + (evicted + Closed(q, error).1);
  }

  lemma FinishKeepsQueue<T(!new)>(s: Stream<T>, error: Option<IrohError>, received: seq<T>, out: seq<Effect<T, IrohError>>)
    requires QueueInv(s.chunks, received, 0, out)
    ensures QueueInv(Finished(s, error).0.chunks, received, 0, out + Finished(s, error).1)
  {
    if s.settlement.Some? {
      assert out + [] == out;
    } else {
      CloseKeepsInv(s.chunks, error, received, 0, out);
    }
  }

  lemma StepKeepsNoHole<T(!new)>(s: Stream<T>, event: StreamEvent<T>, received: seq<T>, out: seq<Effect<T, IrohError>>)
    requires StreamInv(s, received, out)
    ensures NoHole(StreamStep(s, event).0.chunks, received + Accepts(s, event), out + StreamStep(s, event).1)
    ensures ReleasedOnce(StreamStep(s, event).0)
  {
    if Accepts(s, event) == [] {
      assert received + Accepts(s, event) == received;
    }
    match event
    case OnData(chunk) =>
      var q' := Pushed(s.chunks, chunk).0;
      if q'.dropped == s.chunks.dropped {
        PushKeepsNoHole(s.chunks, chunk, received, out);
      } else {
        OverflowKeepsNoHole(s.chunks, chunk, Some(OverflowError(q'.dropped)), received, out);
      }
    case OnClose(error) => FinishKeepsNoHole(s, error, received, out);
    case LocalClose => FinishKeepsNoHole(s, None, received, out);
    case NextChunk => NextKeepsNoHole(s.chunks, received, out);
    case BreakLoop => CloseKeepsNoHole(s.chunks, None, received, out);
  }

  lemma FinishKeepsNoHole<T(!new)>(s: Stream<T>, error: Option<IrohError>, received: seq<T>, out: seq<Effect<T, IrohError>>)
    requires NoHole(s.chunks, received, out) && ReleasedOnce(s)
    ensures NoHole(Finished(s, error).0.chunks, received, out + Finished(s, error).1)
    ensures ReleasedOnce(Finished(s, error).0)
  {
    if s.settlement.Some? {
      assert out + [] == out;
    } else {
      CloseKeepsNoHole(s.chunks, error, received, out);
    }
  }

  /** The chunks that arrived while the queue was open. */
  function Accepted<T>(capacity: Option<int>, events: seq<StreamEvent<T>>): seq<T>
  {
    if events == [] then []
    else
      var init := events[..|events| - 1];
      Accepted(capacity, init) + Accepts(StreamRun(capacity, init).0, events[|events| - 1])
  }

  lemma {:induction false} StreamRunKeepsInv<T(!new)>(capacity: Option<int>, events: seq<StreamEvent<T>>)
    ensures StreamInv(StreamRun(capacity, events).0, Accepted(capacity, events), StreamRun(capacity, events).1)
  {
    if events == [] {
      assert QueueInv<T, IrohError>(Create(capacity), [], 0, []);
    } else {
      var init, last := events[..|events| - 1], events[|events| - 1];
      StreamRunKeepsInv(capacity, init);
      var (s, out) := StreamRun(capacity, init);
      StepKeepsQueue(s, last, Accepted(capacity, init), out);
      StepKeepsNoHole(s, last, Accepted(capacity, init), out);
    }
  }

  lemma ClosedStaysClosed<T>(s: Stream<T>, event: StreamEvent<T>)
    ensures IsClosed(s.chunks) ==> IsClosed(StreamStep(s, event).0.chunks)
  {
  }

  lemma {:induction false} AcceptedIsPrefix<T>(capacity: Option<int>, events: seq<StreamEvent<T>>)
    ensures Accepted(capacity, events) <= Chunks(events)
    ensures !IsClosed(StreamRun(capacity, events).0.chunks) ==> Accepted(capacity, events) == Chunks(events)
  {
    if events != [] {
      var init, last := events[..|events| - 1], events[|events| - 1];
      AcceptedIsPrefix(capacity, init);
      ClosedStaysClosed(StreamRun(capacity, init).0, last);
    }
  }

  // ---------------------------------------------------------------- what every run guarantees

  /** A consumer never sees a hole: in every interleaving of chunks, `next()` calls, closes,
      loop breaks and overflows, the chunks delivered are a prefix of the chunks received, the
      lost ones come straight after them, and the native stream is released at most once. */
  lemma DeliveredIsPrefix<T(!new)>(capacity: Option<int>, events: seq<StreamEvent<T>>)
    ensures var (s, out) := StreamRun(capacity, events);
      && Delivered(out) + Lost(out) + s.chunks.buffer <= Chunks(events)
      && Delivered(out) <= Chunks(events)
      && s.released == s.disposed == (if s.settlement.Some? then 1 else 0)
  {
    StreamRunKeepsInv(capacity, events);
    AcceptedIsPrefix(capacity, events);
    var (s, out) := StreamRun(capacity, events);
    assert Delivered(out) <= Delivered(out) + Lost(out) + s.chunks.buffer;
  }

  /** An end of stream, orderly or not, delivers everything that was received exactly when the
      consumer had nothing left to read: whatever was still buffered is thrown away. */
  lemma EndOfStreamLosesTheBacklog<T(!new)>(capacity: Option<int>, events: seq<StreamEvent<T>>, error: Option<IrohError>)
    requires !IsClosed(StreamRun(capacity, events).0.chunks)
    ensures var (s, out) := StreamRun(capacity, events);
      var out' := StreamRun(capacity, events + [OnClose(error)]).1;
      && Lost(out') == s.chunks.buffer
      && (Delivered(out') == Chunks(events) <==> s.chunks.buffer == [])
  {
    var (s, out) := StreamRun(capacity, events);
    StreamRunKeepsInv(capacity, events);
    AcceptedIsPrefix(capacity, events);
    assert (events + [OnClose(error)])[..|events + [OnClose(error)]| - 1] == events;
    ClosingLosesTheBuffer(s.chunks, error);
    var more := Closed(s.chunks, error).1;
    Project(out, more);
    ProjectLoss(out, more);
  }

  /** Whether an event ends the stream: a native close, a local one, or a chunk that finds the
      buffer full. */
  predicate EndsStream<T>(s: Stream<T>, event: StreamEvent<T>)
  {
    event.OnClose? || event.LocalClose? ||
    (event.OnData? && !IsClosed(s.chunks) && s.chunks.consumers.waiters == [] &&
     |s.chunks.buffer| >= s.chunks.capacity)
  }

  lemma StepSettles<T>(s: Stream<T>, event: StreamEvent<T>)
    ensures StreamStep(s, event).0.settlement.Some? <==> s.settlement.Some? || EndsStream(s, event)
  {
  }

  predicate EverEnded<T>(capacity: Option<int>, events: seq<StreamEvent<T>>)
  {
    events != [] &&
    var init, last := events[..|events| - 1], events[|events| - 1];
    EverEnded(capacity, init) || EndsStream(StreamRun(capacity, init).0, last)
  }

  /** Breaking out of the loop is not among the things that end a stream: it is settled and its
      native handle released exactly when one of the events above happened. */
  lemma {:induction false} StreamSettlesExactlyWhenEnded<T>(capacity: Option<int>, events: seq<StreamEvent<T>>)
    ensures StreamRun(capacity, events).0.settlement.Some? <==> EverEnded(capacity, events)
  {
    if events != [] {
      var init, last := events[..|events| - 1], events[|events| - 1];
      StreamSettlesExactlyWhenEnded(capacity, init);
      StepSettles(StreamRun(capacity, init).0, last);
    }
  }

  /** The witness: after a broken loop the native stream is still open and a chunk that arrives
      is neither delivered nor reported as dropped. */
  lemma BrokenLoopLeavesStreamOpen<T(!new)>(chunk: T)
    ensures var (s, out) := StreamRun(None, [BreakLoop, OnData(chunk)]);
      s.settlement == None && s.released == 0 && out == [] && s.chunks.buffer == []
  {
    var first: StreamEvent<T> := BreakLoop;
    assert [first, OnData(chunk)][..1] == [first];
    assert [first][..0] == [];
    var (s, out) := StreamStep(Subscribe<T>(None), first);
    assert out == [];
    assert StreamRun<T>(None, [first]).1 == [] + out;
  }

  // ---------------------------------------------------------------- how it ends

  /** Chunks waiting less `next()` calls waiting, counted off the events while the queue is open. */
  function Backlog<T>(events: seq<StreamEvent<T>>): int
  {
    if events == [] then 0
    else
      Backlog(events[..|events| - 1]) +
        match events[|events| - 1]
        case OnData(_) => 1
        case NextChunk => -1
        case _ => 0
  }

  function Asked<T>(events: seq<StreamEvent<T>>): nat
  {
    if events == [] then 0
    else Asked(events[..|events| - 1]) + if events[|events| - 1].NextChunk? then 1 else 0
  }

  const OVERFLOWED := IrohError(5006, "stream consumer fell behind; 1 chunks dropped")

  /** What ends the consumer's loop: the first of the native close, with its error, the local close,
      the broken loop, and the chunk that finds `room` chunks waiting. */
  function LoopEnd<T>(room: nat, events: seq<StreamEvent<T>>): Option<Option<IrohError>>
  {
    if events == [] then None
    else
      var init := events[..|events| - 1];
      if LoopEnd(room, init).Some? then LoopEnd(room, init)
      else
        match events[|events| - 1]
        case OnClose(error) => Some(error)
        case LocalClose | BreakLoop => Some(None)
        case OnData(_) => if Backlog(init) >= room then Some(Some(OVERFLOWED)) else None
        case NextChunk => None
  }

  /** What settles `closed`: the first of the same events, a broken loop apart. */
  function ClosedAs<T>(room: nat, events: seq<StreamEvent<T>>): Option<Option<IrohError>>
  {
    if events == [] then None
    else
      var init := events[..|events| - 1];
      if ClosedAs(room, init).Some? then ClosedAs(room, init)
      else
        match events[|events| - 1]
        case OnClose(error) => Some(error)
        case LocalClose => Some(None)
        case OnData(_) =>
          if LoopEnd(room, init).None? && Backlog(init) >= room then Some(Some(OVERFLOWED)) else None
        case _ => None
  }

  ghost predicate EndsAs<T>(s: Stream<T>, end: Option<Option<IrohError>>, closed: Option<Option<IrohError>>,
                            asked: nat, backlog: int)
  {
    && s.chunks.consumers.terminal == end
    && s.settlement == closed
    && s.chunks.consumers.issued == asked
    && (end.None? ==> s.chunks.dropped == 0 && |s.chunks.buffer| - |s.chunks.consumers.waiters| == backlog)
  }

  lemma OverflowMessage()
    ensures OverflowError(1) == OVERFLOWED
  {
    assert Decimal(1) == "1";
  }

  ghost predicate Roomy<T>(q: Queue<T, IrohError>)
  {
    |q.buffer| <= q.capacity && (q.consumers.waiters != [] ==> q.buffer == [])
  }

  /** A chunk: it ends an open loop, and the stream with it, if it finds no room. */
  lemma ReceivingEndsAs<T>(s: Stream<T>, chunk: T, end: Option<Option<IrohError>>, closed: Option<Option<IrohError>>,
                           asked: nat, backlog: int)
    requires EndsAs(s, end, closed, asked, backlog) && Roomy(s.chunks) && (closed.Some? ==> end.Some?)
    ensures var full := end.None? && backlog >= s.chunks.capacity;
      EndsAs(Received(s, chunk).0, if full then Some(Some(OVERFLOWED)) else end,
             if full then Some(Some(OVERFLOWED)) else closed, asked, backlog + 1)
    ensures Received(s, chunk).0.chunks.capacity == s.chunks.capacity
  {
    OverflowMessage();
  }

  /** Everything else. */
  lemma OthersEndAs<T>(s: Stream<T>, event: StreamEvent<T>, end: Option<Option<IrohError>>, closed: Option<Option<IrohError>>,
                       asked: nat, backlog: int)
    requires EndsAs(s, end, closed, asked, backlog) && (closed.Some? ==> end.Some?) && !event.OnData?
    ensures var error := if event.OnClose? then event.error else None;
      EndsAs(StreamStep(s, event).0,
             if end.None? && !event.NextChunk? then Some(error) else end,
             if closed.None? && !event.NextChunk? && !event.BreakLoop? then Some(error) else closed,
             asked + (if event.NextChunk? then 1 else 0), backlog - if event.NextChunk? then 1 else 0)
    ensures StreamStep(s, event).0.chunks.capacity == s.chunks.capacity
  {
  }

  lemma EndSnoc<T>(room: nat, events: seq<StreamEvent<T>>, event: StreamEvent<T>)
    ensures var all := events + [event];
      var end, closed := LoopEnd(room, events), ClosedAs(room, events);
      var full := event.OnData? && end.None? && Backlog(events) >= room;
      var error := if event.OnClose? then event.error else None;
      && LoopEnd(room, all) == (if end.Some? || event.NextChunk? then end
                                else if event.OnData? then if full then Some(Some(OVERFLOWED)) else None
                                else Some(error))
      && ClosedAs(room, all) == (if closed.Some? || event.NextChunk? || event.BreakLoop? then closed
                                 else if event.OnData? then if full then Some(Some(OVERFLOWED)) else None
                                 else Some(error))
      && Backlog(all) == Backlog(events) + (if event.OnData? then 1 else if event.NextChunk? then -1 else 0)
      && Asked(all) == Asked(events) + if event.NextChunk? then 1 else 0
  {
    assert (events + [event])[..|events + [event]| - 1] == events;
  }

  lemma {:induction false} ClosedMeansEnded<T>(room: nat, events: seq<StreamEvent<T>>)
    ensures ClosedAs(room, events).Some? ==> LoopEnd(room, events).Some?
  {
    if events != [] {
      ClosedMeansEnded(room, events[..|events| - 1]);
    }
  }

  lemma {:induction false} RunEndsAs<T(!new)>(capacity: Option<int>, events: seq<StreamEvent<T>>)
    ensures var (s, room) := (StreamRun(capacity, events).0, Subscribe<T>(capacity).chunks.capacity);
      s.chunks.capacity == room && EndsAs(s, LoopEnd(room, events), ClosedAs(room, events), Asked(events), Backlog(events))
  {
    if events != [] {
      var init, last := events[..|events| - 1], events[|events| - 1];
      var room := Subscribe<T>(capacity).chunks.capacity;
      RunEndsAs(capacity, init);
      StreamRunKeepsInv(capacity, init);
      ClosedMeansEnded(room, init);
      var s := StreamRun(capacity, init).0;
      assert events == init + [last];
      EndSnoc(room, init, last);
      if last.OnData? {
        ReceivingEndsAs(s, last.chunk, LoopEnd(room, init), ClosedAs(room, init), Asked(init), Backlog(init));
      } else {
        OthersEndAs(s, last, LoopEnd(room, init), ClosedAs(room, init), Asked(init), Backlog(init));
      }
    }
  }

  /** How every loop over a stream ends, and how `closed` settles, over every run: each `next()` is
      answered once and in order, with the delivered chunks, then with the first end's own error if
      it has one, once, and then with the end; `closed` settles as the first of those events that is
      not a broken loop says. */
  lemma StreamEndsAsTheFirstSays<T(!new)>(capacity: Option<int>, events: seq<StreamEvent<T>>)
    ensures var (s, out) := StreamRun(capacity, events);
      var room := Subscribe<T>(capacity).chunks.capacity;
      var past := |Outcomes(out)| - |Delivered(out)|;
      && past >= 0
      && Outcomes(out) == Yields(Delivered(out)) + Finale(LoopEnd(room, events), past)
      && (LoopEnd(room, events).None? ==> past == 0)
      && (LoopEnd(room, events).Some? ==> s.chunks.consumers.waiters == [])
      && Calls(out) + s.chunks.consumers.waiters == Iota(Asked(events))
      && s.settlement == ClosedAs(room, events)
  {
    StreamRunKeepsInv(capacity, events);
    RunEndsAs(capacity, events);
  }

  // ---------------------------------------------------------------- the classes

  /** A promise that settles once. */
  class Settlement {
    var outcome: Option<Option<IrohError>>

    constructor ()
      ensures outcome == None
    {
      outcome := None;
    }

    /** Returns whether this call was the one that settled it. */
    method Settle(error: Option<IrohError>) returns (first: bool)
      modifies this
      ensures first <==> old(outcome) == None
      ensures outcome == if first then Some(error) else old(outcome)
    {
      if outcome.Some? {
        return false;
      }
      outcome := Some(error);
      return true;
    }
  }

  class StreamController<T> {
    const settlement: Settlement
    const chunks: MessageQueue<T, IrohError>
    var released: nat
    var disposed: nat

    constructor (capacity: Option<int>)
      ensures fresh(settlement) && fresh(chunks) && fresh(chunks.consumers)
      ensures State() == Subscribe(capacity)
    {
      settlement := new Settlement();
      chunks := new MessageQueue<T, IrohError>(capacity);
      released, disposed := 0, 0;
    }

    function State(): Stream<T>
      reads this, settlement, chunks, chunks.consumers
    {
      Stream(settlement.outcome, chunks.State(), released, disposed)
    }

    method Finish(error: Option<IrohError>) returns (out: seq<Effect<T, IrohError>>)
      modifies this, settlement, chunks, chunks.consumers
      ensures (State(), out) == Finished(old(State()), error)
    {
      var first := settlement.Settle(error);
      if !first {
        return [];
      }
      out := chunks.Close(error);
      released := released + 1;
      disposed := disposed + 1;
    }

    method OnData(chunk: T) returns (out: seq<Effect<T, IrohError>>)
      modifies this, settlement, chunks, chunks.consumers
      ensures (State(), out) == Received(old(State()), chunk)
    {
      var before := chunks.droppedCount;
      out := chunks.Push(chunk);
      if chunks.droppedCount != before {
        var more := Finish(Some(OverflowError(chunks.droppedCount)));
        out := out + more;
      }
    }

    method Next() returns (out: seq<Effect<T, IrohError>>)
      modifies chunks, chunks.consumers
      ensures (State(), out) == StreamStep(old(State()), NextChunk)
    {
      out := chunks.Next();
    }

    method Return() returns (out: seq<Effect<T, IrohError>>)
      modifies chunks, chunks.consumers
      ensures (State(), out) == StreamStep(old(State()), BreakLoop)
    {
      out := chunks.Return();
    }

    /** `send`: refused locally once settled, otherwise whatever the native send reports. */
    method Send(native: Option<IrohError>) returns (result: Option<IrohError>, reached: bool)
      ensures reached <==> settlement.outcome == None
      ensures result == if reached then native else Some(IrohError(5004, "stream is closed"))
    {
      if settlement.outcome.Some? {
        return Some(IrohError(5004, "stream is closed")), false;
      }
      return native, true;
    }
  }
}
