/** One framed stream from end to end: the peer's concurrent senders (`stream_send` in
    `rust/iroh-rn-core/src/streams.rs`), the native reader, and the consumer's loop in the host
    (`src/streams.ts`). */
module FramedDelivery {
  import opened Base
  import opened Framing
  import opened SendLock
  import Streams
  import AsyncKernel

  /** Whether a stream's events are ones the reader of `wire` can have caused so far: it has read
      some part of the wire, and `onData` has been called for a first part of what that holds. */
  ghost predicate Fed(wire: seq<Byte>, seen: seq<Byte>, end: StreamEnd, payloads: seq<seq<Byte>>,
                      reason: Option<CloseReason>, events: seq<Streams.StreamEvent<seq<Byte>>>)
  {
    seen <= wire && ReadsAs(seen, end, payloads, reason) && Streams.Chunks(events) <= payloads
  }

  lemma PrefixOfPrefix<T>(a: seq<T>, b: seq<T>, c: seq<T>)
    requires a <= b && b <= c
    ensures a <= c
  {
  }

  /** In order and without a hole, from `send` to `next()`: under every schedule of the senders,
      every split of the bytes, every end of the stream and every interleaving of chunks, `next()`
      calls, closes, broken loops and overflows, what the consumer has received is the first so
      many of the payloads submitted and sent, in the order they took the lock, and at most then one
      still open. */
  lemma ConsumerFollowsLockOrder(steps: seq<Step>, seen: seq<Byte>, end: StreamEnd,
                                 payloads: seq<seq<Byte>>, reason: Option<CloseReason>,
                                 capacity: Option<int>, events: seq<Streams.StreamEvent<seq<Byte>>>)
    requires Run(Framed, steps).Some?
    requires Fed(Run(Framed, steps).value.wire, seen, end, payloads, reason, events)
    ensures exists more ::
      StillOpen(Framed, steps, more) &&
      AsyncKernel.Delivered(Streams.StreamRun(capacity, events).1) <= Sends(Framed, steps) + more
  {
    ReaderFollowsLockOrder(steps, seen, end, payloads, reason);
    Streams.DeliveredIsPrefix(capacity, events);
    var more :| StillOpen(Framed, steps, more) && payloads <= Sends(Framed, steps) + more;
    var out := Streams.StreamRun(capacity, events).1;
    PrefixOfPrefix(AsyncKernel.Delivered(out), Streams.Chunks(events), payloads);
    PrefixOfPrefix(AsyncKernel.Delivered(out), payloads, Sends(Framed, steps) + more);
  }

  /** A stream its sender finished, read to the end: the consumer has received only payloads
      that were submitted and sent, and all of them exactly when native code has delivered every payload and none of
      them was thrown away, still waits, or came after the consumer's side was closed. */
  lemma EverythingArrivesIffNothingIsLost(steps: seq<Step>, payloads: seq<seq<Byte>>,
                                          reason: Option<CloseReason>, capacity: Option<int>,
                                          events: seq<Streams.StreamEvent<seq<Byte>>>)
    requires Run(Framed, steps).Some? && FinishedCleanly(steps)
    requires var wire := Run(Framed, steps).value.wire; Fed(wire, wire, Fin, payloads, reason, events)
    ensures reason == None
    ensures var sent := Sends(Framed, steps);
      var (s, out) := Streams.StreamRun(capacity, events);
      && AsyncKernel.Delivered(out) <= sent
      && (AsyncKernel.Delivered(out) == sent <==>
            && Streams.Lost(out) == [] && s.chunks.buffer == []
            && Streams.Chunks(events) == payloads
            && Streams.Accepted(capacity, events) == Streams.Chunks(events))
  {
    FinishedStreamReadsBack(steps, payloads, reason);
    Streams.StreamRunKeepsInv(capacity, events);
    Streams.AcceptedIsPrefix(capacity, events);
    var sent := Sends(Framed, steps);
    var (s, out) := Streams.StreamRun(capacity, events);
    var accepted := Streams.Accepted(capacity, events);
    assert accepted == AsyncKernel.Delivered(out) + Streams.Lost(out) + s.chunks.buffer;
    PrefixesThatMeet(AsyncKernel.Delivered(out), Streams.Lost(out), s.chunks.buffer, accepted, Streams.Chunks(events), sent);
  }

  lemma PrefixesThatMeet<T>(delivered: seq<T>, lost: seq<T>, kept: seq<T>,
                            accepted: seq<T>, received: seq<T>, sent: seq<T>)
    requires accepted == delivered + lost + kept && accepted <= received && received <= sent
    ensures delivered <= sent
    ensures delivered == sent <==> lost == [] && kept == [] && received == sent && accepted == received
  {
    assert delivered <= accepted;
    PrefixOfPrefix(delivered, accepted, received);
    PrefixOfPrefix(delivered, received, sent);
    if delivered == sent {
      assert |lost| + |kept| == 0;
    }
  }
}
