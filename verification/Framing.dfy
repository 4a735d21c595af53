/** The length-prefixed wire format of `rust/iroh-rn-core/src/streams.rs` and the reader that
    takes it apart again. */
module Framing {
  import opened Base

  type Byte = b: int | 0 <= b < 256

  const MAX_FRAME_SIZE: nat := 16 * 1024 * 1024
  const U32_SPAN: nat := 0x1_0000_0000

  /** `(n as u32).to_be_bytes()`: the cast keeps the low 32 bits. */
  function ToBe32(n: nat): (p: seq<Byte>)
    ensures |p| == 4
  {
    var w := n % U32_SPAN;
    [w / 0x100_0000, w / 0x1_0000 % 0x100, w / 0x100 % 0x100, w % 0x100]
  }

  function FromBe32(p: seq<Byte>): (n: nat)
    requires |p| == 4
    ensures n < U32_SPAN
  {
    (p[0] as int) * 0x100_0000 + (p[1] as int) * 0x1_0000 + (p[2] as int) * 0x100 + p[3]
  }

  /** The prefix recovers the length exactly when the length fits in 32 bits. */
  lemma Be32RoundTrip(n: nat)
    ensures FromBe32(ToBe32(n)) == n <==> n < U32_SPAN
  {
    var w := n % U32_SPAN;
    assert w / 0x100 / 0x100 == w / 0x1_0000;
    assert w / 0x1_0000 / 0x100 == w / 0x100_0000;
    assert FromBe32(ToBe32(n)) == w;
  }

  function Frame(payload: seq<Byte>): seq<Byte>
  {
    ToBe32(|payload|) + payload
  }

  function Frames(payloads: seq<seq<Byte>>): seq<Byte>
  {
    FlatMap(Frame, payloads)
  }

  ghost predicate Sendable(payloads: seq<seq<Byte>>)
  {
    forall i :: 0 <= i < |payloads| ==> |payloads[i]| <= MAX_FRAME_SIZE
  }

  // ---------------------------------------------------------------- how a stream can end

  datatype ConnectionError = LocallyClosed | ApplicationClosed | Failed(detail: string)
  datatype ReadError = ConnectionLost(cause: ConnectionError) | OtherRead(detail: string)
  datatype StreamEnd = Fin | Broken(error: ReadError)

  datatype ClosedDetail = InHeader(read: nat) | InFrame(read: nat, len: nat) | Reported(detail: string)
  datatype CloseReason = StreamClosed(detail: ClosedDetail) | StreamFrameTooLarge(len: nat)

  function ConnectionCloseReason(err: ConnectionError): Option<CloseReason>
  {
    match err
    case LocallyClosed | ApplicationClosed => None
    case Failed(detail) => Some(StreamClosed(Reported(detail)))
  }

  function ReadCloseReason(err: ReadError): Option<CloseReason>
  {
    match err
    case ConnectionLost(cause) => ConnectionCloseReason(cause)
    case OtherRead(detail) => Some(StreamClosed(Reported(detail)))
  }

  /** What a reader left with exactly the bytes `rest` before the stream's end must report;
      false when `rest` still starts with a whole legal frame. */
  predicate StopsAt(rest: seq<Byte>, end: StreamEnd, reason: Option<CloseReason>)
  {
    if |rest| >= 4 then
      var len := FromBe32(rest[..4]);
      if len > MAX_FRAME_SIZE then
        reason == Some(StreamFrameTooLarge(len))
      else
        |rest| - 4 < len &&
        reason == (if end.Fin? then Some(StreamClosed(InFrame(|rest| - 4, len)))
                   else ReadCloseReason(end.error))
    else if end.Broken? then
      reason == ReadCloseReason(end.error)
    else
      reason == (if rest == [] then None else Some(StreamClosed(InHeader(|rest|))))
  }

  /** The meaning of a byte stream, independent of any reader: a maximal run of whole legal
      frames, then a remainder that fixes the reason. */
  ghost predicate ReadsAs(bytes: seq<Byte>, end: StreamEnd,
                          payloads: seq<seq<Byte>>, reason: Option<CloseReason>)
  {
    Sendable(payloads) &&
    exists rest: seq<Byte> :: bytes == Frames(payloads) + rest && StopsAt(rest, end, reason)
  }

  lemma FramesCons(payloads: seq<seq<Byte>>)
    requires payloads != []
    ensures Frames(payloads) == Frame(payloads[0]) + Frames(payloads[1..])
  {
    assert payloads == [payloads[0]] + payloads[1..];
    FlatMapAppend(Frame, [payloads[0]], payloads[1..]);
    FlatMapOne(Frame, payloads[0]);
  }

  /** The first frame can be read back out of any string that starts with it. */
  lemma FrameHead(payload: seq<Byte>, tail: seq<Byte>)
    requires |payload| <= MAX_FRAME_SIZE
    ensures (Frame(payload) + tail)[..4] == ToBe32(|payload|)
    ensures FromBe32((Frame(payload) + tail)[..4]) == |payload|
    ensures (Frame(payload) + tail)[4..4 + |payload|] == payload
    ensures (Frame(payload) + tail)[4 + |payload|..] == tail
  {
    Be32RoundTrip(|payload|);
  }

  /** Peels the first delivered payload off a reading. */
  lemma FirstFrame(bytes: seq<Byte>, end: StreamEnd, payloads: seq<seq<Byte>>,
                   reason: Option<CloseReason>) returns (tail: seq<Byte>)
    requires ReadsAs(bytes, end, payloads, reason) && payloads != []
    ensures |payloads[0]| <= MAX_FRAME_SIZE && bytes == Frame(payloads[0]) + tail
    ensures ReadsAs(tail, end, payloads[1..], reason)
  {
    var rest :| bytes == Frames(payloads) + rest && StopsAt(rest, end, reason);
    FramesCons(payloads);
    tail := Frames(payloads[1..]) + rest;
  }

  /** A stream that starts with a whole legal frame cannot be read without delivering it. */
  lemma FrameIsDelivered(payload: seq<Byte>, tail: seq<Byte>, end: StreamEnd,
                         payloads: seq<seq<Byte>>, reason: Option<CloseReason>)
    requires |payload| <= MAX_FRAME_SIZE
    requires ReadsAs(Frame(payload) + tail, end, payloads, reason)
    ensures payloads != [] && payloads[0] == payload
    ensures ReadsAs(tail, end, payloads[1..], reason)
  {
    FrameHead(payload, tail);
    var rest :| Frame(payload) + tail == Frames(payloads) + rest && StopsAt(rest, end, reason);
    assert payloads == [] ==> rest == Frame(payload) + tail;
    var tail' := FirstFrame(Frame(payload) + tail, end, payloads, reason);
    FrameHead(payloads[0], tail');
  }

  /** A longer stream never changes what was already delivered: of two streams where one
      extends the other, the shorter delivers a prefix of the longer. */
  lemma {:induction false} DeliveryIsMonotone(
      bytes: seq<Byte>, end: StreamEnd, payloads: seq<seq<Byte>>, reason: Option<CloseReason>,
      more: seq<Byte>, end': StreamEnd, payloads': seq<seq<Byte>>, reason': Option<CloseReason>)
    requires ReadsAs(bytes, end, payloads, reason)
    requires ReadsAs(bytes + more, end', payloads', reason')
    ensures payloads <= payloads'
    decreases |payloads|
  {
    if payloads != [] {
      var tail := FirstFrame(bytes, end, payloads, reason);
      assert bytes + more == Frame(payloads[0]) + (tail + more);
      FrameIsDelivered(payloads[0], tail + more, end', payloads', reason');
      DeliveryIsMonotone(tail, end, payloads[1..], reason, more, end', payloads'[1..], reason');
      assert payloads == [payloads[0]] + payloads[1..];
      assert payloads' == [payloads'[0]] + payloads'[1..];
    }
  }

  /** Every stream reads in exactly one way. */
  lemma ReadingIsUnique(bytes: seq<Byte>, end: StreamEnd,
                        payloads: seq<seq<Byte>>, reason: Option<CloseReason>,
                        payloads': seq<seq<Byte>>, reason': Option<CloseReason>)
    requires ReadsAs(bytes, end, payloads, reason)
    requires ReadsAs(bytes, end, payloads', reason')
    ensures payloads == payloads' && reason == reason'
  {
    assert bytes + [] == bytes;
    DeliveryIsMonotone(bytes, end, payloads, reason, [], end, payloads', reason');
    DeliveryIsMonotone(bytes, end, payloads', reason', [], end, payloads, reason);
    assert payloads == payloads';
    var rest :| bytes == Frames(payloads) + rest && StopsAt(rest, end, reason);
    var rest' :| bytes == Frames(payloads) + rest' && StopsAt(rest', end, reason');
    assert rest == bytes[|Frames(payloads)|..];
    assert rest' == bytes[|Frames(payloads)|..];
  }

  /** Putting a whole legal frame in front of a stream adds its payload to the reading. */
  lemma PrependFrame(first: seq<Byte>, tail: seq<Byte>, end: StreamEnd,
                     payloads: seq<seq<Byte>>, reason: Option<CloseReason>)
    requires |first| <= MAX_FRAME_SIZE && ReadsAs(tail, end, payloads, reason)
    ensures ReadsAs(Frame(first) + tail, end, [first] + payloads, reason)
  {
    var rest :| tail == Frames(payloads) + rest && StopsAt(rest, end, reason);
    FramesCons([first] + payloads);
    assert ([first] + payloads)[1..] == payloads;
    assert Frame(first) + tail == Frames([first] + payloads) + rest;
  }

  /** Every stream reads in some way. */
  lemma {:induction false} EveryStreamReads(bytes: seq<Byte>, end: StreamEnd)
    returns (payloads: seq<seq<Byte>>, reason: Option<CloseReason>)
    ensures ReadsAs(bytes, end, payloads, reason)
    decreases |bytes|
  {
    var len := if |bytes| >= 4 then FromBe32(bytes[..4]) else 0;
    if |bytes| < 4 || len > MAX_FRAME_SIZE || |bytes| - 4 < len {
      payloads := [];
      reason := if |bytes| >= 4 && len > MAX_FRAME_SIZE then Some(StreamFrameTooLarge(len))
                else if end.Broken? then ReadCloseReason(end.error)
                else if |bytes| >= 4 then Some(StreamClosed(InFrame(|bytes| - 4, len)))
                else if bytes == [] then None
                else Some(StreamClosed(InHeader(|bytes|)));
      assert bytes == Frames([]) + bytes && StopsAt(bytes, end, reason);
    } else {
      var first, tail := bytes[4..4 + len], bytes[4 + len..];
      var others;
      others, reason := EveryStreamReads(tail, end);
      payloads := [first] + others;
      ReframeHeader(bytes[..4], first);
      assert bytes == Frame(first) + tail;
      PrependFrame(first, tail, end, others, reason);
    }
  }

  /** The writer and the reader are inverse: a finished stream reads as the list `payloads`
      with an orderly end exactly when the framed writer produced it from that list, and then
      it reads in no other way. */
  lemma RoundTrip(bytes: seq<Byte>, payloads: seq<seq<Byte>>)
    requires Sendable(payloads)
    ensures ReadsAs(bytes, Fin, payloads, None) <==> bytes == Frames(payloads)
    ensures bytes == Frames(payloads) ==>
      forall d, o :: ReadsAs(bytes, Fin, d, o) ==> d == payloads && o == None
  {
    if bytes == Frames(payloads) {
      assert bytes == Frames(payloads) + [] && StopsAt([], Fin, None);
      forall d, o | ReadsAs(bytes, Fin, d, o)
        ensures d == payloads && o == None
      {
        ReadingIsUnique(bytes, Fin, d, o, payloads, None);
      }
    }
  }

  /** An over-limit header stops the reader for good, whatever follows it. */
  lemma OversizeIsFinal(bytes: seq<Byte>, end: StreamEnd, payloads: seq<seq<Byte>>, len: nat,
                        more: seq<Byte>, end': StreamEnd)
    requires ReadsAs(bytes, end, payloads, Some(StreamFrameTooLarge(len)))
    ensures ReadsAs(bytes + more, end', payloads, Some(StreamFrameTooLarge(len)))
  {
    var rest :| bytes == Frames(payloads) + rest &&
      StopsAt(rest, end, Some(StreamFrameTooLarge(len)));
    assert bytes + more == Frames(payloads) + (rest + more);
    assert (rest + more)[..4] == rest[..4];
    assert StopsAt(rest + more, end', Some(StreamFrameTooLarge(len)));
  }

  /** Reading a prefix of what the framed writer emits. */
  lemma PartOfFrames(seen: seq<Byte>, unseen: seq<Byte>, sends: seq<seq<Byte>>, end: StreamEnd,
                     delivered: seq<seq<Byte>>, reason: Option<CloseReason>)
    requires Sendable(sends) && Frames(sends) == seen + unseen
    requires ReadsAs(seen, end, delivered, reason)
    ensures delivered <= sends
    ensures reason.Some? ==> !reason.value.StreamFrameTooLarge?
  {
    RoundTrip(seen + unseen, sends);
    DeliveryIsMonotone(seen, end, delivered, reason, unseen, Fin, sends, None);
    if reason.Some? && reason.value.StreamFrameTooLarge? {
      OversizeIsFinal(seen, end, delivered, reason.value.len, unseen, Fin);
      ReadingIsUnique(seen + unseen, Fin, delivered, reason, sends, None);
    }
  }

  /** Whether a header over the limit comes right after these frames. */
  predicate OversizeFollows(bytes: seq<Byte>, payloads: seq<seq<Byte>>)
  {
    var done := |Frames(payloads)|;
    done + 4 <= |bytes| && FromBe32(bytes[done..done + 4]) > MAX_FRAME_SIZE
  }

  /** Somebody closed the connection on purpose. */
  predicate ClosedOnPurpose(end: StreamEnd)
  {
    end in {Broken(ConnectionLost(LocallyClosed)), Broken(ConnectionLost(ApplicationClosed))}
  }

  /** The error of a stream that broke by itself. */
  predicate BrokeWith(end: StreamEnd, detail: string)
  {
    end in {Broken(ConnectionLost(Failed(detail))), Broken(OtherRead(detail))}
  }

  /** When a stream is reported as orderly: after a finish, exactly on a frame boundary; after a
      deliberate close of the connection anywhere at all, even inside a frame, unless an over-limit
      header was read first. */
  lemma OrderlyEnd(bytes: seq<Byte>, end: StreamEnd, payloads: seq<seq<Byte>>, reason: Option<CloseReason>)
    requires ReadsAs(bytes, end, payloads, reason)
    ensures reason == None <==>
      || (end.Fin? && bytes == Frames(payloads))
      || (ClosedOnPurpose(end) && !OversizeFollows(bytes, payloads))
  {
    EveryEndIsClassified(bytes, end, payloads, reason);
  }

  /** What every other end is reported as: the length of an over-limit header whatever the end, the
      error of a stream that broke, and after a finish how much of a header or of a frame was there. */
  lemma EveryEndIsClassified(bytes: seq<Byte>, end: StreamEnd, payloads: seq<seq<Byte>>, reason: Option<CloseReason>)
    requires ReadsAs(bytes, end, payloads, reason)
    ensures |Frames(payloads)| <= |bytes| && (OversizeFollows(bytes, payloads) || end.Fin? || ClosedOnPurpose(end) ||
                                              exists detail :: BrokeWith(end, detail))
    ensures var rest := bytes[|Frames(payloads)|..];
      && (OversizeFollows(bytes, payloads) ==> reason == Some(StreamFrameTooLarge(FromBe32(rest[..4]))))
      && (!OversizeFollows(bytes, payloads) ==>
            && (ClosedOnPurpose(end) ==> reason == None)
            && (forall detail :: BrokeWith(end, detail) ==> reason == Some(StreamClosed(Reported(detail))))
            && (end.Fin? && rest == [] ==> reason == None)
            && (end.Fin? && 0 < |rest| < 4 ==> reason == Some(StreamClosed(InHeader(|rest|))))
            && (end.Fin? && |rest| >= 4 ==>
                  reason == Some(StreamClosed(InFrame(|rest| - 4, FromBe32(rest[..4]))))))
  {
    var rest :| bytes == Frames(payloads) + rest && StopsAt(rest, end, reason);
    assert rest == bytes[|Frames(payloads)|..];
    if |rest| >= 4 {
      assert bytes[|Frames(payloads)|..|Frames(payloads)| + 4] == rest[..4];
    }
    EveryBreakIsKnown(end);
  }

  lemma EveryBreakIsKnown(end: StreamEnd)
    ensures end.Fin? || ClosedOnPurpose(end) || exists detail :: BrokeWith(end, detail)
  {
    if end.Broken? {
      match end.error
      case ConnectionLost(Failed(detail)) => assert BrokeWith(end, detail);
      case OtherRead(detail) => assert BrokeWith(end, detail);
      case _ =>
    }
  }

  /** The witness: a peer that closes the connection in the middle of its first frame is reported
      as an orderly end with nothing delivered. */
  lemma TruncatedFrameCanLookOrderly(b: Byte)
    ensures var bytes := Frame([b, b])[..5];
      && ReadsAs(bytes, Broken(ConnectionLost(ApplicationClosed)), [], None)
      && forall payloads :: bytes != Frames(payloads)
  {
    var bytes := Frame([b, b])[..5];
    FrameHead([b, b], []);
    assert Frame([b, b]) + [] == Frame([b, b]);
    assert bytes[..4] == ToBe32(2);
    assert bytes == Frames([]) + bytes;
    forall payloads ensures bytes != Frames(payloads) {
      if payloads != [] {
        FramesCons(payloads);
        if bytes == Frames(payloads) {
          HeadOfFrames(bytes, payloads);
        }
      }
    }
  }

  /** The first header of a frame list announces a payload that fits in the list, up to the 32 bits
      the prefix holds. */
  lemma HeadOfFrames(bytes: seq<Byte>, payloads: seq<seq<Byte>>)
    requires payloads != [] && bytes == Frames(payloads)
    ensures |bytes| >= 4 + |payloads[0]| && FromBe32(bytes[..4]) == |payloads[0]| % U32_SPAN
  {
    FramesCons(payloads);
    var n := |payloads[0]|;
    assert bytes[..4] == ToBe32(n);
    assert ToBe32(n) == ToBe32(n % U32_SPAN);
    Be32RoundTrip(n % U32_SPAN);
  }

  // ---------------------------------------------------------------- the reader

  function Concat(chunks: seq<seq<Byte>>): seq<Byte>
  {
    if chunks == [] then [] else chunks[0] + Concat(chunks[1..])
  }

  datatype ReadExact = Filled(bytes: seq<Byte>) | FinishedEarly(read: nat) | ReadFailed(error: ReadError)

  /** The receive half as the reader sees it: the network hands over arbitrary chunks, empty
      ones included, and then the stream ends. */
  class RecvStream {
    var chunks: seq<seq<Byte>>
    const end: StreamEnd

    constructor (chunks: seq<seq<Byte>>, end: StreamEnd)
      ensures Bytes() == Concat(chunks) && this.end == end
    {
      this.chunks := chunks;
      this.end := end;
    }

    ghost function Bytes(): seq<Byte>
      reads this
    {
      Concat(chunks)
    }

    method ReadExact(n: nat) returns (r: ReadExact)
      modifies this
      ensures n <= |old(Bytes())| ==>
        r == Filled(old(Bytes())[..n]) && Bytes() == old(Bytes())[n..]
      ensures |old(Bytes())| < n ==>
        Bytes() == [] &&
        r == if end.Fin? then FinishedEarly(|old(Bytes())|) else ReadFailed(end.error)
    {
      var got: seq<Byte> := [];
      while |got| < n && chunks != []
        invariant |got| <= n
        invariant got + Bytes() == old(Bytes())
        decreases |chunks|, |Bytes()|
      {
        var chunk := chunks[0];
        var want := n - |got|;
        if |chunk| <= want {
          got := got + chunk;
          chunks := chunks[1..];
        } else {
          got := got + chunk[..want];
          chunks := [chunk[want..]] + chunks[1..];
          assert chunk == chunk[..want] + chunk[want..];
        }
      }
      if |got| == n {
        r := Filled(got);
      } else if end.Fin? {
        r := FinishedEarly(|got|);
      } else {
        r := ReadFailed(end.error);
      }
    }
  }

  /** `read_framed`: the payloads handed to `on_data`, in order, and the reason reported. */
  method ReadFramed(recv: RecvStream) returns (delivered: seq<seq<Byte>>, reason: Option<CloseReason>)
    modifies recv
    ensures ReadsAs(old(recv.Bytes()), recv.end, delivered, reason)
  {
    delivered := [];
    while true
      invariant old(recv.Bytes()) == Frames(delivered) + recv.Bytes()
      invariant Sendable(delivered)
      decreases |recv.Bytes()|
    {
      ghost var rest := recv.Bytes();
      var next := ReadFrame(recv);
      match next {
        case Payload(bytes) =>
          FramesSnoc(delivered, bytes, recv.Bytes());
          delivered := delivered + [bytes];
        case Ended(why) =>
          assert StopsAt(rest, recv.end, why);
          return delivered, why;
      }
    }
  }

  lemma FramesSnoc(payloads: seq<seq<Byte>>, payload: seq<Byte>, tail: seq<Byte>)
    ensures Frames(payloads + [payload]) + tail == Frames(payloads) + (Frame(payload) + tail)
  {
    FlatMapSnoc(Frame, payloads, payload);
  }

  datatype NextFrame = Payload(bytes: seq<Byte>) | Ended(reason: Option<CloseReason>)

  /** One pass of the reader's loop. */
  method ReadFrame(recv: RecvStream) returns (next: NextFrame)
    modifies recv
    ensures match next
            case Payload(bytes) =>
              |bytes| <= MAX_FRAME_SIZE && old(recv.Bytes()) == Frame(bytes) + recv.Bytes()
            case Ended(reason) => StopsAt(old(recv.Bytes()), recv.end, reason)
  {
    var prefix := recv.ReadExact(4);
    match prefix {
      case FinishedEarly(read) =>
        return Ended(if read == 0 then None else Some(StreamClosed(InHeader(read))));
      case ReadFailed(err) =>
        return Ended(ReadCloseReason(err));
      case Filled(header) =>
        var len := FromBe32(header);
        if len > MAX_FRAME_SIZE {
          return Ended(Some(StreamFrameTooLarge(len)));
        }
        var payload := recv.ReadExact(len);
        match payload {
          case Filled(bytes) =>
            ReframeHeader(header, bytes);
            return Payload(bytes);
          case FinishedEarly(read) =>
            return Ended(Some(StreamClosed(InFrame(read, len))));
          case ReadFailed(err) =>
            return Ended(ReadCloseReason(err));
        }
    }
  }

  /** A header that announces the payload's length is the header the writer would emit. */
  lemma ReframeHeader(header: seq<Byte>, payload: seq<Byte>)
    requires |header| == 4 && FromBe32(header) == |payload|
    ensures Frame(payload) == header + payload
  {
    var n := |payload|;
    var a: int, b: int, c: int := header[0], header[1], header[2];
    assert n / 0x100 == a * 0x1_0000 + b * 0x100 + c;
    assert n / 0x1_0000 == a * 0x100 + b;
    assert ToBe32(n) == header;
  }

  /** `read_raw`: unframed chunks are delivered verbatim, so together they are the stream. */
  method ReadRaw(recv: RecvStream) returns (delivered: seq<seq<Byte>>, reason: Option<CloseReason>)
    modifies recv
    ensures Concat(delivered) == old(recv.Bytes())
    ensures reason == None <==> recv.end.Fin? || ClosedOnPurpose(recv.end)
    ensures forall detail :: BrokeWith(recv.end, detail) ==> reason == Some(StreamClosed(Reported(detail)))
  {
    delivered := [];
    while recv.chunks != []
      invariant Concat(delivered) + recv.Bytes() == old(recv.Bytes())
      decreases |recv.chunks|
    {
      ConcatSnoc(delivered, recv.chunks[0]);
      delivered := delivered + [recv.chunks[0]];
      recv.chunks := recv.chunks[1..];
    }
    reason := if recv.end.Fin? then None else ReadCloseReason(recv.end.error);
  }

  lemma {:induction false} ConcatSnoc(chunks: seq<seq<Byte>>, chunk: seq<Byte>)
    ensures Concat(chunks + [chunk]) == Concat(chunks) + chunk
  {
    if chunks == [] {
      assert chunks + [chunk] == [chunk];
    } else {
      assert (chunks + [chunk])[1..] == chunks[1..] + [chunk];
      ConcatSnoc(chunks[1..], chunk);
    }
  }
}
