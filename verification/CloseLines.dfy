/** How an error crosses the bridge: tagged by `rust/iroh-rn-core/src/hybrid_iroh.rs`, read back
    by `src/errors.ts` and `src/streams.ts`. */
module CloseLines {
  import opened Base
  import opened Errors
  import opened Lines

  /** `IrohError` of the core; the details are arbitrary text. */
  datatype CoreError =
    | Internal(detail: string)
    | InvalidHandle(handle: nat)
    | InvalidTicket(detail: string)
    | InvalidPath(detail: string)
    | EndpointBind(detail: string)
    | BlobImport(detail: string)
    | BlobDownload(detail: string)
    | BlobExport(detail: string)
    | Cancelled
    | GossipSubscribe(detail: string)
    | GossipBroadcast(detail: string)
    | GossipMessageTooLarge(detail: string)
    | StreamListen(detail: string)
    | StreamConnect(detail: string)
    | StreamOpen(detail: string)
    | StreamSend(detail: string)
    | StreamClosed(detail: string)
    | StreamFrameTooLarge(detail: string)
    | StreamOverflow(detail: string)

  function Code(e: CoreError): nat
  {
    match e
    case Internal(_) => 1000
    case InvalidHandle(_) => 1001
    case InvalidTicket(_) => 1002
    case InvalidPath(_) => 1003
    case EndpointBind(_) => 2000
    case BlobImport(_) => 3000
    case BlobDownload(_) => 3001
    case BlobExport(_) => 3002
    case Cancelled => 3003
    case GossipSubscribe(_) => 4000
    case GossipBroadcast(_) => 4001
    case GossipMessageTooLarge(_) => 4002
    case StreamListen(_) => 5000
    case StreamConnect(_) => 5001
    case StreamOpen(_) => 5002
    case StreamSend(_) => 5003
    case StreamClosed(_) => 5004
    case StreamFrameTooLarge(_) => 5005
    case StreamOverflow(_) => 5006
  }

  function Display(e: CoreError): string
  {
    match e
    case Internal(d) => "internal error: " + d
    case InvalidHandle(h) => "invalid or stale handle: " + Decimal(h)
    case InvalidTicket(d) => "invalid blob ticket: " + d
    case InvalidPath(d) => "invalid path: " + d
    case EndpointBind(d) => "failed to create endpoint: " + d
    case BlobImport(d) => "failed to share blob: " + d
    case BlobDownload(d) => "failed to download blob: " + d
    case BlobExport(d) => "failed to export blob: " + d
    case Cancelled => "transfer cancelled"
    case GossipSubscribe(d) => "failed to subscribe to gossip topic: " + d
    case GossipBroadcast(d) => "failed to broadcast gossip message: " + d
    case GossipMessageTooLarge(d) => "gossip message too large: " + d
    case StreamListen(d) => "failed to listen on alpn: " + d
    case StreamConnect(d) => "failed to connect: " + d
    case StreamOpen(d) => "failed to open stream: " + d
    case StreamSend(d) => "failed to send on stream: " + d
    case StreamClosed(d) => "stream closed: " + d
    case StreamFrameTooLarge(d) => "stream frame too large: " + d
    case StreamOverflow(d) => "stream overflow: " + d
  }

  const OPENING := "[iroh:"

  function Tag(code: nat): string
  {
    OPENING + Decimal(code) + "]"
  }

  function EncodeError(e: CoreError): string
  {
    Tag(Code(e)) + " " + Display(e)
  }

  function EncodeClose(reason: Option<CoreError>): string
  {
    if reason.None? then "end" else "error " + EncodeError(reason.value)
  }

  // ---------------------------------------------------------------- reading it back

  function DigitRun(s: string): (n: nat)
    ensures n <= |s|
    ensures forall i :: 0 <= i < n ==> '0' <= s[i] <= '9'
    ensures n < |s| ==> !('0' <= s[n] <= '9')
  {
    if s == [] || !('0' <= s[0] <= '9') then 0 else 1 + DigitRun(s[1..])
  }

  /** The digits of a tag that `s` starts with. */
  function TagAtStart(s: string): (digits: Option<string>)
    ensures digits.Some? ==> AllDigits(digits.value) && OPENING + digits.value + "]" <= s
  {
    if !(OPENING <= s) then None
    else
      var n := DigitRun(s[|OPENING|..]);
      if n == 0 || |OPENING| + n >= |s| || s[|OPENING| + n] != ']' then None
      else
        assert s[..|OPENING|] == OPENING;
        assert s[..|OPENING| + n + 1] == OPENING + s[|OPENING|..][..n] + "]";
        Some(s[|OPENING|..][..n])
  }

  /** `/\[iroh:(\d+)\]/.exec`: the leftmost match. */
  function FindTag(s: string): (digits: Option<string>)
    ensures digits.Some? ==> AllDigits(digits.value)
  {
    if TagAtStart(s).Some? then TagAtStart(s)
    else if s == [] then None
    else FindTag(s[1..])
  }

  const KNOWN_CODES: set<nat> := {
    1000, 1001, 1002, 1003, 2000, 3000, 3001, 3002, 3003, 4000, 4001, 4002,
    5000, 5001, 5002, 5003, 5004, 5005, 5006
  }

  /** `IrohError.from` of a thrown `Error`: the message is kept, an untagged or unknown code
      becomes 1000. */
  function FromMessage(message: string): (e: IrohError)
    ensures e.message == message && e.code in KNOWN_CODES
  {
    var digits := FindTag(message);
    if digits.Some? && Number(digits.value) in KNOWN_CODES
    then IrohError(Number(digits.value), message)
    else IrohError(1000, message)
  }

  /** `None` for an orderly end. */
  function ParseCloseEvent(event: string): Option<IrohError>
  {
    var t := SplitTagged(event);
    if !t.delimited || t.tag != "error" then None else Some(FromMessage(t.rest))
  }

  // ---------------------------------------------------------------- which tag is found

  /** `s` starts with `[iroh:`, these digits and a closing bracket. */
  predicate StartsWithTag(s: string, digits: string)
  {
    AllDigits(digits) && OPENING + digits + "]" <= s
  }

  /** The same at position `i`. */
  predicate TagAt(s: string, i: nat, digits: string)
  {
    i <= |s| && StartsWithTag(s[i..], digits)
  }

  lemma {:induction false} DigitRunIs(digits: string, rest: string)
    requires forall i :: 0 <= i < |digits| ==> '0' <= digits[i] <= '9'
    requires rest != [] && !('0' <= rest[0] <= '9')
    ensures DigitRun(digits + rest) == |digits|
  {
    if digits == [] {
      assert digits + rest == rest;
    } else {
      DigitRunIs(digits[1..], rest);
      assert (digits + rest)[1..] == digits[1..] + rest;
    }
  }

  /** A tag, if it is there, is the one that is read. */
  lemma TagIsRead(s: string, digits: string)
    requires StartsWithTag(s, digits)
    ensures TagAtStart(s) == Some(digits)
  {
    var rest := s[|OPENING| + |digits|..];
    assert s[|OPENING|..|OPENING| + |digits|] == digits;
    assert s[|OPENING|..] == digits + rest;
    assert OPENING <= s by { assert s[..|OPENING|] == OPENING; }
    DigitRunIs(digits, rest);
    assert (digits + rest)[..|digits|] == digits;
  }

  lemma ReadTagIsThere(s: string)
    requires TagAtStart(s).Some?
    ensures StartsWithTag(s, TagAtStart(s).value)
  {
  }

  /** Moving along the string moves every tag along. */
  lemma TagInTail(s: string, j: nat, digits: string)
    requires s != []
    ensures TagAt(s, j + 1, digits) <==> TagAt(s[1..], j, digits)
  {
    if j + 1 <= |s| {
      assert s[j + 1..] == s[1..][j..];
    }
  }

  lemma NoTagInTail(s: string, i: nat)
    requires forall j: nat, d :: j < i + 1 ==> !TagAt(s, j, d)
    requires s != []
    ensures forall j: nat, d :: j < i ==> !TagAt(s[1..], j, d)
  {
    forall j: nat, d | j < i
      ensures !TagAt(s[1..], j, d)
    {
      TagInTail(s, j, d);
    }
  }

  /** The search finds the leftmost tag. */
  lemma {:induction false} LeftmostIsFound(s: string, i: nat, digits: string)
    requires TagAt(s, i, digits) && forall j: nat, d :: j < i ==> !TagAt(s, j, d)
    ensures FindTag(s) == Some(digits)
    decreases i
  {
    assert s[0..] == s;
    if i == 0 {
      TagIsRead(s, digits);
    } else {
      NothingAtTheStart(s);
      TagInTail(s, i - 1, digits);
      NoTagInTail(s, i - 1);
      LeftmostIsFound(s[1..], i - 1, digits);
    }
  }

  lemma NothingAtTheStart(s: string)
    requires forall d :: !TagAt(s, 0, d)
    ensures TagAtStart(s).None?
  {
    assert s[0..] == s;
    if TagAtStart(s).Some? {
      ReadTagIsThere(s);
      assert TagAt(s, 0, TagAtStart(s).value);
    }
  }

  lemma {:induction false} NothingIsFound(s: string)
    requires forall j: nat, d :: !TagAt(s, j, d)
    ensures FindTag(s) == None
    decreases |s|
  {
    NothingAtTheStart(s);
    if s != [] {
      forall j: nat, d
        ensures !TagAt(s[1..], j, d)
      {
        TagInTail(s, j, d);
      }
      NothingIsFound(s[1..]);
    }
  }

  /** The code of a message is the number in its leftmost tag, when that is a code the host knows. */
  lemma LeftmostTagIsTheCode(message: string, i: nat, digits: string)
    requires TagAt(message, i, digits) && forall j: nat, d :: j < i ==> !TagAt(message, j, d)
    ensures FromMessage(message) ==
            IrohError(if Number(digits) in KNOWN_CODES then Number(digits) else 1000, message)
  {
    LeftmostIsFound(message, i, digits);
  }

  /** A message without a tag is an internal error. */
  lemma UntaggedIsInternal(message: string)
    requires forall j: nat, d :: !TagAt(message, j, d)
    ensures FromMessage(message) == IrohError(1000, message)
  {
    NothingIsFound(message);
  }

  // ---------------------------------------------------------------- codes and kinds

  /** The kinds of the host's table. */
  function KindByCode(code: nat): (kind: string)
  {
    match code
    case 1000 => "internal"
    case 1001 => "invalid-handle"
    case 1002 => "invalid-ticket"
    case 1003 => "invalid-path"
    case 2000 => "endpoint-bind"
    case 3000 => "blob-import"
    case 3001 => "blob-download"
    case 3002 => "blob-export"
    case 3003 => "cancelled"
    case 4000 => "gossip-subscribe"
    case 4001 => "gossip-broadcast"
    case 4002 => "gossip-message-too-large"
    case 5000 => "stream-listen"
    case 5001 => "stream-connect"
    case 5002 => "stream-open"
    case 5003 => "stream-send"
    case 5004 => "stream-closed"
    case 5005 => "stream-frame-too-large"
    case 5006 => "stream-overflow"
    case _ => ""
  }

  /** The two tables, one on each side of the bridge, agree: the code of a core error has the kind
      of that name in the host. */
  lemma GeneralKinds(detail: string, handle: nat)
    ensures KindByCode(Code(Internal(detail))) == "internal"
    ensures KindByCode(Code(InvalidHandle(handle))) == "invalid-handle"
    ensures KindByCode(Code(InvalidTicket(detail))) == "invalid-ticket"
    ensures KindByCode(Code(InvalidPath(detail))) == "invalid-path"
    ensures KindByCode(Code(EndpointBind(detail))) == "endpoint-bind"
  {
  }

  lemma BlobKinds(detail: string)
    ensures KindByCode(Code(BlobImport(detail))) == "blob-import"
    ensures KindByCode(Code(BlobDownload(detail))) == "blob-download"
    ensures KindByCode(Code(BlobExport(detail))) == "blob-export"
    ensures KindByCode(Code(Cancelled)) == "cancelled"
  {
  }

  lemma GossipKinds(detail: string)
    ensures KindByCode(Code(GossipSubscribe(detail))) == "gossip-subscribe"
    ensures KindByCode(Code(GossipBroadcast(detail))) == "gossip-broadcast"
    ensures KindByCode(Code(GossipMessageTooLarge(detail))) == "gossip-message-too-large"
  {
  }

  lemma StreamKinds(detail: string)
    ensures KindByCode(Code(StreamListen(detail))) == "stream-listen"
    ensures KindByCode(Code(StreamConnect(detail))) == "stream-connect"
    ensures KindByCode(Code(StreamOpen(detail))) == "stream-open"
    ensures KindByCode(Code(StreamSend(detail))) == "stream-send"
    ensures KindByCode(Code(StreamClosed(detail))) == "stream-closed"
    ensures KindByCode(Code(StreamFrameTooLarge(detail))) == "stream-frame-too-large"
    ensures KindByCode(Code(StreamOverflow(detail))) == "stream-overflow"
  {
  }

  /** A code is known to the host exactly when its table has a kind for it. */
  lemma KnownCodesHaveKinds(code: nat)
    ensures code in KNOWN_CODES <==> KindByCode(code) != ""
  {
  }

  lemma CodesAreKnown(e: CoreError)
    ensures Code(e) in KNOWN_CODES
  {
  }

  /** A rejection keeps its code and its whole text, whatever the text goes on to say: a second
      tag inside the detail is never mistaken for the code. */
  lemma RejectionKeepsItsCode(e: CoreError)
    ensures FromMessage(EncodeError(e)) == IrohError(Code(e), EncodeError(e))
  {
    assert EncodeError(e) == Tag(Code(e)) + (" " + Display(e));
    assert EncodeError(e)[0..] == EncodeError(e);
    assert TagAt(EncodeError(e), 0, Decimal(Code(e)));
    LeftmostTagIsTheCode(EncodeError(e), 0, Decimal(Code(e)));
    NumberOfDecimal(Code(e));
    CodesAreKnown(e);
  }

  /** The close line gives back exactly the reason: an orderly end for none, and otherwise the same
      code for every error with any detail. */
  lemma CloseReasonRoundTrip(reason: Option<CoreError>)
    ensures ParseCloseEvent(EncodeClose(reason)) ==
            if reason.None? then None
            else Some(IrohError(Code(reason.value), EncodeError(reason.value)))
  {
    if reason.None? {
      SplitIsExact("end");
    } else {
      assert EncodeClose(reason) == "error" + " " + EncodeError(reason.value);
      TaggedRoundTrip("error", EncodeError(reason.value));
      RejectionKeepsItsCode(reason.value);
    }
  }
}
