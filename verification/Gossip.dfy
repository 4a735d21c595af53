/** Gossip subscriptions (`src/gossip.ts`): the native join, queued broadcasts and teardown racing
    each other, and the tagged lines the native side sends. */
module Gossip {
  import opened Base
  import opened Errors
  import opened Lines
  import opened AsyncKernel
  import opened MessageQueues

  // ---------------------------------------------------------------- the lines

  datatype Message = Message(from: string, text: string)

  /** An undelimited line is text from an unknown sender. */
  function ParseMessage(line: string): Message
  {
    var t := SplitTagged(line);
    if t.delimited then Message(t.tag, t.rest) else Message("", line)
  }

  /** No message text is ever lost: sender and text can be put back together into the line. */
  lemma NoTextIsLost(line: string, id: string, text: string)
    ensures var m := ParseMessage(line);
      line == m.text || line == m.from + " " + m.text
    ensures ' ' !in id ==> ParseMessage(id + " " + text) == Message(id, text)
  {
    SplitIsExact(line);
    if ' ' !in id {
      TaggedRoundTrip(id, text);
    }
  }

  // ---------------------------------------------------------------- the subscription

  datatype Neighbor = Neighbor(up: bool, endpointId: string)

  /** The `ready` promise; `joined` follows it. */
  datatype Ready = Unsettled | Resolved(id: nat) | Rejected(error: IrohError)

  /** What became of a `broadcast()` call; one that is `Waiting` awaits `ready`. */
  datatype Fate = Waiting | SentWith(id: nat) | Refused(error: IrohError)

  /** What the native side has said about the join; it says it once. */
  datatype Join = Joining | Started | JoinFailed

  /** `left` says that `unsubscribe()` took effect. `queued` are the broadcasts that had to wait,
      `released` the native unsubscribes, `dropped` the `onDispose` calls. */
  datatype Sub = Sub(
    subId: Option<nat>,
    disposed: bool,
    left: bool,
    ready: Ready,
    join: Join,
    messages: Queue<Message, IrohError>,
    neighbors: Queue<Neighbor, IrohError>,
    fates: map<nat, Fate>,
    queued: set<nat>,
    issued: nat,
    released: seq<nat>,
    dropped: nat)

  datatype GossipEvent =
    | OnStart(id: nat)
    | OnMessage(line: string)
    | OnNeighbor(line: string)
    | Broadcast
    | Continue(call: nat)            // the continuation of a broadcast that awaited `ready`
    | Unsubscribe
    | NextMessage
    | BreakMessages
    | NextNeighbor
    | BreakNeighbors

  const ENDED_EARLY := IrohError(1001, "gossip subscription ended before it started")

  function NewSub(capacity: Option<int>): Sub
  {
    Sub(None, false, false, Unsettled, Joining, MessageQueues.Create(capacity), MessageQueues.Create(None),
        map[], {}, 0, [], 0)
  }

  function SettleReady(s: Sub, ready: Ready): Sub
  {
    if s.ready.Unsettled? then s.(ready := ready) else s
  }

  function CloseQueues(s: Sub, error: Option<IrohError>): Sub
  {
    s.(messages := Closed(s.messages, error).0, neighbors := Closed(s.neighbors, error).0, dropped := s.dropped + 1)
  }

  function Unsubscribed(s: Sub): Sub
  {
    if s.disposed then s
    else
      var s1 := s.(disposed := true, left := true);
      CloseQueues(if s.subId.Some? then s1.(released := s.released + [s.subId.value])
                  else SettleReady(s1, Rejected(ENDED_EARLY)), None)
  }

  function StartArrives(s: Sub, id: nat): Sub
  {
    var s1 := s.(subId := Some(id), join := Started);
    if s.disposed then s1.(released := s.released + [id]) else SettleReady(s1, Resolved(id))
  }

  function JoinFails(s: Sub, message: string): Sub
  {
    var error := IrohError(4000, message);
    if s.disposed then s else CloseQueues(SettleReady(s.(disposed := true), Rejected(error)), Some(error))
  }

  predicate IsJoinError(line: string)
  {
    SplitTagged(line).delimited && SplitTagged(line).tag == "error"
  }

  function NeighborArrives(s: Sub, line: string): Sub
  {
    var t := SplitTagged(line);
    if line == "lagged" then s.(messages := Marked(s.messages).0)
    else if IsJoinError(line) then JoinFails(s.(join := JoinFailed), t.rest)
    else if t.delimited && (t.tag == "up" || t.tag == "down") then
      s.(neighbors := Pushed(s.neighbors, Neighbor(t.tag == "up", t.rest)).0)
    else s
  }

  function Broadcasting(s: Sub): Sub
  {
    var s1 := s.(issued := s.issued + 1);
    if s.subId.Some? then s1.(fates := s.fates[s.issued := SentWith(s.subId.value)])
    else s1.(fates := s.fates[s.issued := Waiting], queued := s.queued + {s.issued})
  }

  function Continued(s: Sub, call: nat): Option<Sub>
  {
    if call !in s.fates || !s.fates[call].Waiting? || s.ready.Unsettled? then None
    else Some(s.(fates := s.fates[call := if s.ready.Resolved? then SentWith(s.ready.id) else Refused(s.ready.error)]))
  }

  /** The native side reports a start or a join error, never both and never twice. */
  predicate Allowed(s: Sub, e: GossipEvent)
  {
    (e.OnStart? || (e.OnNeighbor? && IsJoinError(e.line)) ==> s.join.Joining?)
  }

  function Happen(s: Sub, e: GossipEvent): Option<Sub>
  {
    if !Allowed(s, e) then None
    else match e
      case OnStart(id) => Some(StartArrives(s, id))
      case OnMessage(line) => Some(s.(messages := Pushed(s.messages, ParseMessage(line)).0))
      case OnNeighbor(line) => Some(NeighborArrives(s, line))
      case Broadcast => Some(Broadcasting(s))
      case Continue(call) => Continued(s, call)
      case Unsubscribe => Some(Unsubscribed(s))
      case NextMessage => Some(s.(messages := Nexted(s.messages).0))
      case BreakMessages => Some(s.(messages := Closed(s.messages, None).0))
      case NextNeighbor => Some(s.(neighbors := Nexted(s.neighbors).0))
      case BreakNeighbors => Some(s.(neighbors := Closed(s.neighbors, None).0))
  }

  function After(capacity: Option<int>, events: seq<GossipEvent>): Option<Sub>
  {
    if events == [] then Some(NewSub(capacity))
    else
      var before := After(capacity, events[..|events| - 1]);
      if before.None? then None else Happen(before.value, events[|events| - 1])
  }

  // ---------------------------------------------------------------- what decides the join

  /** What settles `ready`: the first of the start, the join error and the unsubscribe. */
  function Verdict(events: seq<GossipEvent>): Ready
  {
    if events == [] then Unsettled
    else
      var earlier := Verdict(events[..|events| - 1]);
      if !earlier.Unsettled? then earlier
      else
        match events[|events| - 1]
        case OnStart(id) => Resolved(id)
        case OnNeighbor(line) =>
          if IsJoinError(line) then Rejected(IrohError(4000, SplitTagged(line).rest)) else Unsettled
        case Unsubscribe => Rejected(ENDED_EARLY)
        case _ => Unsettled
  }

  function StartOf(e: GossipEvent): seq<nat>
  {
    if e.OnStart? then [e.id] else []
  }

  predicate Failed(events: seq<GossipEvent>)
  {
    exists i :: 0 <= i < |events| && events[i].OnNeighbor? && IsJoinError(events[i].line)
  }

  ghost predicate SubInv(s: Sub, verdict: Ready)
  {
    && s.ready == verdict
    && (s.subId.Some? <==> s.join.Started?)
    && (s.disposed <==> s.left || (s.join.JoinFailed? && s.ready.Rejected?))
    && (s.ready.Unsettled? <==> s.join.Joining? && !s.disposed)
    && (s.ready.Resolved? ==> s.subId == Some(s.ready.id))
    && s.released == (if s.left && s.subId.Some? then [s.subId.value] else [])
    && s.dropped == (if s.disposed then 1 else 0)
    && (s.disposed ==> IsClosed(s.messages) && IsClosed(s.neighbors))
  }

  ghost predicate FateOk(s: Sub, k: nat)
    requires k in s.fates
  {
    match s.fates[k]
    case Waiting => k in s.queued
    case SentWith(id) => s.subId == Some(id) && (k in s.queued ==> s.ready == Resolved(id))
    case Refused(error) => k in s.queued && s.ready == Rejected(error)
  }

  ghost predicate BroadcastsOk(s: Sub)
  {
    && (forall k: nat :: k in s.fates <==> k < s.issued)
    && s.queued <= s.fates.Keys
    && (forall k {:trigger FateOk(s, k)} :: k in s.fates ==> FateOk(s, k))
  }

  lemma VerdictSnoc(events: seq<GossipEvent>, e: GossipEvent)
    ensures Verdict(events + [e]) == if !Verdict(events).Unsettled? then Verdict(events) else Verdict([e])
  {
    assert (events + [e])[..|events + [e]| - 1] == events;
    assert [e][..0] == [];
  }

  lemma StepKeepsSub(s: Sub, e: GossipEvent, verdict: Ready)
    requires SubInv(s, verdict) && Happen(s, e).Some?
    ensures SubInv(Happen(s, e).value, if !verdict.Unsettled? then verdict else Verdict([e]))
  {
    assert [e][..0] == [];
  }

  /** Broadcasts in flight do not notice the other events, which leave what is settled alone. */
  lemma OtherStepsKeepBroadcasts(s: Sub, s': Sub)
    requires BroadcastsOk(s)
    requires s'.fates == s.fates && s'.queued == s.queued && s'.issued == s.issued
    requires s.subId.Some? ==> s'.subId == s.subId
    requires !s.ready.Unsettled? ==> s'.ready == s.ready
    ensures BroadcastsOk(s')
  {
    forall k | k in s'.fates ensures FateOk(s', k) { assert FateOk(s, k); }
  }

  lemma BroadcastingKeepsBroadcasts(s: Sub)
    requires BroadcastsOk(s)
    ensures BroadcastsOk(Broadcasting(s))
  {
    var s' := Broadcasting(s);
    forall k | k in s'.fates ensures FateOk(s', k) {
      if k in s.fates { assert FateOk(s, k); }
    }
  }

  lemma ContinuingKeepsBroadcasts(s: Sub, call: nat)
    requires BroadcastsOk(s) && Continued(s, call).Some? && (s.ready.Resolved? ==> s.subId == Some(s.ready.id))
    ensures BroadcastsOk(Continued(s, call).value)
  {
    var s' := Continued(s, call).value;
    forall k | k in s'.fates ensures FateOk(s', k) {
      assert FateOk(s, k);
    }
  }

  lemma LineLeavesBroadcasts(s: Sub, line: string)
    ensures var s' := NeighborArrives(s, line);
      && s'.fates == s.fates && s'.queued == s.queued && s'.issued == s.issued && s'.subId == s.subId
      && (!s.ready.Unsettled? ==> s'.ready == s.ready)
  {
  }

  lemma OtherEventsLeaveBroadcasts(s: Sub, e: GossipEvent, verdict: Ready)
    requires SubInv(s, verdict) && Happen(s, e).Some? && !e.Broadcast? && !e.Continue?
    ensures var s' := Happen(s, e).value;
      && s'.fates == s.fates && s'.queued == s.queued && s'.issued == s.issued
      && (s.subId.Some? ==> s'.subId == s.subId)
      && (!s.ready.Unsettled? ==> s'.ready == s.ready)
  {
    if e.OnNeighbor? {
      LineLeavesBroadcasts(s, e.line);
    }
  }

  lemma StepKeepsBroadcasts(s: Sub, e: GossipEvent, verdict: Ready)
    requires SubInv(s, verdict) && BroadcastsOk(s) && Happen(s, e).Some?
    ensures BroadcastsOk(Happen(s, e).value)
  {
    if e.Broadcast? {
      BroadcastingKeepsBroadcasts(s);
    } else if e.Continue? {
      ContinuingKeepsBroadcasts(s, e.call);
    } else {
      OtherEventsLeaveBroadcasts(s, e, verdict);
      OtherStepsKeepBroadcasts(s, Happen(s, e).value);
    }
  }

  lemma {:induction false} RunKeepsInv(capacity: Option<int>, events: seq<GossipEvent>)
    requires After(capacity, events).Some?
    ensures SubInv(After(capacity, events).value, Verdict(events)) && BroadcastsOk(After(capacity, events).value)
  {
    if events != [] {
      var init, last := events[..|events| - 1], events[|events| - 1];
      var s := After(capacity, init).value;
      RunKeepsInv(capacity, init);
      assert events == init + [last];
      VerdictSnoc(init, last);
      StepKeepsSub(s, last, Verdict(init));
      StepKeepsBroadcasts(s, last, Verdict(init));
    }
  }

  // ---------------------------------------------------------------- the theorems

  function StartIds(events: seq<GossipEvent>): seq<nat>
  {
    FlatMap(StartOf, events)
  }

  function IdOf(s: Sub): seq<nat>
  {
    if s.subId.Some? then [s.subId.value] else []
  }

  lemma StepStarts(s: Sub, e: GossipEvent, verdict: Ready)
    requires SubInv(s, verdict) && Happen(s, e).Some?
    ensures IdOf(Happen(s, e).value) == IdOf(s) + StartOf(e)
  {
  }

  lemma {:induction false} SubIdIsTheStart(capacity: Option<int>, events: seq<GossipEvent>)
    requires After(capacity, events).Some?
    ensures StartIds(events) == IdOf(After(capacity, events).value)
  {
    if events != [] {
      var init, last := events[..|events| - 1], events[|events| - 1];
      SubIdIsTheStart(capacity, init);
      RunKeepsInv(capacity, init);
      StepStarts(After(capacity, init).value, last, Verdict(init));
    }
  }

  /** `joined` settles once and as the first of start, join error and unsubscribe says. `onDispose`
      has run exactly once when the subscription is torn down, and both streams have ended. */
  lemma JoinSettlesAsTheFirstSays(capacity: Option<int>, events: seq<GossipEvent>)
    requires After(capacity, events).Some?
    ensures var s := After(capacity, events).value;
      && s.ready == Verdict(events)
      && s.dropped == (if s.disposed then 1 else 0)
      && (s.disposed ==> IsClosed(s.messages) && IsClosed(s.neighbors))
      && (Unsubscribe in events || Failed(events) ==> s.disposed)
  {
    RunKeepsInv(capacity, events);
    Leaving(capacity, events);
  }

  lemma StepLeaves(s: Sub, e: GossipEvent)
    requires Happen(s, e).Some?
    ensures var s' := Happen(s, e).value;
      && (s'.left <==> s.left || (e == Unsubscribe && !s.disposed))
      && (s'.disposed <==> s.disposed || e == Unsubscribe || (e.OnNeighbor? && IsJoinError(e.line) && e.line != "lagged"))
      && (e.OnNeighbor? && IsJoinError(e.line) && e.line != "lagged" ==> s.join.Joining? && s'.join.JoinFailed?)
      && (!(e.OnNeighbor? && IsJoinError(e.line) && e.line != "lagged") && !e.OnStart? ==> s'.join == s.join)
      && (e.OnStart? ==> s.join.Joining? && s'.join.Started?)
  {
  }

  ghost predicate LeavingOk(s: Sub, unsubscribed: bool, failed: bool)
  {
    && (unsubscribed && !failed ==> s.left)
    && (unsubscribed ==> s.disposed)
    && (s.left ==> unsubscribed)
    && (failed <==> s.join.JoinFailed?)
  }

  lemma StepKeepsLeaving(s: Sub, e: GossipEvent, verdict: Ready, unsubscribed: bool, failed: bool)
    requires SubInv(s, verdict) && LeavingOk(s, unsubscribed, failed) && Happen(s, e).Some?
    ensures LeavingOk(Happen(s, e).value, unsubscribed || e == Unsubscribe,
                      failed || (e.OnNeighbor? && IsJoinError(e.line)))
  {
    NotLaggedAndError();
    StepLeaves(s, e);
  }

  lemma {:induction false} Leaving(capacity: Option<int>, events: seq<GossipEvent>)
    requires After(capacity, events).Some?
    ensures LeavingOk(After(capacity, events).value, Unsubscribe in events, Failed(events))
  {
    if events != [] {
      var init, last := events[..|events| - 1], events[|events| - 1];
      Leaving(capacity, init);
      RunKeepsInv(capacity, init);
      HappenedSnoc(init, last);
      assert events == init + [last];
      StepKeepsLeaving(After(capacity, init).value, last, Verdict(init), Unsubscribe in init, Failed(init));
    }
  }

  lemma HappenedSnoc(events: seq<GossipEvent>, e: GossipEvent)
    ensures Unsubscribe in events + [e] <==> Unsubscribe in events || e == Unsubscribe
    ensures Failed(events + [e]) <==> Failed(events) || (e.OnNeighbor? && IsJoinError(e.line))
  {
    var all := events + [e];
    if Failed(events) {
      var i :| 0 <= i < |events| && events[i].OnNeighbor? && IsJoinError(events[i].line);
      assert all[i] == events[i];
    }
    if e.OnNeighbor? && IsJoinError(e.line) {
      assert all[|events|] == e;
    }
  }

  /** A subscription that was both started and unsubscribed, in whichever order, has been
      unsubscribed natively exactly once, with its own id; any other has not been. */
  lemma NativeUnsubscribeExactlyOnce(capacity: Option<int>, events: seq<GossipEvent>)
    requires After(capacity, events).Some?
    ensures |StartIds(events)| <= 1
    ensures After(capacity, events).value.released ==
            if Unsubscribe in events then StartIds(events) else []
  {
    RunKeepsInv(capacity, events);
    SubIdIsTheStart(capacity, events);
    Leaving(capacity, events);
  }

  /** A broadcast is sent with the subscription's own id or not at all. One that was queued before
      the id arrived follows `ready`: sent with the id it resolved to, refused with its error, or
      still waiting, and then only until its continuation runs once the join is decided. */
  lemma BroadcastsFollowTheJoin(capacity: Option<int>, events: seq<GossipEvent>, call: nat)
    requires After(capacity, events).Some? && call < After(capacity, events).value.issued
    ensures var s := After(capacity, events).value;
      && call in s.fates
      && (s.fates[call].SentWith? ==> StartIds(events) == [s.fates[call].id])
      && (s.fates[call].Refused? ==> Verdict(events) == Rejected(s.fates[call].error))
      && (call in s.queued && s.fates[call].SentWith? ==> Verdict(events) == Resolved(s.fates[call].id))
      && (s.fates[call].Waiting? ==>
            call in s.queued &&
            (Happen(s, Continue(call)).Some? <==> StartIds(events) != [] || Unsubscribe in events || Failed(events)))
  {
    var s := After(capacity, events).value;
    RunKeepsInv(capacity, events);
    SubIdIsTheStart(capacity, events);
    Leaving(capacity, events);
    assert FateOk(s, call);
  }

  /** Each broadcast gets its answer once: it never changes afterwards. */
  lemma {:induction false} FateIsFinal(s: Sub, e: GossipEvent, call: nat)
    requires BroadcastsOk(s) && Happen(s, e).Some? && call in s.fates && !s.fates[call].Waiting?
    ensures call in Happen(s, e).value.fates && Happen(s, e).value.fates[call] == s.fates[call]
  {
    assert call < s.issued;
  }

  // ---------------------------------------------------------------- the streams behind it

  /** What the message queue is asked to do by one event. */
  function MessageUse(s: Sub, e: GossipEvent): seq<MessageQueues.Event<Message, IrohError>>
  {
    match e
    case OnMessage(line) => [MessageQueues.Push(ParseMessage(line))]
    case OnNeighbor(line) =>
      if line == "lagged" then [MessageQueues.MarkLagged]
      else if IsJoinError(line) && !s.disposed then
        [MessageQueues.Close(Some(IrohError(4000, SplitTagged(line).rest)))]
      else []
    case Unsubscribe => if s.disposed then [] else [MessageQueues.Close(None)]
    case NextMessage => [MessageQueues.Next]
    case BreakMessages => [MessageQueues.Return]
    case _ => []
  }

  function MessageUses(capacity: Option<int>, events: seq<GossipEvent>): seq<MessageQueues.Event<Message, IrohError>>
    requires After(capacity, events).Some?
  {
    if events == [] then []
    else
      var init := events[..|events| - 1];
      MessageUses(capacity, init) + MessageUse(After(capacity, init).value, events[|events| - 1])
  }

  lemma RunOne<T>(q: Queue<T, IrohError>, uses: seq<MessageQueues.Event<T, IrohError>>,
                  more: seq<MessageQueues.Event<T, IrohError>>)
    requires |more| <= 1
    ensures MessageQueues.Run(q, uses + more).0 ==
            if more == [] then MessageQueues.Run(q, uses).0
            else MessageQueues.Step(MessageQueues.Run(q, uses).0, more[0]).0
  {
    if more == [] {
      assert uses + more == uses;
    } else {
      assert (uses + more)[..|uses + more| - 1] == uses;
    }
  }

  lemma NotLaggedAndError()
    ensures !IsJoinError("lagged")
  {
    SplitIsExact("lagged");
  }

  ghost predicate UsesAre<T>(q: Queue<T, IrohError>, use: seq<MessageQueues.Event<T, IrohError>>, q': Queue<T, IrohError>)
  {
    |use| <= 1 && q' == if use == [] then q else MessageQueues.Step(q, use[0]).0
  }

  lemma NeighborUsesMessages(s: Sub, line: string)
    ensures UsesAre(s.messages, MessageUse(s, OnNeighbor(line)), NeighborArrives(s, line).messages)
  {
  }

  lemma StepUsesMessages(s: Sub, e: GossipEvent)
    requires Happen(s, e).Some?
    ensures UsesAre(s.messages, MessageUse(s, e), Happen(s, e).value.messages)
  {
    if e.OnNeighbor? {
      NeighborUsesMessages(s, e.line);
    }
  }

  /** The `messages` stream is one bounded queue fed with the parsed lines, so everything proved
      of every run of such a queue holds of it. */
  lemma {:induction false} MessagesAreAQueueRun(capacity: Option<int>, events: seq<GossipEvent>)
    requires After(capacity, events).Some?
    ensures After(capacity, events).value.messages ==
            MessageQueues.Run(MessageQueues.Create(capacity), MessageUses(capacity, events)).0
  {
    if events != [] {
      var init, last := events[..|events| - 1], events[|events| - 1];
      MessagesAreAQueueRun(capacity, init);
      StepUsesMessages(After(capacity, init).value, last);
      RunOne(MessageQueues.Create(capacity), MessageUses(capacity, init), MessageUse(After(capacity, init).value, last));
    }
  }

  /** `"up <id>"` and `"down <id>"`. */
  function ParseNeighbor(line: string): Option<Neighbor>
  {
    var t := SplitTagged(line);
    if t.delimited && t.tag == "up" then Some(Neighbor(true, t.rest))
    else if t.delimited && t.tag == "down" then Some(Neighbor(false, t.rest))
    else None
  }

  /** A neighbour line is one of the two, and gives back whether the peer came or went, and its id,
      whatever that contains; every other line is no neighbour event. */
  lemma NeighborLines(line: string, id: string)
    ensures ParseNeighbor("up " + id) == Some(Neighbor(true, id))
    ensures ParseNeighbor("down " + id) == Some(Neighbor(false, id))
    ensures ParseNeighbor(line).Some? <==>
            var n := SplitTagged(line).rest; line == "up " + n || line == "down " + n
  {
    TaggedRoundTrip("up", id);
    assert "up" + " " + id == "up " + id;
    TaggedRoundTrip("down", id);
    assert "down" + " " + id == "down " + id;
    SplitIsExact(line);
    var n := SplitTagged(line).rest;
    TaggedRoundTrip("up", n);
    assert "up" + " " + n == "up " + n;
    TaggedRoundTrip("down", n);
    assert "down" + " " + n == "down " + n;
  }

  /** Torn down: left, or the join has failed. */
  predicate Over(events: seq<GossipEvent>)
  {
    events != [] &&
    var last := events[|events| - 1];
    Over(events[..|events| - 1]) || last.Unsubscribe? || (last.OnNeighbor? && IsJoinError(last.line))
  }

  /** What the neighbour queue is asked to do by one event. */
  function NeighborUse(over: bool, e: GossipEvent): seq<MessageQueues.Event<Neighbor, IrohError>>
  {
    match e
    case OnNeighbor(line) =>
      if ParseNeighbor(line).Some? then [MessageQueues.Push(ParseNeighbor(line).value)]
      else if IsJoinError(line) && !over then
        [MessageQueues.Close(Some(IrohError(4000, SplitTagged(line).rest)))]
      else []
    case Unsubscribe => if over then [] else [MessageQueues.Close(None)]
    case NextNeighbor => [MessageQueues.Next]
    case BreakNeighbors => [MessageQueues.Return]
    case _ => []
  }

  function NeighborUses(events: seq<GossipEvent>): seq<MessageQueues.Event<Neighbor, IrohError>>
  {
    if events == [] then []
    else
      var init := events[..|events| - 1];
      NeighborUses(init) + NeighborUse(Over(init), events[|events| - 1])
  }

  lemma TagsDiffer(tag: string)
    ensures tag == "up" ==> tag != "down" && tag != "error"
    ensures tag == "down" ==> tag != "error"
  {
    assert |"up"| == 2 && |"down"| == 4 && |"error"| == 5;
  }

  lemma LaggedIsNoTag()
    ensures !SplitTagged("lagged").delimited
  {
    SplitIsExact("lagged");
  }

  /** The four kinds of line exclude each other. */
  lemma LineKinds(line: string)
    ensures line == "lagged" ==> ParseNeighbor(line).None? && !IsJoinError(line)
    ensures IsJoinError(line) ==> ParseNeighbor(line).None?
    ensures var t := SplitTagged(line);
      ParseNeighbor(line) ==
        if t.delimited && (t.tag == "up" || t.tag == "down") then Some(Neighbor(t.tag == "up", t.rest)) else None
  {
    LaggedIsNoTag();
    TagsDiffer(SplitTagged(line).tag);
  }

  lemma LineUsesNeighbors(s: Sub, line: string)
    ensures UsesAre(s.neighbors, NeighborUse(s.disposed, OnNeighbor(line)), NeighborArrives(s, line).neighbors)
    ensures NeighborArrives(s, line).disposed == (s.disposed || IsJoinError(line))
  {
    LineKinds(line);
  }

  lemma StepUsesNeighbors(s: Sub, e: GossipEvent)
    requires Happen(s, e).Some?
    ensures UsesAre(s.neighbors, NeighborUse(s.disposed, e), Happen(s, e).value.neighbors)
    ensures Happen(s, e).value.disposed == (s.disposed || e.Unsubscribe? || (e.OnNeighbor? && IsJoinError(e.line)))
  {
    if e.OnNeighbor? {
      LineUsesNeighbors(s, e.line);
    }
  }

  /** The `neighbors` stream is one bounded queue fed with the neighbour lines, ended as the
      subscription is, and the subscription is over exactly once it was left or its join failed. */
  lemma {:induction false} NeighborsAreAQueueRun(capacity: Option<int>, events: seq<GossipEvent>)
    requires After(capacity, events).Some?
    ensures After(capacity, events).value.neighbors ==
            MessageQueues.Run(MessageQueues.Create(None), NeighborUses(events)).0
    ensures After(capacity, events).value.disposed <==> Over(events)
  {
    if events != [] {
      var init, last := events[..|events| - 1], events[|events| - 1];
      NeighborsAreAQueueRun(capacity, init);
      StepUsesNeighbors(After(capacity, init).value, last);
      RunOne(MessageQueues.Create(None), NeighborUses(init), NeighborUse(Over(init), last));
    }
  }

  /** How many broadcasts were made, and which of them before the subscription had its id. */
  function Broadcasts(events: seq<GossipEvent>): nat
  {
    if events == [] then 0
    else Broadcasts(events[..|events| - 1]) + if events[|events| - 1].Broadcast? then 1 else 0
  }

  function Early(events: seq<GossipEvent>): set<nat>
  {
    if events == [] then {}
    else
      var init := events[..|events| - 1];
      Early(init) + if events[|events| - 1].Broadcast? && StartIds(init) == [] then {Broadcasts(init)} else {}
  }

  lemma StepQueues(s: Sub, e: GossipEvent)
    requires Happen(s, e).Some?
    ensures Happen(s, e).value.issued == s.issued + if e.Broadcast? then 1 else 0
    ensures Happen(s, e).value.queued == s.queued + if e.Broadcast? && s.subId.None? then {s.issued} else {}
  {
  }

  lemma {:induction false} QueuedAreTheEarly(capacity: Option<int>, events: seq<GossipEvent>)
    requires After(capacity, events).Some?
    ensures After(capacity, events).value.issued == Broadcasts(events)
    ensures After(capacity, events).value.queued == Early(events)
  {
    if events != [] {
      var init, last := events[..|events| - 1], events[|events| - 1];
      QueuedAreTheEarly(capacity, init);
      SubIdIsTheStart(capacity, init);
      StepQueues(After(capacity, init).value, last);
    }
  }

  /** A broadcast waits for the join if and only if it was made before the subscription had its id;
      any other has gone out at once, with that id. */
  lemma OnlyEarlyBroadcastsWait(capacity: Option<int>, events: seq<GossipEvent>, call: nat)
    requires After(capacity, events).Some? && call < Broadcasts(events)
    ensures var s := After(capacity, events).value;
      && call in s.fates
      && (call !in Early(events) ==> StartIds(events) != [] && s.fates[call] == SentWith(StartIds(events)[0]))
      && (s.fates[call].Waiting? || s.fates[call].Refused? ==> call in Early(events))
  {
    RunKeepsInv(capacity, events);
    SubIdIsTheStart(capacity, events);
    QueuedAreTheEarly(capacity, events);
    assert FateOk(After(capacity, events).value, call);
  }

  // ---------------------------------------------------------------- the class

  class GossipSubscriptionController {
    const messageQueue: MessageQueue<Message, IrohError>
    const neighborQueue: MessageQueue<Neighbor, IrohError>
    var subId: Option<nat>
    var disposed: bool
    var ready: Ready
    /** The native unsubscribes and `onDispose` calls made. */
    var released: seq<nat>
    var dropped: nat
    ghost var left: bool
    ghost var join: Join

    constructor (capacity: Option<int>)
      ensures fresh(messageQueue) && fresh(messageQueue.consumers)
      ensures fresh(neighborQueue) && fresh(neighborQueue.consumers)
      ensures State() == NewSub(capacity)
    {
      messageQueue := new MessageQueue<Message, IrohError>(capacity);
      neighborQueue := new MessageQueue<Neighbor, IrohError>(None);
      subId, disposed, ready, released, dropped := None, false, Unsettled, [], 0;
      left, join := false, Joining;
    }

    /** Everything but the broadcasts in flight, which live in their own continuations. */
    ghost function State(): Sub
      reads this, messageQueue, messageQueue.consumers, neighborQueue, neighborQueue.consumers
    {
      Sub(subId, disposed, left, ready, join, messageQueue.State(), neighborQueue.State(),
          map[], {}, 0, released, dropped)
    }

    /** `resolveReady` and `rejectReady`: a promise settles once. */
    method SettleReadyWith(outcome: Ready)
      modifies this`ready
      ensures ready == if old(ready).Unsettled? then outcome else old(ready)
    {
      if ready.Unsettled? {
        ready := outcome;
      }
    }

    method CloseBoth(error: Option<IrohError>)
      modifies this`dropped, messageQueue, messageQueue.consumers, neighborQueue, neighborQueue.consumers
      ensures State() == CloseQueues(old(State()), error)
    {
      var ended := messageQueue.Close(error);
      var gone := neighborQueue.Close(error);
      dropped := dropped + 1;
    }

    method Leave()
      modifies this, messageQueue, messageQueue.consumers, neighborQueue, neighborQueue.consumers
      ensures State() == Unsubscribed(old(State()))
    {
      if disposed {
        return;
      }
      disposed, left := true, true;
      if subId.Some? {
        released := released + [subId.value];
      } else {
        SettleReadyWith(Rejected(ENDED_EARLY));
      }
      CloseBoth(None);
    }

    method Start(id: nat)
      modifies this
      ensures State() == StartArrives(old(State()), id)
    {
      subId, join := Some(id), Started;
      if disposed {
        released := released + [id];
        return;
      }
      SettleReadyWith(Resolved(id));
    }

    method FailJoin(message: string)
      modifies this, messageQueue, messageQueue.consumers, neighborQueue, neighborQueue.consumers
      ensures State() == JoinFails(old(State()), message)
    {
      if disposed {
        return;
      }
      disposed := true;
      SettleReadyWith(Rejected(IrohError(4000, message)));
      CloseBoth(Some(IrohError(4000, message)));
    }

    method HearNeighbor(line: string)
      modifies this, messageQueue, messageQueue.consumers, neighborQueue, neighborQueue.consumers
      ensures State() == NeighborArrives(old(State()), line)
    {
      if line == "lagged" {
        var lag := messageQueue.MarkLagged();
        return;
      }
      var t := SplitTagged(line);
      if t.delimited && t.tag == "error" {
        join := JoinFailed;
        FailJoin(t.rest);
        return;
      }
      if t.delimited && (t.tag == "up" || t.tag == "down") {
        var out := neighborQueue.Push(Neighbor(t.tag == "up", t.rest));
      }
    }

    method HearMessage(line: string) returns (out: seq<Effect<Message, IrohError>>)
      modifies messageQueue, messageQueue.consumers
      ensures State() == old(State()).(messages := Pushed(old(State()).messages, ParseMessage(line)).0)
      ensures out == Pushed(old(State()).messages, ParseMessage(line)).1
    {
      out := messageQueue.Push(ParseMessage(line));
    }
  }
}
