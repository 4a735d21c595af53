/** What ends what (`src/streams.ts`, `src/endpoint.ts`): for every event, exactly which streams,
    connections and listeners it ends and with which error, and what it does to the two kinds of
    queue, so that over every run each of them is over exactly when one of its own ends has come. */
module Endings {
  import opened Base
  import opened Errors
  import Queues = MessageQueues
  import opened Ownership

  type Use = Queues.Event<nat, IrohError>

  // ---------------------------------------------------------------- who ends at an event

  /** Nobody is waiting and 64 are waiting to be picked up. */
  predicate Full(q: Queues.Queue<nat, IrohError>)
  {
    !Queues.IsClosed(q) && q.consumers.waiters == [] && |q.buffer| == 64
  }

  predicate ListenerEnds(w: World, e: Event, l: nat)
  {
    l in w.listeners && !w.listeners[l].disposed && ((e.CloseListener? && e.listener == l) || e.CloseEndpoint?)
  }

  /** A connection ends by itself or by its own close, with the endpoint, with the listener or the
      loop it waits in, or pushed out by the sixty-fifth behind it. */
  predicate ConnEnds(w: World, e: Event, c: nat)
  {
    c in w.conns && w.conns[c].settlement.None? &&
    match e
    case CloseConnection(d, _) => c == d
    case CloseEndpoint => true
    case CloseListener(l, _) => l in w.listeners && c in w.listeners[l].accepted.buffer
    case BreakConnections(l) => l in w.listeners && c in w.listeners[l].accepted.buffer
    case Accept(l, _, adopts) =>
      adopts && l in w.listeners && Full(w.listeners[l].accepted) && c == w.listeners[l].accepted.buffer[0]
    case _ => false
  }

  /** A stream ends by its own end, with the connection that adopted it while open, with the loop it
      waits in, or pushed out by the sixty-fifth behind it. */
  predicate StreamEnds(w: World, e: Event, s: nat)
  {
    s in w.streams && !w.streams[s].settled &&
    (|| e == EndStream(s)
     || (ConnEnds(w, e, w.streams[s].owner) && !w.streams[s].late)
     || (e.BreakIncoming? && e.conn in w.conns && s in w.conns[e.conn].incoming.buffer)
     || (e.PeerStream? && e.subscribes && e.conn in w.conns &&
         Full(w.conns[e.conn].incoming) && s == w.conns[e.conn].incoming.buffer[0]))
  }

  /** Only a close carries an error. */
  function EndError(e: Event): Option<IrohError>
  {
    match e
    case CloseConnection(_, error) => error
    case CloseListener(_, error) => error
    case _ => None
  }

  /** What an event asks of the queue behind a connection's `incoming`. */
  function IncomingUse(w: World, e: Event, c: nat): seq<Use>
  {
    if ConnEnds(w, e, c) then [Queues.Close(if e.CloseConnection? then e.error else None)]
    else
      match e
      case NextStream(d) => if d == c then [Queues.Next] else []
      case BreakIncoming(d) => if d == c then [Queues.Return] else []
      case PeerStream(d, s, subscribes) => if d == c && subscribes then [Queues.Push(s)] else []
      case Accept(_, d, adopts) => if d == c && !adopts then [Queues.Close(None)] else []
      case _ => []
  }

  /** What an event asks of the queue behind a listener's `connections`. */
  function AcceptedUse(w: World, e: Event, l: nat): seq<Use>
  {
    if ListenerEnds(w, e, l) then [Queues.Close(EndError(e))]
    else
      match e
      case NextConnection(k) => if k == l then [Queues.Next] else []
      case BreakConnections(k) => if k == l then [Queues.Return] else []
      case Accept(k, c, adopts) => if k == l && adopts then [Queues.Push(c)] else []
      case _ => []
  }

  function Used(q: Queues.Queue<nat, IrohError>, use: seq<Use>): Queues.Queue<nat, IrohError>
  {
    if use == [] then q else Queues.Step(q, use[0]).0
  }

  // ---------------------------------------------------------------- each object at each event

  ghost predicate ConnGoes(info: ConnInfo, info': ConnInfo, ends: bool, error: Option<IrohError>, use: seq<Use>)
  {
    && info'.settlement == (if ends then Some(error) else info.settlement)
    && info'.incoming == Used(info.incoming, use)
  }

  ghost predicate StreamGoes(info: StreamInfo, info': StreamInfo, ends: bool)
  {
    info' == if ends then info.(settled := true, closes := info.closes + 1) else info
  }

  ghost predicate ListenerGoes(info: ListenerInfo, info': ListenerInfo, ends: bool, use: seq<Use>)
  {
    && info'.disposed == (info.disposed || ends)
    && info'.stops == info.stops + (if ends then 1 else 0)
    && info'.accepted == Used(info.accepted, use)
  }

  lemma OldestIsEvicted(q: Queues.Queue<nat, IrohError>, value: nat)
    requires Backlogged(q)
    ensures Evictee(q, value) == if Full(q) then {q.buffer[0]} else {}
  {
  }

  lemma FinishOnStream(w: World, ids: set<nat>, error: Option<IrohError>, s: nat)
    requires CoreInv(w) && s in w.streams
    ensures s in FinishConns(w, ids, error).streams
    ensures StreamGoes(w.streams[s], FinishConns(w, ids, error).streams[s],
                       w.streams[s].owner in ids && !w.streams[s].settled && !w.streams[s].late)
  {
    DoomedMeansOwned(w, ids, s);
  }

  /** What these closes do to one connection, if it is among them and open. */
  lemma FinishOnConn(w: World, ids: set<nat>, error: Option<IrohError>, c: nat)
    requires c in w.conns
    ensures c in FinishConns(w, ids, error).conns
    ensures var ends := c in ids && w.conns[c].settlement.None?;
      ConnGoes(w.conns[c], FinishConns(w, ids, error).conns[c], ends, error, if ends then [Queues.Close(error)] else [])
  {
  }

  lemma SameCore(w: World, w': World)
    requires CoreInv(w) && w'.streams == w.streams && w'.conns == w.conns && w'.connections == w.connections
    ensures CoreInv(w')
  {
    forall s | s in w'.streams ensures StreamOk(w', s) { assert StreamOk(w, s); }
    forall c | c in w'.conns ensures ConnOk(w', c) { assert ConnOk(w, c); }
  }

  /** A connection that waits somewhere is a known one. */
  lemma WaitingIsKnown(w: World, l: nat)
    requires WorldInv(w) && l in w.listeners
    ensures Backlogged(w.listeners[l].accepted)
    ensures forall c :: c in w.listeners[l].accepted.buffer ==> c in w.conns
    ensures Queues.IsClosed(w.listeners[l].accepted) ==> w.listeners[l].accepted.buffer == []
    ensures w.listeners[l].disposed ==> w.listeners[l].accepted.buffer == []
    ensures w.listeners[l].disposed <==> l !in w.liveListeners
  {
    assert ListenerOk(w, l);
  }

  // Accept

  /** The world when the newcomer has been queued and nobody evicted yet. */
  function Queued(w: World, l: nat, c: nat): World
    requires l in w.listeners
  {
    var q := w.listeners[l].accepted;
    var (q', out) := Queues.Pushed(q, c);
    Credited(SetAccepted(WithConn(w, c), l, q'), Yielded(out), if Queues.IsClosed(q) then {c} else {})
  }

  lemma AcceptOnConn(w: World, l: nat, d: nat, c: nat)
    requires WorldInv(w) && l in w.listeners && d !in w.conns && c in w.conns
    ensures var w' := Happen(w, Accept(l, d, true)).value; var e := Accept(l, d, true);
      c in w'.conns && ConnGoes(w.conns[c], w'.conns[c], ConnEnds(w, e, c), None, IncomingUse(w, e, c))
  {
    WaitingIsKnown(w, l);
    OldestIsEvicted(w.listeners[l].accepted, d);
    FinishOnConn(Queued(w, l, d), Evictee(w.listeners[l].accepted, d), None, c);
  }

  lemma AcceptOnStream(w: World, l: nat, d: nat, s: nat)
    requires WorldInv(w) && l in w.listeners && d !in w.conns && s in w.streams
    ensures var w' := Happen(w, Accept(l, d, true)).value;
      s in w'.streams && StreamGoes(w.streams[s], w'.streams[s], StreamEnds(w, Accept(l, d, true), s))
  {
    WaitingIsKnown(w, l);
    OldestIsEvicted(w.listeners[l].accepted, d);
    WithConnKeepsInv(w, d);
    SameCore(WithConn(w, d), Queued(w, l, d));
    FinishOnStream(Queued(w, l, d), Evictee(w.listeners[l].accepted, d), None, s);
    assert StreamOk(w, s);
  }

  // BreakConnections

  lemma BreakOnConn(w: World, l: nat, c: nat)
    requires WorldInv(w) && l in w.listeners && c in w.conns
    ensures var w' := Happen(w, BreakConnections(l)).value; var e := BreakConnections(l);
      c in w'.conns && ConnGoes(w.conns[c], w'.conns[c], ConnEnds(w, e, c), None, IncomingUse(w, e, c))
  {
    WaitingIsKnown(w, l);
    var q := w.listeners[l].accepted;
    FinishOnConn(SetAccepted(w, l, Queues.Closed(q, None).0), Unclaimed(q), None, c);
  }

  lemma BreakOnStream(w: World, l: nat, s: nat)
    requires WorldInv(w) && l in w.listeners && s in w.streams
    ensures var w' := Happen(w, BreakConnections(l)).value;
      s in w'.streams && StreamGoes(w.streams[s], w'.streams[s], StreamEnds(w, BreakConnections(l), s))
  {
    WaitingIsKnown(w, l);
    var q := w.listeners[l].accepted;
    SameCore(w, SetAccepted(w, l, Queues.Closed(q, None).0));
    FinishOnStream(SetAccepted(w, l, Queues.Closed(q, None).0), Unclaimed(q), None, s);
    assert StreamOk(w, s);
  }

  // CloseListener

  lemma StopOnConn(w: World, l: nat, error: Option<IrohError>, c: nat)
    requires WorldInv(w) && l in w.listeners && c in w.conns
    ensures var w' := Happen(w, CloseListener(l, error)).value; var e := CloseListener(l, error);
      c in w'.conns && ConnGoes(w.conns[c], w'.conns[c], ConnEnds(w, e, c), None, IncomingUse(w, e, c))
  {
    WaitingIsKnown(w, l);
    assert Waiting(w, {l}) == StillWaiting(w, l);
    FinishOnConn(StopListeners(w, {l}, error), Waiting(w, {l}), None, c);
  }

  lemma StopOnStream(w: World, l: nat, error: Option<IrohError>, s: nat)
    requires WorldInv(w) && l in w.listeners && s in w.streams
    ensures var w' := Happen(w, CloseListener(l, error)).value;
      s in w'.streams && StreamGoes(w.streams[s], w'.streams[s], StreamEnds(w, CloseListener(l, error), s))
  {
    WaitingIsKnown(w, l);
    assert Waiting(w, {l}) == StillWaiting(w, l);
    SameCore(w, StopListeners(w, {l}, error));
    FinishOnStream(StopListeners(w, {l}, error), Waiting(w, {l}), None, s);
    assert StreamOk(w, s);
  }

  // CloseEndpoint

  lemma CloseAllOnConn(w: World, c: nat)
    requires WorldInv(w) && c in w.conns
    ensures c in CloseAll(w).conns
    ensures ConnGoes(w.conns[c], CloseAll(w).conns[c], ConnEnds(w, CloseEndpoint, c), None, IncomingUse(w, CloseEndpoint, c))
  {
    FinishListenersKeepsInv(w, w.liveListeners, None);
    var w1 := FinishListeners(w, w.liveListeners, None);
    FinishOnConn(StopListeners(w, w.liveListeners, None), Waiting(w, w.liveListeners), None, c);
    FinishOnConn(w1, w1.connections, None, c);
    assert ConnOk(w1, c);
  }

  lemma CloseAllOnStream(w: World, s: nat)
    requires WorldInv(w) && s in w.streams
    ensures s in CloseAll(w).streams
    ensures StreamGoes(w.streams[s], CloseAll(w).streams[s], StreamEnds(w, CloseEndpoint, s))
  {
    StopListenersKeepsInv(w, w.liveListeners, None);
    FinishListenersKeepsInv(w, w.liveListeners, None);
    var w1 := FinishListeners(w, w.liveListeners, None);
    FinishOnStream(StopListeners(w, w.liveListeners, None), Waiting(w, w.liveListeners), None, s);
    FinishOnStream(w1, w1.connections, None, s);
    assert StreamOk(w, s);
    assert StreamOk(w1, s);
    assert ConnOk(w, w.streams[s].owner);
    assert ConnOk(w1, w.streams[s].owner);
  }

  // PeerStream and BreakIncoming

  lemma PeerOnConn(w: World, d: nat, t: nat, c: nat)
    requires WorldInv(w) && d in w.conns && t !in w.streams && c in w.conns
    ensures var w' := Happen(w, PeerStream(d, t, true)).value; var e := PeerStream(d, t, true);
      c in w'.conns && ConnGoes(w.conns[c], w'.conns[c], ConnEnds(w, e, c), None, IncomingUse(w, e, c))
  {
  }

  lemma PeerOnStream(w: World, d: nat, t: nat, s: nat)
    requires WorldInv(w) && d in w.conns && t !in w.streams && s in w.streams
    ensures var w' := Happen(w, PeerStream(d, t, true)).value;
      s in w'.streams && StreamGoes(w.streams[s], w'.streams[s], StreamEnds(w, PeerStream(d, t, true), s))
  {
    assert ConnOk(w, d);
    OldestIsEvicted(w.conns[d].incoming, t);
  }

  lemma BreakIncomingOnStream(w: World, d: nat, s: nat)
    requires WorldInv(w) && d in w.conns && s in w.streams
    ensures var w' := Happen(w, BreakIncoming(d)).value;
      s in w'.streams && StreamGoes(w.streams[s], w'.streams[s], StreamEnds(w, BreakIncoming(d), s))
  {
    assert ConnOk(w, d);
  }

  // CloseConnection

  lemma CloseOnStream(w: World, d: nat, error: Option<IrohError>, s: nat)
    requires WorldInv(w) && d in w.conns && s in w.streams
    ensures var w' := Happen(w, CloseConnection(d, error)).value;
      s in w'.streams && StreamGoes(w.streams[s], w'.streams[s], StreamEnds(w, CloseConnection(d, error), s))
  {
    FinishOnStream(w, {d}, error, s);
    assert StreamOk(w, s);
  }

  predicate Simple(e: Event)
  {
    e.Dial? || e.Listen? || e.NextConnection? || e.OpenStream? || e.NextStream? || e.BreakIncoming? ||
    e.EndStream? || (e.Accept? && !e.adopts) || (e.PeerStream? && !e.subscribes)
  }

  lemma SimpleOnConn(w: World, e: Event, c: nat)
    requires WorldInv(w) && Happen(w, e).Some? && c in w.conns && Simple(e)
    ensures var w' := Happen(w, e).value;
      c in w'.conns && ConnGoes(w.conns[c], w'.conns[c], ConnEnds(w, e, c), None, IncomingUse(w, e, c))
  {
  }

  lemma SimpleOnStream(w: World, e: Event, s: nat)
    requires WorldInv(w) && Happen(w, e).Some? && s in w.streams && Simple(e) && !e.BreakIncoming?
    ensures var w' := Happen(w, e).value;
      s in w'.streams && StreamGoes(w.streams[s], w'.streams[s], StreamEnds(w, e, s))
  {
  }

  /** One event ends exactly the connections it should, a close with its own error and everything
      else with none, and asks of each connection's queue exactly what it should. */
  lemma StepOnConn(w: World, e: Event, c: nat)
    requires WorldInv(w) && Happen(w, e).Some? && c in w.conns
    ensures var w' := Happen(w, e).value;
      c in w'.conns &&
      ConnGoes(w.conns[c], w'.conns[c], ConnEnds(w, e, c), if e.CloseConnection? then e.error else None, IncomingUse(w, e, c))
  {
    match e {
      case Accept(l, d, adopts) => if adopts { AcceptOnConn(w, l, d, c); } else { SimpleOnConn(w, e, c); }
      case BreakConnections(l) => BreakOnConn(w, l, c);
      case CloseListener(l, error) => StopOnConn(w, l, error, c);
      case PeerStream(d, t, subscribes) => if subscribes { PeerOnConn(w, d, t, c); } else { SimpleOnConn(w, e, c); }
      case CloseConnection(d, error) => FinishOnConn(w, {d}, error, c);
      case CloseEndpoint => CloseAllOnConn(w, c);
      case _ => SimpleOnConn(w, e, c);
    }
  }

  /** One event ends exactly the streams it should, each natively once. */
  lemma StepOnStream(w: World, e: Event, s: nat)
    requires WorldInv(w) && Happen(w, e).Some? && s in w.streams
    ensures var w' := Happen(w, e).value;
      s in w'.streams && StreamGoes(w.streams[s], w'.streams[s], StreamEnds(w, e, s))
  {
    match e {
      case Accept(l, d, adopts) => if adopts { AcceptOnStream(w, l, d, s); } else { SimpleOnStream(w, e, s); }
      case BreakConnections(l) => BreakOnStream(w, l, s);
      case CloseListener(l, error) => StopOnStream(w, l, error, s);
      case PeerStream(d, t, subscribes) => if subscribes { PeerOnStream(w, d, t, s); } else { SimpleOnStream(w, e, s); }
      case BreakIncoming(d) => BreakIncomingOnStream(w, d, s);
      case CloseConnection(d, error) => CloseOnStream(w, d, error, s);
      case CloseEndpoint => CloseAllOnStream(w, s);
      case _ => SimpleOnStream(w, e, s);
    }
  }

  lemma StepOnListener(w: World, e: Event, l: nat)
    requires WorldInv(w) && Happen(w, e).Some? && l in w.listeners
    ensures var w' := Happen(w, e).value;
      l in w'.listeners && ListenerGoes(w.listeners[l], w'.listeners[l], ListenerEnds(w, e, l), AcceptedUse(w, e, l))
  {
    WaitingIsKnown(w, l);
  }

  // ---------------------------------------------------------------- newcomers

  predicate Brings(e: Event, c: nat)
  {
    e == Dial(c) || (e.Accept? && e.conn == c)
  }

  predicate Refuses(e: Event, c: nat)
  {
    e.Accept? && e.conn == c && !e.adopts
  }

  lemma NewConnection(w: World, e: Event, c: nat)
    requires WorldInv(w) && Happen(w, e).Some? && c !in w.conns
    ensures var w' := Happen(w, e).value;
      && (c in w'.conns <==> Brings(e, c))
      && (Brings(e, c) ==>
            && w'.conns[c].settlement == (if Refuses(e, c) then Some(None) else None)
            && w'.conns[c].incoming == Used(Queues.Create(Some(64)), IncomingUse(w, e, c)))
  {
    if e.Accept? && e.adopts {
      WaitingIsKnown(w, e.listener);
      OldestIsEvicted(w.listeners[e.listener].accepted, e.conn);
    }
  }

  predicate Opens(e: Event, s: nat)
  {
    (e.PeerStream? || e.OpenStream?) && e.stream == s
  }

  lemma NewStream(w: World, e: Event, s: nat)
    requires WorldInv(w) && Happen(w, e).Some? && s !in w.streams
    ensures var w' := Happen(w, e).value;
      && (s in w'.streams <==> Opens(e, s))
      && (Opens(e, s) ==>
            && e.conn in w.conns
            && var refused := e.PeerStream? && !e.subscribes;
               w'.streams[s] == StreamInfo(e.conn, refused, if refused then 1 else 0, w.conns[e.conn].settlement.Some?))
  {
    if e.PeerStream? && e.subscribes {
      assert ConnOk(w, e.conn);
      OldestIsEvicted(w.conns[e.conn].incoming, e.stream);
    }
  }

  // ---------------------------------------------------------------- over every run

  /** How connection `c` ended, read off the events: refused, or as the first event that ended it
      says. */
  function ConnFate(events: seq<Event>, c: nat): Option<Option<IrohError>>
  {
    if events == [] then None
    else
      var init, last := events[..|events| - 1], events[|events| - 1];
      if ConnFate(init, c).Some? then ConnFate(init, c)
      else if Refuses(last, c) then Some(None)
      else if After(EmptyWorld(), init).Some? && ConnEnds(After(EmptyWorld(), init).value, last, c) then
        Some(if last.CloseConnection? then last.error else None)
      else None
  }

  /** Stream `s` was refused, or some event ended it. */
  predicate StreamOver(events: seq<Event>, s: nat)
  {
    events != [] &&
    var init, last := events[..|events| - 1], events[|events| - 1];
    || StreamOver(init, s)
    || (last.PeerStream? && last.stream == s && !last.subscribes)
    || (After(EmptyWorld(), init).Some? && StreamEnds(After(EmptyWorld(), init).value, last, s))
  }

  /** Who opened stream `s`. */
  function OwnerOf(events: seq<Event>, s: nat): Option<nat>
  {
    if events == [] then None
    else
      var earlier, last := OwnerOf(events[..|events| - 1], s), events[|events| - 1];
      if earlier.Some? then earlier else if Opens(last, s) then Some(last.conn) else None
  }

  function IncomingUses(events: seq<Event>, c: nat): seq<Use>
  {
    if events == [] then []
    else
      var init := events[..|events| - 1];
      IncomingUses(init, c) +
        if After(EmptyWorld(), init).Some? then IncomingUse(After(EmptyWorld(), init).value, events[|events| - 1], c) else []
  }

  lemma UsedNext(q: Queues.Queue<nat, IrohError>, uses: seq<Use>, use: seq<Use>)
    requires |use| <= 1
    ensures Queues.Run(q, uses + use).0 == Used(Queues.Run(q, uses).0, use)
  {
    if use == [] {
      assert uses + use == uses;
    } else {
      assert (uses + use)[..|uses + use| - 1] == uses;
    }
  }

  ghost predicate ConnAsTold(w: World, c: nat, known: bool, fate: Option<Option<IrohError>>, uses: seq<Use>)
  {
    && (c in w.conns <==> known)
    && (c !in w.conns ==> fate.None? && uses == [])
    && (c in w.conns ==>
          && w.conns[c].settlement == fate
          && w.conns[c].incoming == Queues.Run(Queues.Create(Some(64)), uses).0)
  }

  predicate EverBrought(events: seq<Event>, c: nat)
  {
    events != [] && (EverBrought(events[..|events| - 1], c) || Brings(events[|events| - 1], c))
  }

  lemma StrangersHearNothing(w: World, e: Event, c: nat)
    requires c !in w.conns && Happen(w, e).Some? && !Brings(e, c)
    ensures IncomingUse(w, e, c) == [] && !ConnEnds(w, e, c)
  {
  }

  lemma StepAsTold(w: World, e: Event, c: nat, known: bool, fate: Option<Option<IrohError>>, uses: seq<Use>)
    requires WorldInv(w) && Happen(w, e).Some? && ConnAsTold(w, c, known, fate, uses)
    ensures ConnAsTold(Happen(w, e).value, c, known || Brings(e, c),
                       if fate.Some? then fate
                       else if Refuses(e, c) then Some(None)
                       else if ConnEnds(w, e, c) then Some(if e.CloseConnection? then e.error else None)
                       else None,
                       uses + IncomingUse(w, e, c))
  {
    UsedNext(Queues.Create(Some(64)), uses, IncomingUse(w, e, c));
    if c in w.conns {
      StepOnConn(w, e, c);
      assert !Refuses(e, c);
    } else {
      NewConnection(w, e, c);
      if !Brings(e, c) {
        StrangersHearNothing(w, e, c);
      }
    }
  }

  /** Over every run a connection is settled exactly as the first event that ended it says, with a
      close's own error and otherwise with none, and its `incoming` is a run of one bounded queue
      fed with the peer's streams and closed with it; so everything proved of such a queue holds. */
  lemma {:induction false} ConnectionsEndAsTold(events: seq<Event>, c: nat)
    requires After(EmptyWorld(), events).Some?
    ensures ConnAsTold(After(EmptyWorld(), events).value, c, EverBrought(events, c), ConnFate(events, c), IncomingUses(events, c))
  {
    if events != [] {
      var init, last := events[..|events| - 1], events[|events| - 1];
      ConnectionsEndAsTold(init, c);
      RunKeepsInv(init);
      StepAsTold(After(EmptyWorld(), init).value, last, c, EverBrought(init, c), ConnFate(init, c), IncomingUses(init, c));
    }
  }

  ghost predicate StreamAsTold(w: World, s: nat, owner: Option<nat>, over: bool)
  {
    && (s in w.streams <==> owner.Some?)
    && (s !in w.streams ==> !over)
    && (s in w.streams ==>
          w.streams[s].owner == owner.value && w.streams[s].settled == over && w.streams[s].closes == if over then 1 else 0)
  }

  lemma StepStreamAsTold(w: World, e: Event, s: nat, owner: Option<nat>, over: bool)
    requires WorldInv(w) && Happen(w, e).Some? && StreamAsTold(w, s, owner, over)
    ensures StreamAsTold(Happen(w, e).value, s,
                         if owner.Some? then owner else if Opens(e, s) then Some(e.conn) else None,
                         over || (e.PeerStream? && e.stream == s && !e.subscribes) || StreamEnds(w, e, s))
  {
    if s in w.streams {
      StepOnStream(w, e, s);
    } else {
      NewStream(w, e, s);
    }
  }

  /** Over every run a stream belongs to the connection it was opened on and is over, closed
      natively once, exactly when it was refused or one of its own ends has come. */
  lemma {:induction false} StreamsEndAsTold(events: seq<Event>, s: nat)
    requires After(EmptyWorld(), events).Some?
    ensures StreamAsTold(After(EmptyWorld(), events).value, s, OwnerOf(events, s), StreamOver(events, s))
  {
    if events != [] {
      var init, last := events[..|events| - 1], events[|events| - 1];
      StreamsEndAsTold(init, s);
      RunKeepsInv(init);
      StepStreamAsTold(After(EmptyWorld(), init).value, last, s, OwnerOf(init, s), StreamOver(init, s));
    }
  }

  predicate EverListened(events: seq<Event>, l: nat)
  {
    events != [] && (EverListened(events[..|events| - 1], l) || events[|events| - 1] == Listen(l))
  }

  /** Listener `l` has been closed, by its own close or the endpoint's. */
  predicate ListenerOver(events: seq<Event>, l: nat)
  {
    events != [] &&
    var init, last := events[..|events| - 1], events[|events| - 1];
    ListenerOver(init, l) ||
      (EverListened(init, l) && ((last.CloseListener? && last.listener == l) || last.CloseEndpoint?))
  }

  function AcceptedUses(events: seq<Event>, l: nat): seq<Use>
  {
    if events == [] then []
    else
      var init := events[..|events| - 1];
      AcceptedUses(init, l) +
        if After(EmptyWorld(), init).Some? then AcceptedUse(After(EmptyWorld(), init).value, events[|events| - 1], l) else []
  }

  ghost predicate ListenerAsTold(w: World, l: nat, known: bool, over: bool, uses: seq<Use>)
  {
    && (l in w.listeners <==> known)
    && (l !in w.listeners ==> !over && uses == [])
    && (l in w.listeners ==>
          && w.listeners[l].disposed == over && w.listeners[l].stops == (if over then 1 else 0)
          && w.listeners[l].accepted == Queues.Run(Queues.Create(Some(64)), uses).0)
  }

  lemma NewListener(w: World, e: Event, l: nat)
    requires Happen(w, e).Some? && l !in w.listeners
    ensures var w' := Happen(w, e).value;
      && (l in w'.listeners <==> e == Listen(l))
      && (e == Listen(l) ==> w'.listeners[l] == ListenerInfo(false, Queues.Create(Some(64)), 0))
      && AcceptedUse(w, e, l) == []
  {
  }

  lemma StepListenerAsTold(w: World, e: Event, l: nat, known: bool, over: bool, uses: seq<Use>)
    requires WorldInv(w) && Happen(w, e).Some? && ListenerAsTold(w, l, known, over, uses)
    ensures ListenerAsTold(Happen(w, e).value, l, known || e == Listen(l),
                           over || (known && ((e.CloseListener? && e.listener == l) || e.CloseEndpoint?)),
                           uses + AcceptedUse(w, e, l))
  {
    UsedNext(Queues.Create(Some(64)), uses, AcceptedUse(w, e, l));
    if l in w.listeners {
      StepOnListener(w, e, l);
      assert ListenerOk(w, l);
    } else {
      NewListener(w, e, l);
    }
  }

  /** Over every run a listener is stopped, natively once, exactly when it or the endpoint was closed,
      and its `connections` is a run of one bounded queue fed with the accepted connections. */
  lemma {:induction false} ListenersEndAsTold(events: seq<Event>, l: nat)
    requires After(EmptyWorld(), events).Some?
    ensures ListenerAsTold(After(EmptyWorld(), events).value, l, EverListened(events, l), ListenerOver(events, l),
                           AcceptedUses(events, l))
  {
    if events != [] {
      var init, last := events[..|events| - 1], events[|events| - 1];
      ListenersEndAsTold(init, l);
      RunKeepsInv(init);
      StepListenerAsTold(After(EmptyWorld(), init).value, last, l, EverListened(init, l), ListenerOver(init, l), AcceptedUses(init, l));
    }
  }
}
