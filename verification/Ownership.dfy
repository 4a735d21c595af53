/** Who owns what among the raw streams of an endpoint (`src/streams.ts`, `src/endpoint.ts`):
    an endpoint owns listeners and connections, a connection owns streams, and closing an owner
    closes what it owns. */
module Ownership {
  import opened Base
  import opened Errors
  import opened AsyncKernel
  import opened MessageQueues

  const DEFAULT_STREAM_BACKLOG: int := 64

  /** `closes` counts the native close calls; `late` says that the stream was adopted by a
      connection that had already finished. */
  datatype StreamInfo = StreamInfo(owner: nat, settled: bool, closes: nat, late: bool)

  datatype ConnInfo = ConnInfo(
    settlement: Option<Option<IrohError>>,
    openStreams: set<nat>,
    incoming: Queue<nat, IrohError>,
    closes: nat)

  datatype ListenerInfo = ListenerInfo(disposed: bool, accepted: Queue<nat, IrohError>, stops: nat)

  /** `connections` and `liveListeners` are the endpoint's two sets. `handed` records the
      connections somebody received, from a dial or a `next()`; `strays` those accepted by a
      listener whose queue was closed, which nobody will. */
  datatype World = World(
    streams: map<nat, StreamInfo>,
    conns: map<nat, ConnInfo>,
    listeners: map<nat, ListenerInfo>,
    connections: set<nat>,
    liveListeners: set<nat>,
    handed: set<nat>,
    strays: set<nat>)

  function EmptyWorld(): World
  {
    World(map[], map[], map[], {}, {}, {}, {})
  }

  // ---------------------------------------------------------------- ending things

  function Ended(s: StreamInfo): StreamInfo
  {
    if s.settled then s else s.(settled := true, closes := s.closes + 1)
  }

  /** Each of these streams finishes, at most once, and leaves its connection's set. */
  function FinishStreams(w: World, ids: set<nat>): World
  {
    w.(streams := map s | s in w.streams :: if s in ids then Ended(w.streams[s]) else w.streams[s],
       conns := map c | c in w.conns :: w.conns[c].(openStreams := w.conns[c].openStreams - ids))
  }

  function Concluded(c: ConnInfo, error: Option<IrohError>): ConnInfo
  {
    if c.settlement.Some? then c
    else ConnInfo(Some(error), {}, Closed(c.incoming, error).0, c.closes + 1)
  }

  /** The streams that go down with these connections. */
  function Doomed(w: World, ids: set<nat>): set<nat>
  {
    set c, s | c in ids && c in w.conns && w.conns[c].settlement.None? && s in w.conns[c].openStreams :: s
  }

  /** Each of these connections finishes, at most once, and takes its open streams with it. */
  function FinishConns(w: World, ids: set<nat>, error: Option<IrohError>): World
  {
    var doomed := Doomed(w, ids);
    w.(streams := map s | s in w.streams :: if s in doomed then Ended(w.streams[s]) else w.streams[s],
       conns := map c | c in w.conns :: if c in ids then Concluded(w.conns[c], error) else w.conns[c],
       connections := w.connections - (set c | c in ids && c in w.conns && w.conns[c].settlement.None?))
  }

  function Members(ids: seq<nat>): set<nat>
  {
    set x | x in ids
  }

  /** What closing a queue hands to `onDropped`. */
  function Unclaimed(q: Queue<nat, IrohError>): set<nat>
  {
    if IsClosed(q) then {} else Members(q.buffer)
  }

  /** These listeners stop, each once, and their queues close. */
  function StopListeners(w: World, ids: set<nat>, error: Option<IrohError>): World
  {
    w.(listeners := map l | l in w.listeners ::
         if l in ids && !w.listeners[l].disposed
         then ListenerInfo(true, Closed(w.listeners[l].accepted, error).0, w.listeners[l].stops + 1)
         else w.listeners[l],
       liveListeners := w.liveListeners - ids)
  }

  /** The connections still waiting in these listeners. */
  function Waiting(w: World, ids: set<nat>): set<nat>
  {
    set l, c | l in ids && l in w.listeners && !w.listeners[l].disposed && c in w.listeners[l].accepted.buffer :: c
  }

  /** Listeners stop, and the connections still waiting in them are closed. */
  function FinishListeners(w: World, ids: set<nat>, error: Option<IrohError>): World
  {
    FinishConns(StopListeners(w, ids, error), Waiting(w, ids), None)
  }

  /** The value evicted by a push that finds the buffer full. */
  function Evictee(q: Queue<nat, IrohError>, value: nat): set<nat>
  {
    if Pushed(q, value).0.dropped != q.dropped then {(q.buffer + [value])[0]} else {}
  }

  // ---------------------------------------------------------------- the events

  datatype Event =
    | Dial(conn: nat)
    | Listen(listener: nat)
    | Accept(listener: nat, conn: nat, adopts: bool)
    | NextConnection(listener: nat)
    | BreakConnections(listener: nat)
    | CloseListener(listener: nat, error: Option<IrohError>)
    | PeerStream(conn: nat, stream: nat, subscribes: bool)
    | OpenStream(conn: nat, stream: nat)
    | NextStream(conn: nat)
    | BreakIncoming(conn: nat)
    | EndStream(stream: nat)
    | CloseConnection(conn: nat, error: Option<IrohError>)
    | CloseEndpoint

  function NewConn(): ConnInfo
  {
    ConnInfo(None, {}, Create(Some(DEFAULT_STREAM_BACKLOG)), 0)
  }

  /** A native connection that never became an object: closed natively, owned by nobody. */
  function RefusedConn(): ConnInfo
  {
    ConnInfo(Some(None), {}, Closed(NewConn().incoming, None).0, 1)
  }

  /** The values a queue's consumers receive. */
  function Yielded(out: seq<Effect<nat, IrohError>>): set<nat>
  {
    set e | e in out && e.Resolve? && e.outcome.Yield? :: e.outcome.value
  }

  function Credited(w: World, handed: set<nat>, strays: set<nat>): World
  {
    w.(handed := w.handed + handed, strays := w.strays + strays)
  }

  function Adopt(w: World, c: nat, s: nat): World
    requires c in w.conns
  {
    var conn := w.conns[c];
    w.(streams := w.streams[s := StreamInfo(c, false, 0, conn.settlement.Some?)],
       conns := w.conns[c := conn.(openStreams := conn.openStreams + {s})])
  }

  function WithConn(w: World, c: nat): World
  {
    w.(conns := w.conns[c := NewConn()], connections := w.connections + {c})
  }

  function SetIncoming(w: World, c: nat, q: Queue<nat, IrohError>): World
    requires c in w.conns
  {
    w.(conns := w.conns[c := w.conns[c].(incoming := q)])
  }

  /** Queues a stream for the consumer of `incoming`; the one this evicts is closed. */
  function QueueStream(w: World, c: nat, s: nat): World
    requires c in w.conns
  {
    var q := w.conns[c].incoming;
    FinishStreams(SetIncoming(w, c, Pushed(q, s).0), Evictee(q, s))
  }

  function SetAccepted(w: World, l: nat, q: Queue<nat, IrohError>): World
    requires l in w.listeners
  {
    w.(listeners := w.listeners[l := w.listeners[l].(accepted := q)])
  }

  /** Queues a connection for the consumer of `connections`; the one this evicts is closed. */
  function QueueConn(w: World, l: nat, c: nat): World
    requires l in w.listeners
  {
    var q := w.listeners[l].accepted;
    var (q', out) := Pushed(q, c);
    FinishConns(Credited(SetAccepted(w, l, q'), Yielded(out), if IsClosed(q) then {c} else {}), Evictee(q, c), None)
  }

  /** The state after an event, or `None` when it cannot happen: native ids are never reissued,
      and only known objects are acted on. */
  function Happen(w: World, e: Event): Option<World>
  {
    match e
    case Dial(c) => if c in w.conns then None else Some(Credited(WithConn(w, c), {c}, {}))
    case Listen(l) =>
      if l in w.listeners then None
      else Some(w.(listeners := w.listeners[l := ListenerInfo(false, Create(Some(DEFAULT_STREAM_BACKLOG)), 0)],
                   liveListeners := w.liveListeners + {l}))
    case Accept(l, c, adopts) =>
      if l !in w.listeners || c in w.conns then None
      else if !adopts then
        // Wrapping failed: the native connection is closed and dropped.
        Some(w.(conns := w.conns[c := RefusedConn()]))
      else Some(QueueConn(WithConn(w, c), l, c))
    case NextConnection(l) =>
      if l !in w.listeners then None
      else
        var (q, out) := Nexted(w.listeners[l].accepted);
        Some(Credited(SetAccepted(w, l, q), Yielded(out), {}))
    case BreakConnections(l) =>
      if l !in w.listeners then None
      else
        var q := w.listeners[l].accepted;
        Some(FinishConns(SetAccepted(w, l, Closed(q, None).0), Unclaimed(q), None))
    case CloseListener(l, error) =>
      if l !in w.listeners then None else Some(FinishListeners(w, {l}, error))
    case PeerStream(c, s, subscribes) =>
      if c !in w.conns || s in w.streams then None
      else if !subscribes then
        // Adopting failed: the native stream is closed and dropped.
        Some(w.(streams := w.streams[s := StreamInfo(c, true, 1, w.conns[c].settlement.Some?)]))
      else
        Some(QueueStream(Adopt(w, c, s), c, s))
    case OpenStream(c, s) =>
      if c !in w.conns || s in w.streams then None else Some(Adopt(w, c, s))
    case NextStream(c) =>
      if c !in w.conns then None else Some(SetIncoming(w, c, Nexted(w.conns[c].incoming).0))
    case BreakIncoming(c) =>
      if c !in w.conns then None
      else
        var q := w.conns[c].incoming;
        Some(FinishStreams(SetIncoming(w, c, Closed(q, None).0), Unclaimed(q)))
    case EndStream(s) =>
      if s !in w.streams then None else Some(FinishStreams(w, {s}))
    case CloseConnection(c, error) =>
      if c !in w.conns then None else Some(FinishConns(w, {c}, error))
    case CloseEndpoint =>
      Some(CloseAll(w))
  }

  /** Every live listener closes, then every live connection. */
  function CloseAll(w: World): World
  {
    var w' := FinishListeners(w, w.liveListeners, None);
    FinishConns(w', w'.connections, None)
  }

  // ---------------------------------------------------------------- the invariant

  ghost predicate Backlogged(q: Queue<nat, IrohError>)
  {
    q.capacity == DEFAULT_STREAM_BACKLOG && |q.buffer| <= DEFAULT_STREAM_BACKLOG
  }

  ghost predicate StreamOk(w: World, s: nat)
    requires s in w.streams
  {
    var info := w.streams[s];
    && info.owner in w.conns
    && info.closes == (if info.settled then 1 else 0)
    && (s in w.conns[info.owner].openStreams <==> !info.settled)
    && (!info.settled && w.conns[info.owner].settlement.Some? ==> info.late)
    && (info.late ==> w.conns[info.owner].settlement.Some?)
  }

  ghost predicate ConnOk(w: World, c: nat)
    requires c in w.conns
  {
    var info := w.conns[c];
    && info.closes == (if info.settlement.Some? then 1 else 0)
    && (forall s :: s in info.openStreams ==> s in w.streams && w.streams[s].owner == c)
    && (forall s :: s in info.incoming.buffer ==> s in w.streams && w.streams[s].owner == c)
    && (info.settlement.Some? ==> IsClosed(info.incoming))
    && (IsClosed(info.incoming) ==> info.incoming.buffer == [])
    && Backlogged(info.incoming)
    && (c in w.connections <==> info.settlement.None?)
  }

  ghost predicate ListenerOk(w: World, l: nat)
    requires l in w.listeners
  {
    var info := w.listeners[l];
    && info.stops == (if info.disposed then 1 else 0)
    && (forall c :: c in info.accepted.buffer ==> c in w.conns)
    && (info.disposed ==> IsClosed(info.accepted))
    && (IsClosed(info.accepted) ==> info.accepted.buffer == [])
    && Backlogged(info.accepted)
    && (l in w.liveListeners <==> !info.disposed)
  }

  ghost predicate CoreInv(w: World)
  {
    && (forall s {:trigger StreamOk(w, s)} :: s in w.streams ==> StreamOk(w, s))
    && (forall c {:trigger ConnOk(w, c)} :: c in w.conns ==> ConnOk(w, c))
  }

  ghost predicate WorldInv(w: World)
  {
    && CoreInv(w)
    && (forall l {:trigger ListenerOk(w, l)} :: l in w.listeners ==> ListenerOk(w, l))
    && w.connections <= w.conns.Keys
    && w.liveListeners <= w.listeners.Keys
  }

  lemma FinishStreamsKeepsConn(w: World, ids: set<nat>, c: nat)
    requires CoreInv(w) && c in w.conns
    ensures ConnOk(FinishStreams(w, ids), c)
  {
    assert ConnOk(w, c);
  }

  lemma FinishStreamsKeepsStream(w: World, ids: set<nat>, s: nat)
    requires CoreInv(w) && s in w.streams
    ensures StreamOk(FinishStreams(w, ids), s)
  {
    assert StreamOk(w, s);
  }

  lemma FinishStreamsKeepsInv(w: World, ids: set<nat>)
    requires WorldInv(w)
    ensures WorldInv(FinishStreams(w, ids))
  {
    var w' := FinishStreams(w, ids);
    forall s | s in w'.streams ensures StreamOk(w', s) { FinishStreamsKeepsStream(w, ids, s); }
    forall c | c in w'.conns ensures ConnOk(w', c) { FinishStreamsKeepsConn(w, ids, c); }
    forall l | l in w'.listeners ensures ListenerOk(w', l) { assert ListenerOk(w, l); }
  }

  /** A stream goes down with its owner and with nobody else. */
  lemma DoomedMeansOwned(w: World, ids: set<nat>, s: nat)
    requires CoreInv(w) && s in w.streams
    ensures s in Doomed(w, ids) <==>
            w.streams[s].owner in ids && !w.streams[s].settled && !w.streams[s].late
  {
    assert StreamOk(w, s);
    var c := w.streams[s].owner;
    if s in Doomed(w, ids) {
      var c' :| c' in ids && c' in w.conns && w.conns[c'].settlement.None? && s in w.conns[c'].openStreams;
      assert ConnOk(w, c');
    }
  }

  lemma FinishConnsKeepsStreams(w: World, ids: set<nat>, error: Option<IrohError>, s: nat)
    requires CoreInv(w) && s in w.streams
    ensures StreamOk(FinishConns(w, ids, error), s)
  {
    DoomedMeansOwned(w, ids, s);
    assert StreamOk(w, s);
    assert ConnOk(w, w.streams[s].owner);
  }

  lemma FinishConnsKeepsConn(w: World, ids: set<nat>, error: Option<IrohError>, c: nat)
    requires CoreInv(w) && c in w.conns
    ensures ConnOk(FinishConns(w, ids, error), c)
  {
    assert ConnOk(w, c);
  }

  lemma FinishConnsKeepsInv(w: World, ids: set<nat>, error: Option<IrohError>)
    requires WorldInv(w)
    ensures WorldInv(FinishConns(w, ids, error))
  {
    var w' := FinishConns(w, ids, error);
    forall s | s in w'.streams ensures StreamOk(w', s) { FinishConnsKeepsStreams(w, ids, error, s); }
    forall c | c in w'.conns ensures ConnOk(w', c) { FinishConnsKeepsConn(w, ids, error, c); }
    forall l | l in w'.listeners ensures ListenerOk(w', l) { assert ListenerOk(w, l); }
  }

  lemma WithConnKeepsInv(w: World, c: nat)
    requires WorldInv(w) && c !in w.conns
    ensures WorldInv(WithConn(w, c))
  {
    var w' := WithConn(w, c);
    forall s | s in w'.streams ensures StreamOk(w', s) { assert StreamOk(w, s); }
    forall d | d in w'.conns ensures ConnOk(w', d) { if d != c { assert ConnOk(w, d); } }
    forall l | l in w'.listeners ensures ListenerOk(w', l) { assert ListenerOk(w, l); }
  }

  /** A queue step may take values out, close, and let in nothing but known values. */
  ghost predicate Narrows(q: Queue<nat, IrohError>, q': Queue<nat, IrohError>, extra: set<nat>)
  {
    && (forall x :: x in q'.buffer ==> x in q.buffer || x in extra)
    && (IsClosed(q) ==> IsClosed(q'))
    && (IsClosed(q') ==> q'.buffer == [])
    && Backlogged(q')
  }

  lemma QueueStepsNarrow(q: Queue<nat, IrohError>, value: nat, error: Option<IrohError>)
    requires (IsClosed(q) ==> q.buffer == []) && Backlogged(q)
    ensures Narrows(q, Pushed(q, value).0, {value})
    ensures Narrows(q, Nexted(q).0, {})
    ensures Narrows(q, Closed(q, error).0, {})
  {
  }

  lemma SetIncomingKeepsInv(w: World, c: nat, q: Queue<nat, IrohError>, extra: set<nat>)
    requires WorldInv(w) && c in w.conns && Narrows(w.conns[c].incoming, q, extra)
    requires forall s :: s in extra ==> s in w.streams && w.streams[s].owner == c
    ensures WorldInv(SetIncoming(w, c, q))
  {
    var w' := SetIncoming(w, c, q);
    forall s | s in w'.streams ensures StreamOk(w', s) { assert StreamOk(w, s); }
    forall d | d in w'.conns ensures ConnOk(w', d) { assert ConnOk(w, d); }
    forall l | l in w'.listeners ensures ListenerOk(w', l) { assert ListenerOk(w, l); }
  }

  lemma SetAcceptedKeepsInv(w: World, l: nat, q: Queue<nat, IrohError>, extra: set<nat>)
    requires WorldInv(w) && l in w.listeners && Narrows(w.listeners[l].accepted, q, extra)
    requires extra <= w.conns.Keys
    ensures WorldInv(SetAccepted(w, l, q))
  {
    var w' := SetAccepted(w, l, q);
    forall s | s in w'.streams ensures StreamOk(w', s) { assert StreamOk(w, s); }
    forall d | d in w'.conns ensures ConnOk(w', d) { assert ConnOk(w, d); }
    forall k | k in w'.listeners ensures ListenerOk(w', k) { assert ListenerOk(w, k); }
  }

  lemma AdoptKeepsInv(w: World, c: nat, s: nat)
    requires WorldInv(w) && c in w.conns && s !in w.streams
    ensures WorldInv(Adopt(w, c, s))
  {
    var w' := Adopt(w, c, s);
    assert forall d :: d in w.conns ==> s !in w.conns[d].openStreams by {
      forall d | d in w.conns ensures s !in w.conns[d].openStreams { assert ConnOk(w, d); }
    }
    forall t | t in w'.streams ensures StreamOk(w', t) { if t != s { assert StreamOk(w, t); } }
    forall d | d in w'.conns ensures ConnOk(w', d) { assert ConnOk(w, d); }
    forall l | l in w'.listeners ensures ListenerOk(w', l) { assert ListenerOk(w, l); }
  }

  lemma DropKeepsInv(w: World, c: nat, s: nat)
    requires WorldInv(w) && c in w.conns && s !in w.streams
    ensures WorldInv(w.(streams := w.streams[s := StreamInfo(c, true, 1, w.conns[c].settlement.Some?)]))
  {
    var w' := w.(streams := w.streams[s := StreamInfo(c, true, 1, w.conns[c].settlement.Some?)]);
    forall t | t in w'.streams ensures StreamOk(w', t) {
      if t != s { assert StreamOk(w, t); } else { assert ConnOk(w, c); }
    }
    forall d | d in w'.conns ensures ConnOk(w', d) { assert ConnOk(w, d); }
    forall l | l in w'.listeners ensures ListenerOk(w', l) { assert ListenerOk(w, l); }
  }

  lemma ListenKeepsInv(w: World, l: nat)
    requires WorldInv(w) && l !in w.listeners
    ensures WorldInv(Happen(w, Listen(l)).value)
  {
    var w' := Happen(w, Listen(l)).value;
    forall s | s in w'.streams ensures StreamOk(w', s) { assert StreamOk(w, s); }
    forall d | d in w'.conns ensures ConnOk(w', d) { assert ConnOk(w, d); }
    forall k | k in w'.listeners ensures ListenerOk(w', k) { if k != l { assert ListenerOk(w, k); } }
  }

  lemma StopListenersKeepsInv(w: World, ids: set<nat>, error: Option<IrohError>)
    requires WorldInv(w)
    ensures WorldInv(StopListeners(w, ids, error))
  {
    var w' := StopListeners(w, ids, error);
    forall s | s in w'.streams ensures StreamOk(w', s) { assert StreamOk(w, s); }
    forall d | d in w'.conns ensures ConnOk(w', d) { assert ConnOk(w, d); }
    forall l | l in w'.listeners ensures ListenerOk(w', l) { assert ListenerOk(w, l); }
  }

  /** The two records say nothing about what is open. */
  lemma CreditKeepsInv(w: World, handed: set<nat>, strays: set<nat>)
    requires WorldInv(w)
    ensures WorldInv(Credited(w, handed, strays))
  {
    var w' := Credited(w, handed, strays);
    forall s | s in w'.streams ensures StreamOk(w', s) { assert StreamOk(w, s); }
    forall c | c in w'.conns ensures ConnOk(w', c) { assert ConnOk(w, c); }
    forall l | l in w'.listeners ensures ListenerOk(w', l) { assert ListenerOk(w, l); }
  }

  lemma QueueConnKeepsInv(w: World, l: nat, c: nat)
    requires WorldInv(w) && l in w.listeners && c in w.conns
    ensures WorldInv(QueueConn(w, l, c))
  {
    var q := w.listeners[l].accepted;
    var (q', out) := Pushed(q, c);
    var stray := if IsClosed(q) then {c} else {};
    SetAcceptedKeepsInv(w, l, q', {c}) by {
      assert ListenerOk(w, l);
      QueueStepsNarrow(q, c, None);
    }
    CreditKeepsInv(SetAccepted(w, l, q'), Yielded(out), stray);
    FinishConnsKeepsInv(Credited(SetAccepted(w, l, q'), Yielded(out), stray), Evictee(q, c), None);
  }

  lemma RefuseKeepsInv(w: World, c: nat)
    requires WorldInv(w) && c !in w.conns
    ensures WorldInv(w.(conns := w.conns[c := RefusedConn()]))
  {
    var w' := w.(conns := w.conns[c := RefusedConn()]);
    forall s | s in w'.streams ensures StreamOk(w', s) { assert StreamOk(w, s); }
    forall d | d in w'.conns ensures ConnOk(w', d) { if d != c { assert ConnOk(w, d); } }
    forall l | l in w'.listeners ensures ListenerOk(w', l) { assert ListenerOk(w, l); }
  }

  lemma AcceptKeepsInv(w: World, l: nat, c: nat, adopts: bool)
    requires WorldInv(w) && l in w.listeners && c !in w.conns
    ensures WorldInv(Happen(w, Accept(l, c, adopts)).value)
  {
    if adopts {
      WithConnKeepsInv(w, c);
      QueueConnKeepsInv(WithConn(w, c), l, c);
    } else {
      RefuseKeepsInv(w, c);
    }
  }

  lemma PeerStreamKeepsInv(w: World, c: nat, s: nat)
    requires WorldInv(w) && c in w.conns && s !in w.streams
    ensures WorldInv(QueueStream(Adopt(w, c, s), c, s))
  {
    var w' := Adopt(w, c, s);
    assert WorldInv(w') by { AdoptKeepsInv(w, c, s); }
    assert c in w'.conns && s in w'.streams && w'.streams[s].owner == c;
    QueueStreamKeepsInv(w', c, s);
  }

  lemma QueueStreamKeepsInv(w: World, c: nat, s: nat)
    requires WorldInv(w) && c in w.conns && s in w.streams && w.streams[s].owner == c
    ensures WorldInv(QueueStream(w, c, s))
  {
    var q := w.conns[c].incoming;
    IncomingKeepsInv(w, c, Pushed(q, s).0, {s}, Evictee(q, s)) by {
      assert ConnOk(w, c);
      QueueStepsNarrow(q, s, None);
    }
  }

  lemma IncomingKeepsInv(w: World, c: nat, q: Queue<nat, IrohError>, extra: set<nat>, gone: set<nat>)
    requires WorldInv(w) && c in w.conns && Narrows(w.conns[c].incoming, q, extra)
    requires forall s :: s in extra ==> s in w.streams && w.streams[s].owner == c
    ensures WorldInv(FinishStreams(SetIncoming(w, c, q), gone))
  {
    SetIncomingKeepsInv(w, c, q, extra);
    FinishStreamsKeepsInv(SetIncoming(w, c, q), gone);
  }

  lemma NextConnectionKeepsInv(w: World, l: nat)
    requires WorldInv(w) && l in w.listeners
    ensures WorldInv(Happen(w, NextConnection(l)).value)
  {
    var (q, out) := Nexted(w.listeners[l].accepted);
    SetAcceptedKeepsInv(w, l, q, {}) by {
      assert ListenerOk(w, l);
      QueueStepsNarrow(w.listeners[l].accepted, 0, None);
    }
    CreditKeepsInv(SetAccepted(w, l, q), Yielded(out), {});
  }

  lemma NextStreamKeepsInv(w: World, c: nat)
    requires WorldInv(w) && c in w.conns
    ensures WorldInv(SetIncoming(w, c, Nexted(w.conns[c].incoming).0))
  {
    assert ConnOk(w, c);
    QueueStepsNarrow(w.conns[c].incoming, 0, None);
    SetIncomingKeepsInv(w, c, Nexted(w.conns[c].incoming).0, {});
  }

  lemma BreakConnectionsKeepsInv(w: World, l: nat)
    requires WorldInv(w) && l in w.listeners
    ensures WorldInv(Happen(w, BreakConnections(l)).value)
  {
    var q := w.listeners[l].accepted;
    SetAcceptedKeepsInv(w, l, Closed(q, None).0, {}) by {
      assert ListenerOk(w, l);
      QueueStepsNarrow(q, 0, None);
    }
    FinishConnsKeepsInv(SetAccepted(w, l, Closed(q, None).0), Unclaimed(q), None);
  }

  lemma BreakIncomingKeepsInv(w: World, c: nat)
    requires WorldInv(w) && c in w.conns
    ensures WorldInv(Happen(w, BreakIncoming(c)).value)
  {
    var q := w.conns[c].incoming;
    IncomingKeepsInv(w, c, Closed(q, None).0, {}, Unclaimed(q)) by {
      assert ConnOk(w, c);
      QueueStepsNarrow(q, 0, None);
    }
  }

  lemma FinishListenersKeepsInv(w: World, ids: set<nat>, error: Option<IrohError>)
    requires WorldInv(w)
    ensures WorldInv(FinishListeners(w, ids, error))
  {
    StopListenersKeepsInv(w, ids, error);
    FinishConnsKeepsInv(StopListeners(w, ids, error), Waiting(w, ids), None);
  }

  lemma CloseAllKeepsInv(w: World)
    requires WorldInv(w)
    ensures WorldInv(CloseAll(w))
  {
    FinishListenersKeepsInv(w, w.liveListeners, None);
    var w' := FinishListeners(w, w.liveListeners, None);
    FinishConnsKeepsInv(w', w'.connections, None);
  }

  lemma StepKeepsInv(w: World, e: Event)
    requires WorldInv(w) && Happen(w, e).Some?
    ensures WorldInv(Happen(w, e).value)
  {
    match e
    case Dial(c) =>
      WithConnKeepsInv(w, c);
      CreditKeepsInv(WithConn(w, c), {c}, {});
    case Listen(l) => ListenKeepsInv(w, l);
    case Accept(l, c, adopts) => AcceptKeepsInv(w, l, c, adopts);
    case NextConnection(l) => NextConnectionKeepsInv(w, l);
    case BreakConnections(l) => BreakConnectionsKeepsInv(w, l);
    case CloseListener(l, error) => FinishListenersKeepsInv(w, {l}, error);
    case PeerStream(c, s, subscribes) =>
      if subscribes { PeerStreamKeepsInv(w, c, s); } else { DropKeepsInv(w, c, s); }
    case OpenStream(c, s) => AdoptKeepsInv(w, c, s);
    case NextStream(c) => NextStreamKeepsInv(w, c);
    case BreakIncoming(c) => BreakIncomingKeepsInv(w, c);
    case EndStream(s) => FinishStreamsKeepsInv(w, {s});
    case CloseConnection(c, error) => FinishConnsKeepsInv(w, {c}, error);
    case CloseEndpoint => CloseAllKeepsInv(w);
  }

  /** The world after a run, `None` if some event of it could not happen. */
  function After(w: World, events: seq<Event>): Option<World>
  {
    if events == [] then Some(w)
    else
      var before := After(w, events[..|events| - 1]);
      if before.None? then None else Happen(before.value, events[|events| - 1])
  }

  /** In every reachable world each native handle was released exactly as often as its owner has
      ended (never twice), and a connection's open streams are its adopted, unsettled ones. */
  lemma {:induction false} RunKeepsInv(events: seq<Event>)
    requires After(EmptyWorld(), events).Some?
    ensures WorldInv(After(EmptyWorld(), events).value)
  {
    if events != [] {
      var init := events[..|events| - 1];
      RunKeepsInv(init);
      StepKeepsInv(After(EmptyWorld(), init).value, events[|events| - 1]);
    }
  }

  // ---------------------------------------------------------------- closing an owner

  ghost predicate Over(s: StreamInfo)
  {
    s.settled && s.closes == 1
  }

  ghost predicate Finished(c: ConnInfo)
  {
    c.settlement.Some? && c.closes == 1 && c.incoming.buffer == []
  }

  /** Closing a connection closes it and every stream it has adopted while open, each natively
      once, and touches no other connection, no other connection's stream and no listener. */
  lemma CloseConnectionTakesItsStreams(w: World, c: nat, error: Option<IrohError>)
    requires WorldInv(w) && c in w.conns
    ensures var w' := Happen(w, CloseConnection(c, error)).value;
      && w'.conns.Keys == w.conns.Keys && w'.streams.Keys == w.streams.Keys && w'.listeners == w.listeners
      && Finished(w'.conns[c])
      && w'.conns[c].settlement == Some(if w.conns[c].settlement.Some? then w.conns[c].settlement.value else error)
      && (forall s :: s in w.streams && w.streams[s].owner == c && !w.streams[s].late ==> Over(w'.streams[s]))
      && (forall d :: d in w.conns && d != c ==> w'.conns[d] == w.conns[d])
      && (forall s :: s in w.streams && w.streams[s].owner != c ==> w'.streams[s] == w.streams[s])
  {
    assert ConnOk(w, c);
    forall s | s in w.streams
      ensures w.streams[s].owner == c && !w.streams[s].late ==> Over(FinishConns(w, {c}, error).streams[s])
      ensures w.streams[s].owner != c ==> FinishConns(w, {c}, error).streams[s] == w.streams[s]
    {
      DoomedMeansOwned(w, {c}, s);
      assert StreamOk(w, s);
    }
  }

  lemma SecondCloseChangesNothing(w: World, c: nat, error: Option<IrohError>)
    requires CoreInv(w) && c in w.conns && w.conns[c].settlement.Some?
    ensures Happen(w, CloseConnection(c, error)) == Some(w)
  {
    var w' := FinishConns(w, {c}, error);
    assert Doomed(w, {c}) == {};
    assert w'.streams == w.streams;
    assert w'.conns == w.conns;
    assert w'.connections == w.connections;
  }

  /** The connections a closing listener takes with it: those nobody has picked up yet. */
  function StillWaiting(w: World, l: nat): set<nat>
    requires l in w.listeners
  {
    if w.listeners[l].disposed then {} else Members(w.listeners[l].accepted.buffer)
  }

  lemma CloseListenerOnConn(w: World, l: nat, error: Option<IrohError>, c: nat)
    requires WorldInv(w) && l in w.listeners && c in w.conns
    ensures var w' := FinishListeners(w, {l}, error);
      && (c in StillWaiting(w, l) ==> Finished(w'.conns[c]))
      && (c !in StillWaiting(w, l) ==> w'.conns[c] == w.conns[c])
  {
    assert ConnOk(w, c);
    assert Waiting(w, {l}) == StillWaiting(w, l);
  }

  lemma CloseListenerOnStream(w: World, l: nat, error: Option<IrohError>, s: nat)
    requires WorldInv(w) && l in w.listeners && s in w.streams
    ensures var w' := FinishListeners(w, {l}, error);
      && (w.streams[s].owner in StillWaiting(w, l) && !w.streams[s].late ==> Over(w'.streams[s]))
      && (w.streams[s].owner !in StillWaiting(w, l) ==> w'.streams[s] == w.streams[s])
  {
    StopListenersKeepsInv(w, {l}, error);
    var w1 := StopListeners(w, {l}, error);
    assert Waiting(w, {l}) == StillWaiting(w, l);
    DoomedMeansOwned(w1, Waiting(w, {l}), s);
    assert StreamOk(w, s);
  }

  /** Closing a listener stops it natively once and finishes exactly the connections still
      waiting in it; a handed-over connection and all its streams stay as they are. */
  lemma CloseListenerSparesHandedOver(w: World, l: nat, error: Option<IrohError>)
    requires WorldInv(w) && l in w.listeners
    ensures var w' := Happen(w, CloseListener(l, error)).value;
      && w'.listeners.Keys == w.listeners.Keys && w'.conns.Keys == w.conns.Keys && w'.streams.Keys == w.streams.Keys
      && w'.listeners[l].disposed && w'.listeners[l].stops == 1 && w'.listeners[l].accepted.buffer == []
      && (forall k :: k in w.listeners && k != l ==> w'.listeners[k] == w.listeners[k])
      && (forall c :: c in StillWaiting(w, l) ==> c in w.conns && Finished(w'.conns[c]))
      && (forall c :: c in w.conns && c !in StillWaiting(w, l) ==> w'.conns[c] == w.conns[c])
      && (forall s :: s in w.streams && w.streams[s].owner in StillWaiting(w, l) && !w.streams[s].late ==>
            Over(w'.streams[s]))
      && (forall s :: s in w.streams && w.streams[s].owner !in StillWaiting(w, l) ==>
            w'.streams[s] == w.streams[s])
  {
    assert ListenerOk(w, l);
    forall c | c in w.conns
      ensures c in StillWaiting(w, l) ==> Finished(FinishListeners(w, {l}, error).conns[c])
      ensures c !in StillWaiting(w, l) ==> FinishListeners(w, {l}, error).conns[c] == w.conns[c]
    {
      CloseListenerOnConn(w, l, error, c);
    }
    forall s | s in w.streams
      ensures w.streams[s].owner in StillWaiting(w, l) && !w.streams[s].late ==>
              Over(FinishListeners(w, {l}, error).streams[s])
      ensures w.streams[s].owner !in StillWaiting(w, l) ==>
              FinishListeners(w, {l}, error).streams[s] == w.streams[s]
    {
      CloseListenerOnStream(w, l, error, s);
    }
  }

  lemma CloseAllEndsConn(w: World, c: nat)
    requires WorldInv(w) && c in w.conns
    ensures Finished(CloseAll(w).conns[c])
  {
    FinishListenersKeepsInv(w, w.liveListeners, None);
    var w1 := FinishListeners(w, w.liveListeners, None);
    assert ConnOk(w1, c);
  }

  lemma CloseAllStopsListener(w: World, l: nat)
    requires WorldInv(w) && l in w.listeners
    ensures CloseAll(w).listeners[l].disposed && CloseAll(w).listeners[l].stops == 1
  {
    assert ListenerOk(w, l);
  }

  lemma CloseAllEmptiesSets(w: World)
    requires WorldInv(w)
    ensures CloseAll(w).connections == {} && CloseAll(w).liveListeners == {}
  {
    CloseAllKeepsInv(w);
    var w' := CloseAll(w);
    forall c | c in w'.conns ensures c !in w'.connections {
      CloseAllEndsConn(w, c);
      assert ConnOk(w', c);
    }
  }

  lemma CloseAllEndsStream(w: World, s: nat)
    requires WorldInv(w) && s in w.streams
    ensures Over(CloseAll(w).streams[s]) <==> !(w.streams[s].late && !w.streams[s].settled)
  {
    StopListenersKeepsInv(w, w.liveListeners, None);
    FinishListenersKeepsInv(w, w.liveListeners, None);
    var w1 := FinishListeners(w, w.liveListeners, None);
    DoomedMeansOwned(StopListeners(w, w.liveListeners, None), Waiting(w, w.liveListeners), s);
    DoomedMeansOwned(w1, w1.connections, s);
    assert StreamOk(w, s);
    assert StreamOk(w1, s);
    assert ConnOk(w1, w.streams[s].owner);
  }

  /** Endpoint close reaches everything: every listener has stopped, every connection has
      finished, and the only streams left open are those adopted by a connection after it had
      finished. */
  lemma CloseEndpointReachesEverything(w: World)
    requires WorldInv(w)
    ensures var w' := Happen(w, CloseEndpoint).value;
      && w'.streams.Keys == w.streams.Keys && w'.conns.Keys == w.conns.Keys
      && w'.listeners.Keys == w.listeners.Keys
      && w'.connections == {} && w'.liveListeners == {}
      && (forall l :: l in w'.listeners ==> w'.listeners[l].disposed && w'.listeners[l].stops == 1)
      && (forall c :: c in w'.conns ==> Finished(w'.conns[c]))
      && (forall s :: s in w.streams ==>
            (Over(w'.streams[s]) <==> !(w.streams[s].late && !w.streams[s].settled)))
  {
    var w' := CloseAll(w);
    CloseAllEmptiesSets(w);
    forall l | l in w'.listeners ensures w'.listeners[l].disposed && w'.listeners[l].stops == 1 {
      CloseAllStopsListener(w, l);
    }
    forall c | c in w'.conns ensures Finished(w'.conns[c]) {
      CloseAllEndsConn(w, c);
    }
    forall s | s in w.streams
      ensures Over(w'.streams[s]) <==> !(w.streams[s].late && !w.streams[s].settled)
    {
      CloseAllEndsStream(w, s);
    }
  }

  lemma AfterSnoc(w: World, events: seq<Event>, e: Event)
    requires After(w, events).Some?
    ensures After(w, events + [e]) == Happen(After(w, events).value, e)
  {
    assert (events + [e])[..|events + [e]| - 1] == events;
  }

  /** A connection that finished, and then a stream opened on it. */
  function LateWorld(): World
  {
    Adopt(FinishConns(Credited(WithConn(EmptyWorld(), 0), {0}, {}), {0}, None), 0, 1)
  }

  lemma LateWorldIsReachable()
    ensures After(EmptyWorld(), [Dial(0), CloseConnection(0, None), OpenStream(0, 1)]) == Some(LateWorld())
  {
    var w0 := EmptyWorld();
    AfterSnoc(w0, [], Dial(0));
    assert [] + [Dial(0)] == [Dial(0)];
    AfterSnoc(w0, [Dial(0)], CloseConnection(0, None));
    assert [Dial(0)] + [CloseConnection(0, None)] == [Dial(0), CloseConnection(0, None)];
    AfterSnoc(w0, [Dial(0), CloseConnection(0, None)], OpenStream(0, 1));
    assert [Dial(0), CloseConnection(0, None)] + [OpenStream(0, 1)] ==
           [Dial(0), CloseConnection(0, None), OpenStream(0, 1)];
  }

  lemma LateWorldLeaks()
    requires WorldInv(LateWorld())
    ensures 1 in CloseAll(LateWorld()).streams && CloseAll(LateWorld()).streams[1].closes == 0
  {
    var w := LateWorld();
    assert w.streams[1] == StreamInfo(0, false, 0, true);
    CloseAllEndsStream(w, 1);
    CloseAllKeepsInv(w);
    assert StreamOk(CloseAll(w), 1);
  }

  /** "Closing the endpoint closes its streams" fails for a stream opened on a connection that
      finished while the native call was under way: the cascade does not reach it, and only its
      own end will close it. */
  lemma LateStreamEscapes()
    ensures var run := [Dial(0), CloseConnection(0, None), OpenStream(0, 1)] + [CloseEndpoint];
      && After(EmptyWorld(), run).Some?
      && 1 in After(EmptyWorld(), run).value.streams
      && After(EmptyWorld(), run).value.streams[1].closes == 0
  {
    var start := [Dial(0), CloseConnection(0, None), OpenStream(0, 1)];
    LateWorldIsReachable();
    RunKeepsInv(start);
    LateWorldLeaks();
    AfterSnoc(EmptyWorld(), start, CloseEndpoint);
  }

  // ---------------------------------------------------------------- one at a time

  lemma FinishStreamsCompose(w: World, a: set<nat>, b: set<nat>)
    ensures FinishStreams(FinishStreams(w, a), b) == FinishStreams(w, a + b)
  {
    var w1, w2 := FinishStreams(FinishStreams(w, a), b), FinishStreams(w, a + b);
    assert w1.streams == w2.streams;
    assert forall c :: c in w.conns ==> w1.conns[c].openStreams == w2.conns[c].openStreams;
    assert w1.conns == w2.conns;
  }

  lemma FinishConnsCompose(w: World, a: set<nat>, b: set<nat>, error: Option<IrohError>)
    ensures FinishConns(FinishConns(w, a, error), b, error) == FinishConns(w, a + b, error)
  {
    var w' := FinishConns(w, a, error);
    var w1, w2 := FinishConns(w', b, error), FinishConns(w, a + b, error);
    assert Doomed(w', b) + Doomed(w, a) == Doomed(w, a + b);
    assert w1.streams == w2.streams;
    assert w1.conns == w2.conns;
    assert w1.connections == w2.connections;
  }

  lemma FinishConnsNone(w: World, error: Option<IrohError>)
    ensures FinishConns(w, {}, error) == w
  {
    var w' := FinishConns(w, {}, error);
    assert Doomed(w, {}) == {};
    assert w'.streams == w.streams && w'.conns == w.conns && w'.connections == w.connections;
  }

  lemma StopCommutes(w: World, ids: set<nat>, gone: set<nat>, error: Option<IrohError>)
    ensures StopListeners(FinishConns(w, gone, None), ids, error) == FinishConns(StopListeners(w, ids, error), gone, None)
  {
    assert Doomed(StopListeners(w, ids, error), gone) == Doomed(w, gone);
  }

  lemma StopCompose(w: World, a: set<nat>, b: set<nat>, error: Option<IrohError>)
    ensures StopListeners(StopListeners(w, a, error), b, error) == StopListeners(w, a + b, error)
  {
    var w1, w2 := StopListeners(StopListeners(w, a, error), b, error), StopListeners(w, a + b, error);
    assert w1.listeners == w2.listeners;
    assert w1.liveListeners == w2.liveListeners;
  }

  lemma FinishListenersCompose(w: World, a: set<nat>, b: set<nat>, error: Option<IrohError>)
    ensures FinishListeners(FinishListeners(w, a, error), b, error) == FinishListeners(w, a + b, error)
  {
    var w' := FinishListeners(w, a, error);
    StopCommutes(StopListeners(w, a, error), b, Waiting(w, a), error);
    StopCompose(w, a, b, error);
    FinishConnsCompose(StopListeners(w, a + b, error), Waiting(w, a), Waiting(w', b), None);
    assert Waiting(w, a) + Waiting(w', b) == Waiting(w, a + b);
  }

  // ---------------------------------------------------------------- the classes

  /** The stream is in its owner's set exactly while it is open, and in nobody else's. */
  ghost predicate Tracked(w: World, s: nat)
  {
    && s in w.streams && w.streams[s].owner in w.conns
    && forall c :: c in w.conns ==>
         (s in w.conns[c].openStreams <==> c == w.streams[s].owner && !w.streams[s].settled)
  }

  lemma CoreTracks(w: World, s: nat)
    requires CoreInv(w) && s in w.streams
    ensures Tracked(w, s)
  {
    assert StreamOk(w, s);
    forall c | c in w.conns
      ensures s in w.conns[c].openStreams <==> c == w.streams[s].owner && !w.streams[s].settled
    {
      assert ConnOk(w, c);
    }
  }

  lemma FinishStreamsTracks(w: World, ids: set<nat>, s: nat)
    requires Tracked(w, s)
    ensures Tracked(FinishStreams(w, ids), s)
  {
  }

  lemma SettledStreamIgnoresClose(w: World, s: nat)
    requires Tracked(w, s) && w.streams[s].settled
    ensures FinishStreams(w, {s}) == w
  {
    var w' := FinishStreams(w, {s});
    assert w'.streams == w.streams;
    assert forall c :: c in w.conns ==> w'.conns[c].openStreams == w.conns[c].openStreams;
    assert w'.conns == w.conns;
  }

  lemma FinishNoStream(w: World)
    ensures FinishStreams(w, {}) == w
  {
    var w' := FinishStreams(w, {});
    assert w'.streams == w.streams;
    assert forall c :: c in w.conns ==> w'.conns[c].openStreams == w.conns[c].openStreams;
    assert w'.conns == w.conns;
  }

  function Settling(w: World, c: nat, error: Option<IrohError>): World
    requires c in w.conns
  {
    w.(conns := w.conns[c := w.conns[c].(settlement := Some(error))])
  }

  function Drained(w: World, c: nat, error: Option<IrohError>): World
    requires c in w.conns
  {
    var w2 := FinishStreams(Settling(w, c, error), w.conns[c].openStreams);
    SetIncoming(w2, c, Closed(w.conns[c].incoming, error).0)
  }

  lemma SettlingKeepsTracked(w: World, c: nat, error: Option<IrohError>)
    requires CoreInv(w) && c in w.conns
    ensures forall s :: s in w.conns[c].openStreams ==> Tracked(Settling(w, c, error), s)
  {
    forall s | s in w.conns[c].openStreams ensures Tracked(Settling(w, c, error), s) {
      assert ConnOk(w, c);
      CoreTracks(w, s);
    }
  }

  lemma DiscardedAreOver(w: World, c: nat, error: Option<IrohError>)
    requires CoreInv(w) && c in w.conns && w.conns[c].settlement.None?
    ensures var w3 := Drained(w, c, error);
      forall s :: s in w.conns[c].incoming.buffer ==> Tracked(w3, s) && w3.streams[s].settled
  {
    var w3 := Drained(w, c, error);
    forall s | s in w.conns[c].incoming.buffer ensures Tracked(w3, s) && w3.streams[s].settled {
      assert ConnOk(w, c);
      CoreTracks(w, s);
      FinishStreamsTracks(Settling(w, c, error), w.conns[c].openStreams, s);
    }
  }

  lemma ConnectionFinished(w: World, c: nat, error: Option<IrohError>)
    requires CoreInv(w) && c in w.conns && w.conns[c].settlement.None?
    ensures var w3 := Drained(w, c, error);
      w3.(conns := w3.conns[c := w3.conns[c].(closes := w3.conns[c].closes + 1)], connections := w3.connections - {c})
      == FinishConns(w, {c}, error)
  {
    var w3 := Drained(w, c, error);
    var w4 := w3.(conns := w3.conns[c := w3.conns[c].(closes := w3.conns[c].closes + 1)], connections := w3.connections - {c});
    var w' := FinishConns(w, {c}, error);
    assert Doomed(w, {c}) == w.conns[c].openStreams;
    assert w4.streams == w'.streams;
    forall d | d in w.conns ensures w4.conns[d] == w'.conns[d] {
      assert ConnOk(w, c);
      assert ConnOk(w, d);
      assert w4.conns[d].openStreams == w'.conns[d].openStreams;
    }
    assert w4.conns == w'.conns;
    assert w4.connections == w'.connections;
  }

  lemma CoreFrame(w: World, w': World)
    requires CoreInv(w) && w'.streams == w.streams && w'.conns == w.conns && w'.connections == w.connections
    ensures CoreInv(w')
  {
    forall s | s in w'.streams ensures StreamOk(w', s) { assert StreamOk(w, s); }
    forall c | c in w'.conns ensures ConnOk(w', c) { assert ConnOk(w, c); }
  }

  lemma FinishConnsKeepsCore(w: World, ids: set<nat>, error: Option<IrohError>)
    requires CoreInv(w)
    ensures CoreInv(FinishConns(w, ids, error))
  {
    var w' := FinishConns(w, ids, error);
    forall s | s in w'.streams ensures StreamOk(w', s) { FinishConnsKeepsStreams(w, ids, error, s); }
    forall c | c in w'.conns ensures ConnOk(w', c) { FinishConnsKeepsConn(w, ids, error, c); }
  }

  /** A listener that has been stopped but is still in the endpoint's set. */
  function Stopping(w: World, l: nat, error: Option<IrohError>): World
    requires l in w.listeners
  {
    var info := w.listeners[l];
    w.(listeners := w.listeners[l := ListenerInfo(true, Closed(info.accepted, error).0, info.stops + 1)])
  }

  lemma ListenerFinished(w: World, l: nat, error: Option<IrohError>)
    requires WorldInv(w) && l in w.listeners && !w.listeners[l].disposed
    ensures var w1 := FinishConns(Stopping(w, l, error), Members(w.listeners[l].accepted.buffer), None);
      w1.(liveListeners := w1.liveListeners - {l}) == FinishListeners(w, {l}, error)
  {
    var b := Members(w.listeners[l].accepted.buffer);
    assert Waiting(w, {l}) == b;
    assert Stopping(w, l, error).listeners == StopListeners(w, {l}, error).listeners;
    assert Doomed(Stopping(w, l, error), b) == Doomed(StopListeners(w, {l}, error), b);
  }

  lemma SecondListenerCloseChangesNothing(w: World, l: nat, error: Option<IrohError>)
    requires WorldInv(w) && l in w.listeners && w.listeners[l].disposed
    ensures FinishListeners(w, {l}, error) == w
  {
    assert ListenerOk(w, l);
    assert Waiting(w, {l}) == {};
    assert StopListeners(w, {l}, error).listeners == w.listeners;
    assert StopListeners(w, {l}, error) == w;
    FinishConnsNone(w, None);
  }

  lemma FinishNoListener(w: World)
    ensures FinishListeners(w, {}, None) == w
  {
    assert Waiting(w, {}) == {};
    assert StopListeners(w, {}, None).listeners == w.listeners;
    FinishConnsNone(w, None);
  }

  /** The controllers of one endpoint with their fields, and the endpoint's own two sets. */
  class Endpoint {
    var streams: map<nat, StreamInfo>
    var conns: map<nat, ConnInfo>
    var listeners: map<nat, ListenerInfo>
    var connections: set<nat>
    var liveListeners: set<nat>
    ghost var handed: set<nat>
    ghost var strays: set<nat>

    constructor ()
      ensures State() == EmptyWorld()
    {
      streams, conns, listeners, connections, liveListeners := map[], map[], map[], {}, {};
      handed, strays := {}, {};
    }

    ghost function State(): World
      reads this
    {
      World(streams, conns, listeners, connections, liveListeners, handed, strays)
    }

    /** A stream finishes: settled once, released natively, disposed of by its connection. */
    method FinishStream(s: nat)
      requires Tracked(State(), s)
      modifies this`streams, this`conns
      ensures State() == FinishStreams(old(State()), {s})
    {
      var info := streams[s];
      if info.settled {
        SettledStreamIgnoresClose(State(), s);
        return;
      }
      streams := streams[s := info.(settled := true, closes := info.closes + 1)];
      var owner := conns[info.owner];
      conns := conns[info.owner := owner.(openStreams := owner.openStreams - {s})];
      ghost var w' := FinishStreams(old(State()), {s});
      assert streams == w'.streams;
      assert forall c :: c in conns ==> conns[c].openStreams == w'.conns[c].openStreams;
      assert conns == w'.conns;
    }

    method FinishAllStreams(ids: set<nat>)
      requires forall s :: s in ids ==> Tracked(State(), s)
      modifies this`streams, this`conns
      ensures State() == FinishStreams(old(State()), ids)
    {
      var todo := ids;
      ghost var done: set<nat> := {};
      FinishNoStream(State());
      while todo != {}
        invariant done + todo == ids
        invariant State() == FinishStreams(old(State()), done)
      {
        var s :| s in todo;
        FinishStreamsTracks(old(State()), done, s);
        FinishStream(s);
        FinishStreamsCompose(old(State()), done, {s});
        todo, done := todo - {s}, done + {s};
      }
      assert done == ids;
    }

    /** A connection finishes: settled once, its open streams closed, the streams nobody picked up
        discarded (they are closed already), released natively, dropped by the endpoint. */
    method FinishConnection(c: nat, error: Option<IrohError>)
      requires CoreInv(State()) && c in conns
      modifies this`streams, this`conns, this`connections
      ensures State() == FinishConns(old(State()), {c}, error)
    {
      if conns[c].settlement.Some? {
        SecondCloseChangesNothing(State(), c, error);
        return;
      }
      ghost var w := State();
      conns := conns[c := conns[c].(settlement := Some(error))];
      ghost var w1 := State();
      SettlingKeepsTracked(w, c, error);
      FinishAllStreams(conns[c].openStreams);
      ghost var w2 := State();
      var discarded := conns[c].incoming.buffer;
      conns := conns[c := conns[c].(incoming := Closed(conns[c].incoming, error).0)];
      ghost var w3 := State();
      DiscardedAreOver(w, c, error);
      for i := 0 to |discarded|
        invariant State() == w3
      {
        SettledStreamIgnoresClose(w3, discarded[i]);
        FinishStream(discarded[i]);
      }
      conns := conns[c := conns[c].(closes := conns[c].closes + 1)];
      connections := connections - {c};
      ConnectionFinished(w, c, error);
    }

    method FinishListener(l: nat, error: Option<IrohError>)
      requires WorldInv(State()) && l in listeners
      modifies this
      ensures State() == FinishListeners(old(State()), {l}, error)
    {
      if listeners[l].disposed {
        SecondListenerCloseChangesNothing(State(), l, error);
        return;
      }
      ghost var w := State();
      assert ListenerOk(w, l);
      var info := listeners[l];
      var discarded := info.accepted.buffer;
      listeners := listeners[l := ListenerInfo(true, Closed(info.accepted, error).0, info.stops + 1)];
      ghost var w1 := State();
      CoreFrame(w, w1);
      FinishConnsNone(w1, None);
      for i := 0 to |discarded|
        invariant State() == FinishConns(w1, Members(discarded[..i]), None)
      {
        ghost var before := Members(discarded[..i]);
        FinishConnsKeepsCore(w1, before, None);
        FinishConnection(discarded[i], None);
        FinishConnsCompose(w1, before, {discarded[i]}, None);
        assert before + {discarded[i]} == Members(discarded[..i + 1]);
      }
      assert discarded[..|discarded|] == discarded;
      liveListeners := liveListeners - {l};
      ListenerFinished(w, l, error);
    }

    /** The stream part of closing the endpoint. */
    method CloseEverything()
      requires WorldInv(State())
      modifies this
      ensures State() == CloseAll(old(State()))
    {
      var todo := liveListeners;
      ghost var done: set<nat> := {};
      ghost var w := State();
      FinishNoListener(w);
      while todo != {}
        invariant done + todo == old(liveListeners)
        invariant todo <= listeners.Keys
        invariant State() == FinishListeners(w, done, None)
      {
        var l :| l in todo;
        FinishListenersKeepsInv(w, done, None);
        FinishListener(l, None);
        FinishListenersCompose(w, done, {l}, None);
        todo, done := todo - {l}, done + {l};
      }
      assert done == old(liveListeners);
      FinishListenersKeepsInv(w, done, None);
      CloseConnections();
    }

    method CloseConnections()
      requires CoreInv(State()) && connections <= conns.Keys
      modifies this`streams, this`conns, this`connections
      ensures State() == FinishConns(old(State()), old(connections), None)
    {
      var todo := connections;
      ghost var done: set<nat> := {};
      ghost var w := State();
      FinishConnsNone(w, None);
      while todo != {}
        invariant done + todo == old(connections)
        invariant todo <= conns.Keys
        invariant State() == FinishConns(w, done, None)
      {
        var c :| c in todo;
        FinishConnsKeepsCore(w, done, None);
        FinishConnection(c, None);
        FinishConnsCompose(w, done, {c}, None);
        todo, done := todo - {c}, done + {c};
      }
      assert done == old(connections);
    }

    /** A peer's connection arrives: it joins the endpoint's set and the listener's backlog, or is
        closed at once when wrapping it fails. */
    method OnConnection(l: nat, c: nat, adopts: bool)
      requires WorldInv(State()) && l in listeners && c !in conns
      modifies this
      ensures Happen(old(State()), Accept(l, c, adopts)) == Some(State())
    {
      if !adopts {
        conns := conns[c := RefusedConn()];
        return;
      }
      ghost var w := State();
      conns := conns[c := NewConn()];
      connections := connections + {c};
      var q := listeners[l].accepted;
      var (q', out) := Pushed(q, c);
      listeners := listeners[l := listeners[l].(accepted := q')];
      handed, strays := handed + Yielded(out), strays + if IsClosed(q) then {c} else {};
      ghost var w1 := State();
      if q'.dropped != q.dropped {
        assert ListenerOk(w, l);
        WithConnKeepsInv(w, c);
        CoreFrame(WithConn(w, c), w1);
        FinishConnection((q.buffer + [c])[0], None);
      } else {
        FinishConnsNone(w1, None);
      }
    }

    /** A peer opens a stream: adopted and queued, or closed at once when adopting fails. */
    method OnPeerStream(c: nat, s: nat, subscribes: bool)
      requires WorldInv(State()) && c in conns && s !in streams
      modifies this`streams, this`conns
      ensures Happen(old(State()), PeerStream(c, s, subscribes)) == Some(State())
    {
      if !subscribes {
        streams := streams[s := StreamInfo(c, true, 1, conns[c].settlement.Some?)];
        return;
      }
      ghost var w := State();
      streams := streams[s := StreamInfo(c, false, 0, conns[c].settlement.Some?)];
      conns := conns[c := conns[c].(openStreams := conns[c].openStreams + {s})];
      ghost var w1 := State();
      AdoptKeepsInv(w, c, s);
      var q := conns[c].incoming;
      var q' := Pushed(q, s).0;
      conns := conns[c := conns[c].(incoming := q')];
      ghost var w2 := State();
      if q'.dropped != q.dropped {
        assert ConnOk(w1, c);
        CoreTracks(w1, (q.buffer + [s])[0]);
        FinishStream((q.buffer + [s])[0]);
      } else {
        FinishNoStream(w2);
      }
    }
  }
}
