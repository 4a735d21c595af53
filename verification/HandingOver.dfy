/** Which connections reach a consumer (`StreamListenerController` in `src/streams.ts`): every
    accepted connection is received by somebody, waits for somebody, or is closed, unless its
    listener's queue was closed when it arrived. */
module HandingOver {
  import opened Base
  import opened Errors
  import opened AsyncKernel
  import Queues = MessageQueues
  import opened Ownership

  /** No connection waits in two places. */
  ghost predicate OneHolder(listeners: map<nat, ListenerInfo>)
  {
    && (forall l :: l in listeners ==> NoDup(listeners[l].accepted.buffer))
    && (forall l, k, c ::
          l in listeners && k in listeners && l != k && c in listeners[l].accepted.buffer ==>
          c !in listeners[k].accepted.buffer)
  }

  ghost predicate InNoBuffer(listeners: map<nat, ListenerInfo>, c: nat)
  {
    forall l :: l in listeners ==> c !in listeners[l].accepted.buffer
  }

  ghost predicate Waits(w: World, c: nat)
  {
    !InNoBuffer(w.listeners, c)
  }

  lemma QueueStepsKeepDistinct(q: Queues.Queue<nat, IrohError>, value: nat, error: Option<IrohError>)
    requires NoDup(q.buffer) && value !in q.buffer
    ensures NoDup(Queues.Pushed(q, value).0.buffer) && NoDup(Queues.Nexted(q).0.buffer) && NoDup(Queues.Closed(q, error).0.buffer)
  {
    assert NoDup(q.buffer + [value]);
  }

  lemma ReplaceKeepsOneHolder(listeners: map<nat, ListenerInfo>, l: nat, info: ListenerInfo)
    requires OneHolder(listeners) && NoDup(info.accepted.buffer)
    requires forall c :: c in info.accepted.buffer ==>
      InNoBuffer(listeners, c) || (l in listeners && c in listeners[l].accepted.buffer)
    ensures OneHolder(listeners[l := info])
  {
  }

  lemma NewConnIsNowhere(w: World, c: nat)
    requires WorldInv(w) && c !in w.conns
    ensures InNoBuffer(w.listeners, c)
  {
    forall l | l in w.listeners ensures c !in w.listeners[l].accepted.buffer {
      assert ListenerOk(w, l);
    }
  }

  lemma AcceptKeepsOneHolder(w: World, l: nat, c: nat)
    requires WorldInv(w) && OneHolder(w.listeners) && l in w.listeners && c !in w.conns
    ensures OneHolder(w.listeners[l := w.listeners[l].(accepted := Queues.Pushed(w.listeners[l].accepted, c).0)])
  {
    var info := w.listeners[l];
    NewConnIsNowhere(w, c);
    QueueStepsKeepDistinct(info.accepted, c, None);
    ReplaceKeepsOneHolder(w.listeners, l, info.(accepted := Queues.Pushed(info.accepted, c).0));
  }

  lemma StopKeepsOneHolder(w: World, ids: set<nat>, error: Option<IrohError>)
    requires OneHolder(w.listeners)
    ensures OneHolder(StopListeners(w, ids, error).listeners)
  {
    var w' := StopListeners(w, ids, error);
    assert forall l :: l in w.listeners ==>
      w'.listeners[l].accepted.buffer == [] || w'.listeners[l].accepted.buffer == w.listeners[l].accepted.buffer;
  }

  /** Where every connection is. `gone` are those just taken out of a queue and about to be
      closed. */
  ghost predicate Placed(w: World, gone: set<nat>)
  {
    && OneHolder(w.listeners)
    && w.handed + w.strays <= w.conns.Keys && w.handed !! w.strays
    && (forall c :: c in w.handed + w.strays ==> InNoBuffer(w.listeners, c))
    && (forall c :: c in w.conns && w.conns[c].settlement.None? ==>
          c in w.handed || c in w.strays || Waits(w, c) || c in gone)
  }

  lemma FinishPlaces(w: World, ids: set<nat>, error: Option<IrohError>)
    requires Placed(w, ids)
    ensures Placed(FinishConns(w, ids, error), {})
  {
  }

  /** Events that touch neither queues nor records, and end connections if anything. */
  lemma FramePlaces(w: World, w': World)
    requires Placed(w, {}) && w'.listeners == w.listeners && w'.handed == w.handed && w'.strays == w.strays
    requires w.conns.Keys <= w'.conns.Keys
    requires forall c :: c in w'.conns && w'.conns[c].settlement.None? ==> c in w.conns && w.conns[c].settlement.None?
    ensures Placed(w', {})
  {
  }

  /** Changing one listener's queue: what leaves it is handed over, lost or about to be closed. */
  lemma SetAcceptedPlaces(w: World, l: nat, q: Queues.Queue<nat, IrohError>, handed: set<nat>, strays: set<nat>,
                          arriving: set<nat>, gone: set<nat>)
    requires Placed(w, arriving) && l in w.listeners && NoDup(q.buffer)
    requires forall c :: c in arriving ==> InNoBuffer(w.listeners, c) && c !in w.handed + w.strays
    requires handed + strays <= w.conns.Keys && handed !! strays
    requires var before := w.listeners[l].accepted.buffer;
      && (forall c :: c in q.buffer ==> c in before || c in arriving)
      && (forall c :: c in handed + strays ==> c !in q.buffer && (c in before || c in arriving))
      && (forall c :: c in before || c in arriving ==> c in q.buffer || c in handed || c in strays || c in gone)
    ensures Placed(Credited(SetAccepted(w, l, q), handed, strays), gone)
  {
    var w' := Credited(SetAccepted(w, l, q), handed, strays);
    ReplaceKeepsOneHolder(w.listeners, l, w.listeners[l].(accepted := q));
    assert w'.listeners[l].accepted == q;
    forall c | c in w'.handed + w'.strays ensures InNoBuffer(w'.listeners, c) {}
    forall c | c in w'.conns && w'.conns[c].settlement.None?
      ensures c in w'.handed || c in w'.strays || Waits(w', c) || c in gone
    {
      if Waits(w, c) {
        var k :| k in w.listeners && c in w.listeners[k].accepted.buffer;
        assert k != l ==> c in w'.listeners[k].accepted.buffer;
      }
    }
  }

  lemma PushYields(q: Queues.Queue<nat, IrohError>, c: nat)
    ensures Yielded(Queues.Pushed(q, c).1) ==
            if !Queues.IsClosed(q) && q.consumers.waiters != [] then {c} else {}
  {
    var out := Queues.Pushed(q, c).1;
    if !Queues.IsClosed(q) && q.consumers.waiters != [] {
      assert out == [Resolve(q.consumers.waiters[0], Yield(c))];
      assert out[0] in out;
    }
  }

  lemma NextYields(q: Queues.Queue<nat, IrohError>)
    ensures Yielded(Queues.Nexted(q).1) == if q.buffer != [] then {q.buffer[0]} else {}
  {
    var out := Queues.Nexted(q).1;
    if q.buffer != [] {
      assert out == [Resolve(q.consumers.issued, Yield(q.buffer[0]))];
      assert out[0] in out;
    }
  }

  /** A pushed value and the ones before it are buffered, received, lost or evicted. */
  lemma PushMoves(q: Queues.Queue<nat, IrohError>, c: nat, x: nat)
    requires x in q.buffer || x == c
    ensures x in Queues.Pushed(q, c).0.buffer || x in Yielded(Queues.Pushed(q, c).1) ||
            (Queues.IsClosed(q) && x == c) || x in Evictee(q, c)
  {
    PushYields(q, c);
    var grown := q.buffer + [c];
    if !Queues.IsClosed(q) && q.consumers.waiters == [] {
      assert x in grown;
      var i :| 0 <= i < |grown| && grown[i] == x;
      if |grown| > q.capacity && i > 0 {
        assert grown[1..][i - 1] == x;
      }
    }
  }

  lemma AcceptPlaces(w: World, l: nat, c: nat)
    requires WorldInv(w) && Placed(w, {}) && l in w.listeners && c !in w.conns
    ensures Placed(QueueConn(WithConn(w, c), l, c), {})
  {
    var w1 := WithConn(w, c);
    var q := w.listeners[l].accepted;
    var (q', out) := Queues.Pushed(q, c);
    assert ListenerOk(w, l);
    NewConnIsNowhere(w, c);
    assert Placed(w1, {c});
    QueueStepsKeepDistinct(q, c, None);
    PushYields(q, c);
    var strays := if Queues.IsClosed(q) then {c} else {};
    forall x | x in q.buffer || x == c
      ensures x in q'.buffer || x in Yielded(out) || x in strays || x in Evictee(q, c)
    {
      PushMoves(q, c, x);
    }
    SetAcceptedPlaces(w1, l, q', Yielded(out), strays, {c}, Evictee(q, c));
    FinishPlaces(Credited(SetAccepted(w1, l, q'), Yielded(out), strays), Evictee(q, c), None);
  }

  lemma NextPlaces(w: World, l: nat)
    requires WorldInv(w) && Placed(w, {}) && l in w.listeners
    ensures Placed(Happen(w, NextConnection(l)).value, {})
  {
    var q := w.listeners[l].accepted;
    assert ListenerOk(w, l);
    NextYields(q);
    assert NoDup(Queues.Nexted(q).0.buffer);
    SetAcceptedPlaces(w, l, Queues.Nexted(q).0, Yielded(Queues.Nexted(q).1), {}, {}, {});
  }

  lemma BreakPlaces(w: World, l: nat)
    requires WorldInv(w) && Placed(w, {}) && l in w.listeners
    ensures Placed(Happen(w, BreakConnections(l)).value, {})
  {
    var q := w.listeners[l].accepted;
    assert ListenerOk(w, l);
    var w1 := SetAccepted(w, l, Queues.Closed(q, None).0);
    SetAcceptedPlaces(w, l, Queues.Closed(q, None).0, {}, {}, {}, Unclaimed(q));
    assert Credited(w1, {}, {}) == w1;
    FinishPlaces(w1, Unclaimed(q), None);
  }

  lemma StopPlaces(w: World, ids: set<nat>, error: Option<IrohError>)
    requires WorldInv(w) && Placed(w, {})
    ensures Placed(FinishListeners(w, ids, error), {})
  {
    var w1 := StopListeners(w, ids, error);
    StopKeepsOneHolder(w, ids, error);
    forall c | c in w1.conns && w1.conns[c].settlement.None?
      ensures c in w1.handed || c in w1.strays || Waits(w1, c) || c in Waiting(w, ids)
    {
      if Waits(w, c) {
        var k :| k in w.listeners && c in w.listeners[k].accepted.buffer;
        assert ListenerOk(w, k);
        assert c in w1.listeners[k].accepted.buffer || c in Waiting(w, ids);
      }
    }
    FinishPlaces(w1, Waiting(w, ids), None);
  }

  lemma CloseAllPlaces(w: World)
    requires WorldInv(w) && Placed(w, {})
    ensures Placed(CloseAll(w), {})
  {
    StopPlaces(w, w.liveListeners, None);
    var w' := FinishListeners(w, w.liveListeners, None);
    FramePlaces(w', FinishConns(w', w'.connections, None));
  }

  lemma StreamStepPlaces(w: World, e: Event)
    requires Placed(w, {}) && Happen(w, e).Some?
    requires e.PeerStream? || e.OpenStream? || e.NextStream? || e.BreakIncoming? || e.EndStream? || e.CloseConnection?
    ensures Placed(Happen(w, e).value, {})
  {
    FramePlaces(w, Happen(w, e).value);
  }

  lemma DialPlaces(w: World, c: nat)
    requires WorldInv(w) && Placed(w, {}) && c !in w.conns
    ensures Placed(Happen(w, Dial(c)).value, {})
  {
    NewConnIsNowhere(w, c);
  }

  lemma StepKeepsPlaces(w: World, e: Event)
    requires WorldInv(w) && Placed(w, {}) && Happen(w, e).Some?
    ensures Placed(Happen(w, e).value, {})
  {
    match e {
      case Dial(c) => DialPlaces(w, c);
      case Listen(l) => ListenPlaces(w, l);
      case Accept(l, c, adopts) =>
        if adopts { AcceptPlaces(w, l, c); } else { FramePlaces(w, Happen(w, e).value); }
      case NextConnection(l) => NextPlaces(w, l);
      case BreakConnections(l) => BreakPlaces(w, l);
      case CloseListener(l, error) => StopPlaces(w, {l}, error);
      case CloseEndpoint => CloseAllPlaces(w);
      case _ => StreamStepPlaces(w, e);
    }
  }

  lemma ListenPlaces(w: World, l: nat)
    requires Placed(w, {}) && l !in w.listeners
    ensures Placed(Happen(w, Listen(l)).value, {})
  {
    var w' := Happen(w, Listen(l)).value;
    ReplaceKeepsOneHolder(w.listeners, l, ListenerInfo(false, Queues.Create(Some(DEFAULT_STREAM_BACKLOG)), 0));
    forall c | c in w'.conns && w'.conns[c].settlement.None?
      ensures c in w'.handed || c in w'.strays || Waits(w', c)
    {
      if Waits(w, c) {
        var k :| k in w.listeners && c in w.listeners[k].accepted.buffer;
        assert c in w'.listeners[k].accepted.buffer;
      }
    }
  }

  lemma {:induction false} RunKeepsPlaces(events: seq<Event>)
    requires After(EmptyWorld(), events).Some?
    ensures Placed(After(EmptyWorld(), events).value, {})
  {
    if events != [] {
      var init := events[..|events| - 1];
      RunKeepsInv(init);
      RunKeepsPlaces(init);
      StepKeepsPlaces(After(EmptyWorld(), init).value, events[|events| - 1]);
    }
  }

  // ---------------------------------------------------------------- what every run guarantees

  /** `c` was accepted by a listener whose queue was already closed. */
  ghost predicate ArrivedLate(events: seq<Event>, c: nat)
  {
    events != [] &&
    var init, last := events[..|events| - 1], events[|events| - 1];
    ArrivedLate(init, c) ||
      (last.Accept? && last.conn == c && last.adopts &&
       After(EmptyWorld(), init).Some? && last.listener in After(EmptyWorld(), init).value.listeners &&
       Queues.IsClosed(After(EmptyWorld(), init).value.listeners[last.listener].accepted))
  }

  lemma StepStrays(w: World, e: Event)
    requires Happen(w, e).Some?
    ensures Happen(w, e).value.strays == w.strays +
      if e.Accept? && e.adopts && Queues.IsClosed(w.listeners[e.listener].accepted) then {e.conn} else {}
  {
  }

  lemma {:induction false} StraysArrivedLate(events: seq<Event>, c: nat)
    requires After(EmptyWorld(), events).Some?
    ensures c in After(EmptyWorld(), events).value.strays <==> ArrivedLate(events, c)
  {
    if events != [] {
      StraysArrivedLate(events[..|events| - 1], c);
      StepStrays(After(EmptyWorld(), events[..|events| - 1]).value, events[|events| - 1]);
    }
  }

  /** "Every connection is handed to somebody, waits for somebody or is closed" holds of a
      connection if and only if its listener's queue was open when it arrived: an open one that
      came later is neither received nor waiting, at any time. */
  lemma LookedAfterIffArrivedInTime(events: seq<Event>, c: nat)
    requires After(EmptyWorld(), events).Some?
    requires var w := After(EmptyWorld(), events).value; c in w.conns && w.conns[c].settlement.None?
    ensures var w := After(EmptyWorld(), events).value;
      && (c in w.handed || Waits(w, c) <==> !ArrivedLate(events, c))
      && !(c in w.handed && Waits(w, c))
  {
    RunKeepsPlaces(events);
    StraysArrivedLate(events, c);
  }

  /** The longest-waiting connection is what the consumer that asks receives. */
  lemma NextHandsOver(w: World, l: nat)
    requires l in w.listeners && w.listeners[l].accepted.buffer != []
    ensures var q := w.listeners[l].accepted;
      && Queues.Nexted(q).1 == [Resolve(q.consumers.issued, Yield(q.buffer[0]))]
      && q.buffer[0] in Happen(w, NextConnection(l)).value.handed
  {
    NextYields(w.listeners[l].accepted);
  }

  /** A connection accepted while a consumer is parked is what that consumer receives. */
  lemma AcceptHandsOver(w: World, l: nat, c: nat)
    requires l in w.listeners && c !in w.conns
    requires !Queues.IsClosed(w.listeners[l].accepted) && w.listeners[l].accepted.consumers.waiters != []
    ensures var q := w.listeners[l].accepted;
      && Queues.Pushed(q, c).1 == [Resolve(q.consumers.waiters[0], Yield(c))]
      && c in Happen(w, Accept(l, c, true)).value.handed
  {
    PushYields(w.listeners[l].accepted, c);
  }

  /** Open, and waiting in no listener. */
  ghost predicate Loose(w: World, c: nat)
  {
    c in w.conns && w.conns[c].settlement.None? && InNoBuffer(w.listeners, c)
  }

  lemma AcceptKeepsLoose(w: World, l: nat, d: nat, c: nat)
    requires WorldInv(w) && Loose(w, c) && l in w.listeners && d !in w.conns
    ensures Loose(QueueConn(WithConn(w, d), l, d), c)
  {
    assert ListenerOk(w, l);
    assert c !in Evictee(w.listeners[l].accepted, d);
  }

  lemma StopKeepsLoose(w: World, l: nat, error: Option<IrohError>, c: nat)
    requires Loose(w, c) && l in w.listeners
    ensures Loose(FinishListeners(w, {l}, error), c)
  {
    assert c !in Waiting(w, {l});
  }

  lemma StepKeepsLoose(w: World, e: Event, c: nat)
    requires WorldInv(w) && Loose(w, c) && Happen(w, e).Some?
    requires e != CloseEndpoint && !(e.CloseConnection? && e.conn == c)
    ensures Loose(Happen(w, e).value, c)
  {
    match e {
      case Accept(l, d, adopts) => if adopts { AcceptKeepsLoose(w, l, d, c); }
      case CloseListener(l, error) => StopKeepsLoose(w, l, error, c);
      case _ =>
    }
  }

  predicate LeavesAlone(events: seq<Event>, c: nat)
  {
    forall i :: 0 <= i < |events| ==>
      events[i] != CloseEndpoint && !(events[i].CloseConnection? && events[i].conn == c)
  }

  lemma {:induction false} LooseStaysOpen(w: World, later: seq<Event>, c: nat)
    requires WorldInv(w) && Loose(w, c) && After(w, later).Some? && LeavesAlone(later, c)
    ensures WorldInv(After(w, later).value) && Loose(After(w, later).value, c)
  {
    if later != [] {
      var init := later[..|later| - 1];
      LooseStaysOpen(w, init, c);
      StepKeepsInv(After(w, init).value, later[|later| - 1]);
      StepKeepsLoose(After(w, init).value, later[|later| - 1], c);
    }
  }

  /** A connection somebody has received stays open whatever its listener does: only closing it, its
      own native end, or closing the endpoint can finish it. */
  lemma HandedOverStaysOpen(events: seq<Event>, later: seq<Event>, c: nat)
    requires After(EmptyWorld(), events).Some?
    requires var w := After(EmptyWorld(), events).value; c in w.handed && c in w.conns && w.conns[c].settlement.None?
    requires After(After(EmptyWorld(), events).value, later).Some? && LeavesAlone(later, c)
    ensures var w' := After(After(EmptyWorld(), events).value, later).value;
      c in w'.conns && w'.conns[c].settlement.None? && w'.conns[c].closes == 0
  {
    RunKeepsInv(events);
    RunKeepsPlaces(events);
    var w := After(EmptyWorld(), events).value;
    LooseStaysOpen(w, later, c);
    assert ConnOk(After(w, later).value, c);
  }

  /** A connection that arrives after its listener's queue was closed, by a broken loop say, is
      adopted and given to nobody. */
  lemma LateArrivalIsStray(w: World, l: nat, c: nat)
    requires WorldInv(w) && l in w.listeners && c !in w.conns && Queues.IsClosed(w.listeners[l].accepted)
    ensures var w' := Happen(w, Accept(l, c, true)).value;
      c in w'.strays && Loose(w', c) && w'.conns[c].closes == 0 && w'.handed == w.handed
  {
    NewConnIsNowhere(w, c);
    PushYields(w.listeners[l].accepted, c);
  }

  function BrokenLoopRun(): seq<Event>
  {
    [] + [Listen(0)] + [BreakConnections(0)]
  }

  lemma BrokenLoopLeavesListener()
    ensures After(EmptyWorld(), BrokenLoopRun()).Some?
    ensures var w := After(EmptyWorld(), BrokenLoopRun()).value;
      && 0 in w.listeners && !w.listeners[0].disposed && Queues.IsClosed(w.listeners[0].accepted)
      && 0 !in w.conns && 0 !in w.handed
  {
    AfterSnoc(EmptyWorld(), [], Listen(0));
    AfterSnoc(EmptyWorld(), [] + [Listen(0)], BreakConnections(0));
    FinishConnsNone(SetAccepted(Happen(EmptyWorld(), Listen(0)).value, 0,
      Queues.Closed(Queues.Create(Some(DEFAULT_STREAM_BACKLOG)), None).0), None);
  }

  /** The witness: after a broken loop the listener still accepts, and the connection it gets is
      neither received nor waiting nor closed, not even by closing the listener. */
  lemma StrayConnection()
    ensures var run := BrokenLoopRun() + [Accept(0, 0, true)] + [CloseListener(0, None)];
      && After(EmptyWorld(), run).Some?
      && var w := After(EmptyWorld(), run).value;
         && 0 in w.conns && w.conns[0].settlement.None? && w.conns[0].closes == 0
         && 0 !in w.handed && !Waits(w, 0)
  {
    BrokenLoopLeavesListener();
    RunKeepsInv(BrokenLoopRun());
    var r := BrokenLoopRun() + [Accept(0, 0, true)];
    LateArrivalIsStray(After(EmptyWorld(), BrokenLoopRun()).value, 0, 0);
    AfterSnoc(EmptyWorld(), BrokenLoopRun(), Accept(0, 0, true));
    var w := After(EmptyWorld(), r).value;
    RunKeepsInv(r);
    StopKeepsLoose(w, 0, None, 0);
    AfterSnoc(EmptyWorld(), r, CloseListener(0, None));
    RunKeepsInv(r + [CloseListener(0, None)]);
    assert ConnOk(After(EmptyWorld(), r + [CloseListener(0, None)]).value, 0);
  }

  /** A connection accepted beyond the backlog pushes out the one that waited longest, which is
      closed together with its streams; nobody else is. */
  lemma FullBacklogClosesTheOldest(w: World, l: nat, c: nat)
    requires WorldInv(w) && l in w.listeners && c !in w.conns
    requires !Queues.IsClosed(w.listeners[l].accepted) && w.listeners[l].accepted.consumers.waiters == []
    ensures var w' := Happen(w, Accept(l, c, true)).value;
      var b := w.listeners[l].accepted.buffer;
      && w'.conns[c].settlement.None?
      && (|b| < DEFAULT_STREAM_BACKLOG ==>
            w'.listeners[l].accepted.buffer == b + [c] && forall d :: d in w.conns ==> w'.conns[d] == w.conns[d])
      && (|b| == DEFAULT_STREAM_BACKLOG ==>
            && w'.listeners[l].accepted.buffer == b[1..] + [c]
            && b[0] in w.conns && Finished(w'.conns[b[0]])
            && (forall d :: d in w.conns && d != b[0] ==> w'.conns[d] == w.conns[d])
            && (forall s :: s in w.streams && w.streams[s].owner == b[0] && !w.streams[s].late ==>
                  s in w'.streams && Over(w'.streams[s])))
  {
    var b := w.listeners[l].accepted.buffer;
    assert ListenerOk(w, l);
    if |b| == DEFAULT_STREAM_BACKLOG {
      EvictionClosesConnection(w, l, c);
    }
  }

  lemma EvictionClosesConnection(w: World, l: nat, c: nat)
    requires WorldInv(w) && l in w.listeners && c !in w.conns
    requires !Queues.IsClosed(w.listeners[l].accepted) && w.listeners[l].accepted.consumers.waiters == []
    requires |w.listeners[l].accepted.buffer| == DEFAULT_STREAM_BACKLOG
    ensures var w' := Happen(w, Accept(l, c, true)).value;
      var b := w.listeners[l].accepted.buffer;
      && w'.conns[c].settlement.None?
      && w'.listeners[l].accepted.buffer == b[1..] + [c]
      && b[0] in w.conns && Finished(w'.conns[b[0]])
      && (forall d :: d in w.conns && d != b[0] ==> w'.conns[d] == w.conns[d])
      && (forall s :: s in w.streams && w.streams[s].owner == b[0] && !w.streams[s].late ==>
            s in w'.streams && Over(w'.streams[s]))
  {
    var q := w.listeners[l].accepted;
    assert ListenerOk(w, l);
    WithConnKeepsInv(w, c);
    QueueStepsNarrow(q, c, None);
    SetAcceptedKeepsInv(WithConn(w, c), l, Queues.Pushed(q, c).0, {c});
    var (q', out) := Queues.Pushed(q, c);
    var w1 := Credited(SetAccepted(WithConn(w, c), l, q'), Yielded(out), {});
    CreditKeepsInv(SetAccepted(WithConn(w, c), l, q'), Yielded(out), {});
    assert Evictee(q, c) == {q.buffer[0]};
    CloseConnectionTakesItsStreams(w1, q.buffer[0], None);
  }

  // ---------------------------------------------------------------- after the endpoint's close

  ghost predicate Shut(w: World)
  {
    forall l :: l in w.listeners ==> w.listeners[l].disposed
  }

  predicate Adopts(e: Event, c: nat)
  {
    e == Dial(c) || (e.Accept? && e.conn == c && e.adopts)
  }

  /** Adopted in this run, and not closed in it since. */
  predicate OpenedIn(later: seq<Event>, c: nat)
  {
    later != [] &&
    var last := later[|later| - 1];
    (Adopts(last, c) ||
      (OpenedIn(later[..|later| - 1], c) && !(last.CloseConnection? && last.conn == c)))
  }

  lemma ShutQueues(w: World, l: nat)
    requires WorldInv(w) && Shut(w) && l in w.listeners
    ensures Queues.IsClosed(w.listeners[l].accepted) && w.listeners[l].accepted.buffer == []
  {
    assert ListenerOk(w, l);
  }

  ghost predicate OpenAt(w: World, c: nat)
  {
    c in w.conns && w.conns[c].settlement.None?
  }

  /** A stopped listener changes nothing about connections, except that one may still arrive. */
  lemma ListenerStepAfterClose(w: World, e: Event, c: nat)
    requires WorldInv(w) && Shut(w) && Happen(w, e).Some?
    requires e.Accept? || e.NextConnection? || e.BreakConnections? || e.CloseListener?
    ensures Shut(Happen(w, e).value)
    ensures OpenAt(Happen(w, e).value, c) <==> Adopts(e, c) || OpenAt(w, c)
  {
    ShutQueues(w, e.listener);
  }

  lemma StepAfterClose(w: World, e: Event, c: nat)
    requires WorldInv(w) && Shut(w) && Happen(w, e).Some? && !e.Listen? && e != CloseEndpoint
    ensures Shut(Happen(w, e).value)
    ensures OpenAt(Happen(w, e).value, c) <==>
            Adopts(e, c) || (OpenAt(w, c) && !(e.CloseConnection? && e.conn == c))
  {
    if e.Accept? || e.NextConnection? || e.BreakConnections? || e.CloseListener? {
      ListenerStepAfterClose(w, e, c);
    }
  }

  lemma {:induction false} RunAfterClose(w: World, later: seq<Event>, c: nat)
    requires WorldInv(w) && Shut(w) && After(w, later).Some?
    requires !OpenAt(w, c)
    requires forall i :: 0 <= i < |later| ==> !later[i].Listen? && later[i] != CloseEndpoint
    ensures var w' := After(w, later).value;
      && WorldInv(w') && Shut(w')
      && (OpenAt(w', c) <==> OpenedIn(later, c))
  {
    if later != [] {
      var init, last := later[..|later| - 1], later[|later| - 1];
      RunAfterClose(w, init, c);
      StepKeepsInv(After(w, init).value, last);
      StepAfterClose(After(w, init).value, last, c);
    }
  }

  /** The endpoint closes once, and a closed endpoint refuses to listen. Whatever else happens
      afterwards, the connections open are exactly those adopted after the close, by a dial or an
      accept that was under way, and not closed themselves since: no owner will close them. */
  lemma OpenAfterTheCloseIffAdoptedSince(events: seq<Event>, later: seq<Event>, c: nat)
    requires After(EmptyWorld(), events).Some?
    requires After(CloseAll(After(EmptyWorld(), events).value), later).Some?
    requires forall i :: 0 <= i < |later| ==> !later[i].Listen? && later[i] != CloseEndpoint
    ensures var w' := After(CloseAll(After(EmptyWorld(), events).value), later).value;
      OpenAt(w', c) <==> OpenedIn(later, c)
  {
    var w := After(EmptyWorld(), events).value;
    RunKeepsInv(events);
    CloseAllKeepsInv(w);
    CloseEndpointReachesEverything(w);
    RunAfterClose(CloseAll(w), later, c);
  }
}
