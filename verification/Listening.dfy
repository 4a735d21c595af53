/** Listeners on one declared ALPN (`stream_listen` in `rust/iroh-rn-core/src/streams.rs`): the
    router fills a bounded queue, and a listener drains it for as long as it holds its lock. */
module Listening {
  import opened Base

  const INBOUND_BACKLOG: nat := 64

  /** A stopped listener's task holds the queue until the runtime has dropped it. */
  datatype Phase = Running | Stopped | Gone

  datatype Listener = Listener(phase: Phase, closes: nat)

  datatype Delivery = Delivery(listener: nat, conn: nat)

  /** `accepted` and `refused` record what became of the connections the router brought. */
  datatype Alpn = Alpn(
    routerOpen: bool,
    queue: seq<nat>,
    listeners: seq<Listener>,
    delivered: seq<Delivery>,
    accepted: seq<nat>,
    refused: seq<nat>)

  datatype Event =
    | Arrive(conn: nat)
    | Listen                       // succeeds or reports that the ALPN is taken
    | Deliver(listener: nat)
    | Stop(listener: nat)
    | TaskDropped(listener: nat)
    | RouterShutsDown
    | DrainedOut(listener: nat)    // the queue is empty and nobody can fill it

  function Declared(): Alpn
  {
    Alpn(true, [], [], [], [], [])
  }

  predicate Holds(a: Alpn, l: nat)
  {
    l < |a.listeners| && !a.listeners[l].phase.Gone?
  }

  predicate Free(a: Alpn)
  {
    forall l :: 0 <= l < |a.listeners| ==> a.listeners[l].phase.Gone?
  }

  function Happen(a: Alpn, e: Event): Option<Alpn>
  {
    match e
    case Arrive(conn) =>
      if !a.routerOpen then None
      else if |a.queue| < INBOUND_BACKLOG then
        Some(a.(queue := a.queue + [conn], accepted := a.accepted + [conn]))
      else Some(a.(refused := a.refused + [conn]))
    case Listen =>
      Some(if Free(a) then a.(listeners := a.listeners + [Listener(Running, 0)]) else a)
    case Deliver(l) =>
      if !Holds(a, l) || a.queue == [] then None
      else Some(a.(queue := a.queue[1..], delivered := a.delivered + [Delivery(l, a.queue[0])]))
    case Stop(l) =>
      if l >= |a.listeners| then None
      else if a.listeners[l].phase.Running? then
        Some(a.(listeners := a.listeners[l := a.listeners[l].(phase := Stopped)]))
      else Some(a)
    case TaskDropped(l) =>
      if l < |a.listeners| && a.listeners[l].phase.Stopped? then
        Some(a.(listeners := a.listeners[l := a.listeners[l].(phase := Gone)]))
      else None
    case RouterShutsDown => Some(a.(routerOpen := false))
    case DrainedOut(l) =>
      if Holds(a, l) && !a.routerOpen && a.queue == [] then
        Some(a.(listeners := a.listeners[l := Listener(Gone, a.listeners[l].closes + 1)]))
      else None
  }

  function After(events: seq<Event>): Option<Alpn>
  {
    if events == [] then Some(Declared())
    else
      var before := After(events[..|events| - 1]);
      if before.None? then None else Happen(before.value, events[|events| - 1])
  }

  function ConnOf(d: Delivery): seq<nat>
  {
    [d.conn]
  }

  /** The connections handed over, in order. */
  function Handed(delivered: seq<Delivery>): seq<nat>
  {
    FlatMap(ConnOf, delivered)
  }

  ghost predicate AlpnInv(a: Alpn)
  {
    && |a.queue| <= INBOUND_BACKLOG
    && Handed(a.delivered) + a.queue == a.accepted
    && (forall l :: 0 <= l < |a.listeners| - 1 ==> a.listeners[l].phase.Gone?)
    && (forall l :: 0 <= l < |a.listeners| ==>
          a.listeners[l].closes <= 1 &&
          (a.listeners[l].closes == 1 ==> a.listeners[l].phase.Gone? && !a.routerOpen && a.queue == []))
    && (forall k :: 0 <= k < |a.delivered| ==> a.delivered[k].listener < |a.listeners|)
    && (forall j, k :: 0 <= j < k < |a.delivered| ==> a.delivered[j].listener <= a.delivered[k].listener)
  }

  lemma DeliverKeepsInv(a: Alpn, l: nat)
    requires AlpnInv(a) && Happen(a, Deliver(l)).Some?
    ensures AlpnInv(Happen(a, Deliver(l)).value)
  {
    var a' := Happen(a, Deliver(l)).value;
    assert l == |a.listeners| - 1;
    assert Handed(a'.delivered) + a'.queue == a.accepted by {
      FlatMapSnoc(ConnOf, a.delivered, Delivery(l, a.queue[0]));
      assert Handed(a'.delivered) == Handed(a.delivered) + [a.queue[0]];
      assert a.queue == [a.queue[0]] + a.queue[1..];
    }
    forall j, k | 0 <= j < k < |a'.delivered|
      ensures a'.delivered[j].listener <= a'.delivered[k].listener
    {
      assert a'.delivered[j] == a.delivered[j];
    }
  }

  lemma StepKeepsInv(a: Alpn, e: Event)
    requires AlpnInv(a) && Happen(a, e).Some?
    ensures AlpnInv(Happen(a, e).value)
  {
    if e.Deliver? {
      DeliverKeepsInv(a, e.listener);
    } else if e.Arrive? {
      assert Handed(a.delivered) + (a.queue + [e.conn]) == (Handed(a.delivered) + a.queue) + [e.conn];
    }
  }

  lemma {:induction false} RunKeepsInv(events: seq<Event>)
    requires After(events).Some?
    ensures AlpnInv(After(events).value)
  {
    if events != [] {
      RunKeepsInv(events[..|events| - 1]);
      StepKeepsInv(After(events[..|events| - 1]).value, events[|events| - 1]);
    }
  }

  /** At most one listener holds the ALPN, and listening succeeds exactly when none does. */
  lemma OneListenerAtATime(events: seq<Event>, l: nat, k: nat)
    requires After(events).Some?
    ensures var a := After(events).value;
      && (Holds(a, l) && Holds(a, k) ==> l == k)
      && (|Happen(a, Listen).value.listeners| == |a.listeners| + 1 <==> forall i :: !Holds(a, i))
  {
    RunKeepsInv(events);
    var a := After(events).value;
    assert Free(a) <==> forall i :: !Holds(a, i) by {
      if !Free(a) {
        var i :| 0 <= i < |a.listeners| && !a.listeners[i].phase.Gone?;
        assert Holds(a, i);
      }
    }
  }

  /** No accepted connection is lost or handed over twice, however often the ALPN changes hands:
      those delivered, then those still waiting, are the accepted ones in arrival order, and a
      later connection never goes to an earlier listener. */
  lemma ConnectionsAreHandedOverOnce(events: seq<Event>)
    requires After(events).Some?
    ensures var a := After(events).value;
      && Handed(a.delivered) + a.queue == a.accepted
      && |a.queue| <= INBOUND_BACKLOG
      && (forall j, k :: 0 <= j < k < |a.delivered| ==> a.delivered[j].listener <= a.delivered[k].listener)
  {
    RunKeepsInv(events);
  }

  /** `on_close` reaches a listener at most once, and only when the router is gone and every
      waiting connection has been handed over; a stopped listener never hears it afterwards. */
  lemma ClosesOnceWhenDrained(events: seq<Event>, l: nat)
    requires After(events).Some? && l < |After(events).value.listeners|
    ensures var a := After(events).value;
      && a.listeners[l].closes <= 1
      && (a.listeners[l].closes == 1 ==> !a.routerOpen && a.queue == [] && Handed(a.delivered) == a.accepted)
      && (a.listeners[l].phase.Gone? ==> Happen(a, DrainedOut(l)).None? && Happen(a, Deliver(l)).None?)
  {
    RunKeepsInv(events);
    assert Handed(After(events).value.delivered) + [] == Handed(After(events).value.delivered);
  }

  /** Stopping does not free the ALPN at once: right after stopping the holder, listening again
      succeeds exactly when its task has already been dropped. */
  lemma RelistenNeedsTheDrop(events: seq<Event>, l: nat)
    requires After(events).Some? && Holds(After(events).value, l)
    ensures var stopped := Happen(After(events).value, Stop(l)).value;
      && |Happen(stopped, Listen).value.listeners| == |stopped.listeners|
      && Happen(stopped, TaskDropped(l)).Some?
      && (var dropped := Happen(stopped, TaskDropped(l)).value;
          |Happen(dropped, Listen).value.listeners| == |dropped.listeners| + 1)
  {
    RunKeepsInv(events);
    var stopped := Happen(After(events).value, Stop(l)).value;
    assert stopped.listeners[l].phase.Stopped?;
  }

  // ---------------------------------------------------------------- what the events say

  predicate EverShut(events: seq<Event>)
  {
    events != [] && (EverShut(events[..|events| - 1]) || events[|events| - 1].RouterShutsDown?)
  }

  /** How many connections wait: each one that arrives joins unless 64 do already. */
  function Backlog(events: seq<Event>): int
  {
    if events == [] then 0
    else
      var before := Backlog(events[..|events| - 1]);
      match events[|events| - 1]
      case Arrive(_) => if before < 64 then before + 1 else before
      case Deliver(_) => before - 1
      case _ => before
  }

  /** The connections that arrived while fewer than 64 were waiting, and the others. */
  function Admitted(events: seq<Event>): seq<nat>
  {
    if events == [] then []
    else
      var init, last := events[..|events| - 1], events[|events| - 1];
      Admitted(init) + if last.Arrive? && Backlog(init) < 64 then [last.conn] else []
  }

  function TurnedAway(events: seq<Event>): seq<nat>
  {
    if events == [] then []
    else
      var init, last := events[..|events| - 1], events[|events| - 1];
      TurnedAway(init) + if last.Arrive? && Backlog(init) >= 64 then [last.conn] else []
  }

  /** Who took them, in turn. */
  function Takers(events: seq<Event>): seq<nat>
  {
    if events == [] then []
    else
      var last := events[|events| - 1];
      Takers(events[..|events| - 1]) + if last.Deliver? then [last.listener] else []
  }

  function TakerOf(d: Delivery): seq<nat>
  {
    [d.listener]
  }

  ghost predicate ReadsAs(a: Alpn, admitted: seq<nat>, turnedAway: seq<nat>, backlog: int, takers: seq<nat>, shut: bool)
  {
    && a.accepted == admitted && a.refused == turnedAway
    && |a.queue| == backlog
    && FlatMap(TakerOf, a.delivered) == takers
    && (a.routerOpen <==> !shut)
  }

  lemma ArrivalReadsAs(a: Alpn, c: nat, admitted: seq<nat>, turnedAway: seq<nat>, backlog: int, takers: seq<nat>, shut: bool)
    requires ReadsAs(a, admitted, turnedAway, backlog, takers, shut) && Happen(a, Arrive(c)).Some?
    ensures ReadsAs(Happen(a, Arrive(c)).value,
                    admitted + (if backlog < 64 then [c] else []), turnedAway + (if backlog >= 64 then [c] else []),
                    if backlog < 64 then backlog + 1 else backlog, takers, shut)
  {
  }

  lemma DeliveryReadsAs(a: Alpn, l: nat, admitted: seq<nat>, turnedAway: seq<nat>, backlog: int, takers: seq<nat>, shut: bool)
    requires ReadsAs(a, admitted, turnedAway, backlog, takers, shut) && Happen(a, Deliver(l)).Some?
    ensures ReadsAs(Happen(a, Deliver(l)).value, admitted, turnedAway, backlog - 1, takers + [l], shut)
  {
    FlatMapSnoc(TakerOf, a.delivered, Delivery(l, a.queue[0]));
  }

  lemma OthersReadAs(a: Alpn, e: Event, admitted: seq<nat>, turnedAway: seq<nat>, backlog: int, takers: seq<nat>, shut: bool)
    requires ReadsAs(a, admitted, turnedAway, backlog, takers, shut) && Happen(a, e).Some? && !e.Arrive? && !e.Deliver?
    ensures ReadsAs(Happen(a, e).value, admitted, turnedAway, backlog, takers, shut || e.RouterShutsDown?)
  {
  }

  lemma ReadSnoc(events: seq<Event>, e: Event)
    ensures var all := events + [e];
      && Admitted(all) == Admitted(events) + (if e.Arrive? && Backlog(events) < 64 then [e.conn] else [])
      && TurnedAway(all) == TurnedAway(events) + (if e.Arrive? && Backlog(events) >= 64 then [e.conn] else [])
      && Backlog(all) == (if e.Arrive? && Backlog(events) < 64 then Backlog(events) + 1
                          else if e.Deliver? then Backlog(events) - 1 else Backlog(events))
      && Takers(all) == Takers(events) + (if e.Deliver? then [e.listener] else [])
      && (EverShut(all) <==> EverShut(events) || e.RouterShutsDown?)
  {
    assert (events + [e])[..|events + [e]| - 1] == events;
  }

  lemma {:induction false} RunReadsAs(events: seq<Event>)
    requires After(events).Some?
    ensures ReadsAs(After(events).value, Admitted(events), TurnedAway(events), Backlog(events), Takers(events), EverShut(events))
  {
    if events != [] {
      var init, last := events[..|events| - 1], events[|events| - 1];
      var a := After(init).value;
      RunReadsAs(init);
      assert events == init + [last];
      ReadSnoc(init, last);
      match last {
        case Arrive(c) =>
          ArrivalReadsAs(a, c, Admitted(init), TurnedAway(init), Backlog(init), Takers(init), EverShut(init));
        case Deliver(l) =>
          DeliveryReadsAs(a, l, Admitted(init), TurnedAway(init), Backlog(init), Takers(init), EverShut(init));
        case _ =>
          OthersReadAs(a, last, Admitted(init), TurnedAway(init), Backlog(init), Takers(init), EverShut(init));
      }
    }
  }

  /** A connection is turned away if and only if 64 are waiting when it arrives; the others are
      handed, in the order they came, to the listeners that asked, in the order they asked, and what
      is left of them waits. */
  lemma RefusedIffTheBacklogIsFull(events: seq<Event>)
    requires After(events).Some?
    ensures var a := After(events).value;
      && a.accepted == Admitted(events) && a.refused == TurnedAway(events)
      && |a.queue| == Backlog(events)
      && Handed(a.delivered) + a.queue == Admitted(events)
      && FlatMap(TakerOf, a.delivered) == Takers(events)
      && (a.routerOpen <==> !EverShut(events))
  {
    RunKeepsInv(events);
    RunReadsAs(events);
  }

  /** Where a listener's life has got to: its task is dropped after a stop, or ends by itself. */
  function LifeOf(events: seq<Event>, l: nat): Phase
  {
    if events == [] then Running
    else
      match events[|events| - 1]
      case Stop(k) => if k == l && LifeOf(events[..|events| - 1], l).Running? then Stopped else LifeOf(events[..|events| - 1], l)
      case TaskDropped(k) => if k == l then Gone else LifeOf(events[..|events| - 1], l)
      case DrainedOut(k) => if k == l then Gone else LifeOf(events[..|events| - 1], l)
      case _ => LifeOf(events[..|events| - 1], l)
  }

  /** How often a listener hears its close. */
  function Closes(events: seq<Event>, l: nat): nat
  {
    if events == [] then 0
    else Closes(events[..|events| - 1], l) + if events[|events| - 1] == DrainedOut(l) then 1 else 0
  }

  lemma StepLives(a: Alpn, events: seq<Event>, e: Event, l: nat)
    requires Happen(a, e).Some?
    requires l < |a.listeners| ==> a.listeners[l] == Listener(LifeOf(events, l), Closes(events, l))
    requires l >= |a.listeners| ==> LifeOf(events, l).Running? && Closes(events, l) == 0
    ensures var a' := Happen(a, e).value;
      && (l < |a'.listeners| ==> a'.listeners[l] == Listener(LifeOf(events + [e], l), Closes(events + [e], l)))
      && (l >= |a'.listeners| ==> LifeOf(events + [e], l).Running? && Closes(events + [e], l) == 0)
  {
    assert (events + [e])[..|events + [e]| - 1] == events;
  }

  /** The phase of a listener and the closes it has heard are those its own events say. */
  lemma {:induction false} ListenersLiveAsTold(events: seq<Event>, l: nat)
    requires After(events).Some?
    ensures var a := After(events).value;
      && (l < |a.listeners| ==> a.listeners[l] == Listener(LifeOf(events, l), Closes(events, l)))
      && (l >= |a.listeners| ==> LifeOf(events, l).Running? && Closes(events, l) == 0)
  {
    if events != [] {
      var init, last := events[..|events| - 1], events[|events| - 1];
      ListenersLiveAsTold(init, l);
      StepLives(After(init).value, init, last, l);
      assert events == init + [last];
    }
  }
}
