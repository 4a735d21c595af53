/** The bounded drop-oldest FIFO of `src/message-queue.ts`. */
module MessageQueues {
  import opened Base
  import opened AsyncKernel

  const DEFAULT_CAPACITY: int := 1024

  datatype Queue<T, E> = Queue(capacity: nat, buffer: seq<T>, consumers: Consumers<E>, dropped: nat)

  /** What a caller can do to a queue; `onLagged` and `onDropped` are effects. */
  datatype Event<T, E> =
    | Push(value: T)
    | MarkLagged
    | Close(error: Option<E>)
    | Next
    | Return

  function Create<T, E>(capacity: Option<int>): (q: Queue<T, E>)
    ensures q.capacity >= 1
  {
    var wanted := if capacity.Some? then capacity.value else DEFAULT_CAPACITY;
    Queue(if wanted < 1 then 1 else wanted, [], NoConsumers(), 0)
  }

  predicate IsClosed<T, E>(q: Queue<T, E>)
  {
    q.consumers.terminal.Some?
  }

  function Pushed<T, E>(q: Queue<T, E>, value: T): (Queue<T, E>, seq<Effect<T, E>>)
  {
    if IsClosed(q) then (q, [])
    else if q.consumers.waiters != [] then
      var (c, out) := HandedOff(q.consumers, value);
      (q.(consumers := c), out)
    else
      var grown := q.buffer + [value];
      if |grown| <= q.capacity then (q.(buffer := grown), [])
      else (q.(buffer := grown[1..], dropped := q.dropped + 1),
            [Discard(grown[0], Overflow), Lagged(q.dropped + 1)])
  }

  function Marked<T, E>(q: Queue<T, E>): (Queue<T, E>, seq<Effect<T, E>>)
  {
    if IsClosed(q) then (q, [])
    else (q.(dropped := q.dropped + 1), [Lagged(q.dropped + 1)])
  }

  function Discards<T, E>(values: seq<T>): seq<Effect<T, E>>
  {
    seq(|values|, i requires 0 <= i < |values| => Discard(values[i], AtClose))
  }

  function Closed<T, E>(q: Queue<T, E>, error: Option<E>): (Queue<T, E>, seq<Effect<T, E>>)
  {
    if IsClosed(q) then (q, [])
    else
      var (c, ends) := Terminated(q.consumers, error);
      (q.(buffer := [], consumers := c), Discards(q.buffer) + ends)
  }

  function Nexted<T, E>(q: Queue<T, E>): (Queue<T, E>, seq<Effect<T, E>>)
  {
    if q.buffer != [] then
      var (c, out) := Supplied(q.consumers, q.buffer[0]);
      (q.(buffer := q.buffer[1..], consumers := c), out)
    else
      var (c, out) := Awaited(q.consumers);
      (q.(consumers := c), out)
  }

  function Step<T, E>(q: Queue<T, E>, event: Event<T, E>): (Queue<T, E>, seq<Effect<T, E>>)
  {
    match event
    case Push(value) => Pushed(q, value)
    case MarkLagged => Marked(q)
    case Close(error) => Closed(q, error)
    case Next => Nexted(q)
    case Return => Closed(q, None)
  }

  /** The queue and everything it let out after `events`, oldest first. */
  function Run<T, E>(q: Queue<T, E>, events: seq<Event<T, E>>): (Queue<T, E>, seq<Effect<T, E>>)
  {
    if events == [] then (q, [])
    else
      var (before, out) := Run(q, events[..|events| - 1]);
      var (after, more) := Step(before, events[|events| - 1]);
      (after, out + more)
  }

  // ---------------------------------------------------------------- reading a history

  function RemovalOf<T, E>(e: Effect<T, E>): seq<T>
  {
    if e.Discard? then [e.value] else DeliveryOf(e)
  }

  function EvictionOf<T, E>(e: Effect<T, E>): seq<T>
  {
    if e.Discard? && e.cause.Overflow? then [e.value] else []
  }

  function LagOf<T, E>(e: Effect<T, E>): seq<nat>
  {
    if e.Lagged? then [e.total] else []
  }

  /** The values that left the queue, delivered or handed to `onDropped`, in the order they left. */
  function Removed<T, E>(out: seq<Effect<T, E>>): seq<T> { FlatMap(RemovalOf, out) }
  function Evicted<T, E>(out: seq<Effect<T, E>>): seq<T> { FlatMap(EvictionOf, out) }
  function Lags<T, E>(out: seq<Effect<T, E>>): seq<nat> { FlatMap(LagOf, out) }

  lemma ProjectRemovals<T, E>(out: seq<Effect<T, E>>, more: seq<Effect<T, E>>)
    ensures Removed(out + more) == Removed(out) + Removed(more)
    ensures Evicted(out + more) == Evicted(out) + Evicted(more)
    ensures Lags(out + more) == Lags(out) + Lags(more)
  {
    FlatMapAppend(RemovalOf, out, more);
    FlatMapAppend(EvictionOf, out, more);
    FlatMapAppend(LagOf, out, more);
  }

  lemma ProjectRemoval<T, E>(e: Effect<T, E>)
    ensures Removed([e]) == RemovalOf(e) && Evicted([e]) == EvictionOf(e) && Lags([e]) == LagOf(e)
  {
    FlatMapOne(RemovalOf, e);
    FlatMapOne(EvictionOf, e);
    FlatMapOne(LagOf, e);
  }

  // ---------------------------------------------------------------- the invariant of every run

  /** Everything a queue owes: the kernel's discipline, conservation of the accepted values in
      accept order, the bound, who may be parked when, and an exact lag count. `marks` counts
      the upstream lags reported while the queue was open. */
  ghost predicate QueueInv<T(!new), E(!new)>(q: Queue<T, E>, accepted: seq<T>, marks: nat, out: seq<Effect<T, E>>)
  {
    && Orderly(q.consumers, out)
    && Removed(out) + q.buffer == accepted
    && 1 <= q.capacity && |q.buffer| <= q.capacity
    && (q.consumers.waiters != [] ==> q.buffer == [])
    && (IsClosed(q) ==> q.buffer == [])
    && |Lags(out)| == q.dropped
    && (forall i :: 0 <= i < q.dropped ==> Lags(out)[i] == i + 1)
    && |Evicted(out)| + marks == q.dropped
  }

  lemma PushKeepsInv<T(!new), E(!new)>(q: Queue<T, E>, value: T, accepted: seq<T>, marks: nat, out: seq<Effect<T, E>>)
    requires QueueInv(q, accepted, marks, out)
    ensures QueueInv(Pushed(q, value).0, if IsClosed(q) then accepted else accepted + [value],
                     marks, out + Pushed(q, value).1)
  {
    var more := Pushed(q, value).1;
    if !IsClosed(q) && q.consumers.waiters != [] {
      HandOffKeepsOrder(q.consumers, value, out);
      ProjectRemovals(out, more);
      ProjectRemoval(more[0]);
    } else if IsClosed(q) || |q.buffer| < q.capacity {
      assert more == [] && out + more == out;
    } else {
      EvictKeepsInv(q, value, accepted, marks, out);
    }
  }

  lemma EvictKeepsInv<T(!new), E(!new)>(q: Queue<T, E>, value: T, accepted: seq<T>, marks: nat, out: seq<Effect<T, E>>)
    requires QueueInv(q, accepted, marks, out)
    requires !IsClosed(q) && q.consumers.waiters == [] && |q.buffer| == q.capacity
    ensures QueueInv(Pushed(q, value).0, accepted + [value], marks, out + Pushed(q, value).1)
  {
    var more := Pushed(q, value).1;
    var grown := q.buffer + [value];
    SilentKeepsOrder(q.consumers, out, more);
    ProjectRemovals(out, more);
    assert Removed(more) == [grown[0]] && Evicted(more) == [grown[0]] && Lags(more) == [q.dropped + 1] by {
      assert more == [more[0]] + [more[1]];
      ProjectRemovals([more[0]], [more[1]]);
      ProjectRemoval(more[0]);
      ProjectRemoval(more[1]);
    }
    assert grown == [grown[0]] + grown[1..];
  }

  /** Effects that settle no call leave the kernel's discipline alone. */
  lemma {:induction false} SilentKeepsOrder<T(!new), E(!new)>(c: Consumers<E>, out: seq<Effect<T, E>>, more: seq<Effect<T, E>>)
    requires Orderly(c, out)
    requires forall i :: 0 <= i < |more| ==> !more[i].Resolve?
    ensures Orderly(c, out + more) && Delivered(out + more) == Delivered(out)
  {
    if more == [] {
      assert out + more == out;
    } else {
      var last := more[|more| - 1];
      SilentKeepsOrder(c, out, more[..|more| - 1]);
      assert out + more == (out + more[..|more| - 1]) + [last];
      Project(out + more[..|more| - 1], [last]);
      ProjectOne(last);
    }
  }

  lemma MarkKeepsInv<T(!new), E(!new)>(q: Queue<T, E>, accepted: seq<T>, marks: nat, out: seq<Effect<T, E>>)
    requires QueueInv(q, accepted, marks, out)
    ensures QueueInv(Marked(q).0, accepted, if IsClosed(q) then marks else marks + 1, out + Marked(q).1)
  {
    var (q', more) := Marked(q);
    if IsClosed(q) {
      assert out + more == out;
    } else {
      SilentKeepsOrder(q.consumers, out, more);
      ProjectRemovals(out, more);
      ProjectRemoval(more[0]);
    }
  }

  lemma {:induction false} DiscardsRemove<T, E>(values: seq<T>)
    ensures Removed(Discards<T, E>(values)) == values
    ensures Evicted(Discards<T, E>(values)) == [] && Lags(Discards<T, E>(values)) == []
  {
    if values != [] {
      var init := values[..|values| - 1];
      DiscardsRemove<T, E>(init);
      var last: Effect<T, E> := Discard(values[|values| - 1], AtClose);
      assert Discards<T, E>(values) == Discards<T, E>(init) + [last];
      ProjectRemovals(Discards<T, E>(init), [last]);
      ProjectRemoval(last);
    }
  }

  lemma {:induction false} EndingsRemoveNothing<T, E>(waiters: seq<nat>, error: Option<E>, delivered: bool)
    ensures var es := EndAll<T, E>(waiters, error, delivered);
      Removed(es) == [] && Evicted(es) == [] && Lags(es) == []
  {
    if waiters != [] {
      var rest := EndAll<T, E>(waiters[1..], error, delivered || error.Some?);
      EndingsRemoveNothing<T, E>(waiters[1..], error, delivered || error.Some?);
      var first := EndAll<T, E>(waiters, error, delivered)[0];
      assert EndAll<T, E>(waiters, error, delivered) == [first] + rest;
      ProjectRemovals([first], rest);
      ProjectRemoval(first);
    }
  }

  /** What a close lets out removes exactly the buffer. */
  lemma ClosingRemoves<T, E>(q: Queue<T, E>, error: Option<E>)
    requires !IsClosed(q)
    ensures var more := Closed(q, error).1; Removed(more) == q.buffer && Evicted(more) == [] && Lags(more) == []
  {
    var gone := Discards<T, E>(q.buffer);
    var ends := EndAll<T, E>(q.consumers.waiters, error, q.consumers.errorDelivered);
    DiscardsRemove<T, E>(q.buffer);
    EndingsRemoveNothing<T, E>(q.consumers.waiters, error, q.consumers.errorDelivered);
    ProjectRemovals(gone, ends);
  }

  lemma ClosingKeepsOrder<T(!new), E(!new)>(q: Queue<T, E>, error: Option<E>, out: seq<Effect<T, E>>)
    requires Orderly(q.consumers, out) && !IsClosed(q)
    ensures Orderly(Closed(q, error).0.consumers, out + Closed(q, error).1)
    ensures Delivered(out + Closed(q, error).1) == Delivered(out)
  {
    var gone := Discards<T, E>(q.buffer);
    var ends := Terminated<T, E>(q.consumers, error).1;
    assert out + (gone + ends) == (out + gone) + ends;
    SilentKeepsOrder(q.consumers, out, gone);
    TerminateKeepsOrder(q.consumers, error, out + gone);
  }

  lemma CloseKeepsInv<T(!new), E(!new)>(q: Queue<T, E>, error: Option<E>, accepted: seq<T>, marks: nat, out: seq<Effect<T, E>>)
    requires QueueInv(q, accepted, marks, out)
    ensures QueueInv(Closed(q, error).0, accepted, marks, out + Closed(q, error).1)
    ensures Delivered(out + Closed(q, error).1) == Delivered(out)
  {
    var more := Closed(q, error).1;
    if IsClosed(q) {
      assert out + more == out;
    } else {
      ClosingKeepsOrder(q, error, out);
      ClosingRemoves(q, error);
      ProjectRemovals(out, more);
    }
  }

  lemma NextKeepsInv<T(!new), E(!new)>(q: Queue<T, E>, accepted: seq<T>, marks: nat, out: seq<Effect<T, E>>)
    requires QueueInv(q, accepted, marks, out)
    ensures QueueInv(Nexted(q).0, accepted, marks, out + Nexted(q).1)
  {
    var (q', more) := Nexted(q);
    ProjectRemovals(out, more);
    if q.buffer != [] {
      SupplyKeepsOrder(q.consumers, q.buffer[0], out);
      ProjectRemoval(more[0]);
      assert q.buffer == [q.buffer[0]] + q.buffer[1..];
    } else {
      AwaitKeepsOrder(q.consumers, out);
      if more == [] {
        assert out + more == out;
      } else {
        assert more == [more[0]];
        ProjectRemoval(more[0]);
      }
    }
  }

  // ---------------------------------------------------------------- what callers may rely on

  predicate Ends<T, E>(event: Event<T, E>)
  {
    event.Close? || event.Return?
  }

  predicate EndedBy<T, E>(events: seq<Event<T, E>>)
  {
    exists i :: 0 <= i < |events| && Ends(events[i])
  }

  function PushOf<T, E>(event: Event<T, E>): seq<T>
  {
    if event.Push? then [event.value] else []
  }

  /** Every value pushed in a run. */
  function Pushes<T, E>(events: seq<Event<T, E>>): seq<T> { FlatMap(PushOf, events) }

  /** The values pushed before the queue was closed, and those pushed after. */
  function Timely<T, E>(events: seq<Event<T, E>>): seq<T>
  {
    if events == [] then []
    else
      var init := events[..|events| - 1];
      Timely(init) + if EndedBy(init) then [] else PushOf(events[|events| - 1])
  }

  function Late<T, E>(events: seq<Event<T, E>>): seq<T>
  {
    if events == [] then []
    else
      var init := events[..|events| - 1];
      Late(init) + if EndedBy(init) then PushOf(events[|events| - 1]) else []
  }

  /** How many upstream lags were reported before the queue was closed. */
  function Marks<T, E>(events: seq<Event<T, E>>): nat
  {
    if events == [] then 0
    else
      var init := events[..|events| - 1];
      Marks(init) + if events[|events| - 1].MarkLagged? && !EndedBy(init) then 1 else 0
  }

  lemma EndedBySnoc<T, E>(events: seq<Event<T, E>>)
    requires events != []
    ensures EndedBy(events) <==> EndedBy(events[..|events| - 1]) || Ends(events[|events| - 1])
  {
    var init, last := events[..|events| - 1], |events| - 1;
    if EndedBy(init) {
      var i :| 0 <= i < |init| && Ends(init[i]);
      assert Ends(events[i]);
    }
    if EndedBy(events) {
      var i :| 0 <= i < |events| && Ends(events[i]);
      assert i < last ==> Ends(init[i]);
    }
  }

  lemma StepKeepsInv<T(!new), E(!new)>(q: Queue<T, E>, event: Event<T, E>, accepted: seq<T>, marks: nat, out: seq<Effect<T, E>>)
    requires QueueInv(q, accepted, marks, out)
    ensures QueueInv(Step(q, event).0,
                     if IsClosed(q) then accepted else accepted + PushOf(event),
                     if event.MarkLagged? && !IsClosed(q) then marks + 1 else marks,
                     out + Step(q, event).1)
  {
    if !event.Push? {
      assert accepted + PushOf(event) == accepted;
    }
    match event
    case Push(value) => PushKeepsInv(q, value, accepted, marks, out);
    case MarkLagged => MarkKeepsInv(q, accepted, marks, out);
    case Close(error) => CloseKeepsInv(q, error, accepted, marks, out);
    case Next => NextKeepsInv(q, accepted, marks, out);
    case Return => CloseKeepsInv(q, None, accepted, marks, out);
  }

  lemma StepCloses<T, E>(q: Queue<T, E>, event: Event<T, E>)
    ensures IsClosed(Step(q, event).0) <==> IsClosed(q) || Ends(event)
    ensures Step(q, event).0.capacity == q.capacity
  {
  }

  /** Over every run of every queue: the invariant holds, with exactly the timely pushes
      accepted, and the queue is closed exactly when some event closed it. */
  lemma {:induction false} RunKeepsInv<T(!new), E(!new)>(capacity: Option<int>, events: seq<Event<T, E>>)
    ensures var (q, out) := Run(Create<T, E>(capacity), events);
      && QueueInv(q, Timely(events), Marks(events), out)
      && (IsClosed(q) <==> EndedBy(events))
      && q.capacity == Create<T, E>(capacity).capacity
  {
    if events == [] {
      assert QueueInv<T, E>(Create(capacity), [], 0, []);
    } else {
      var init, last := events[..|events| - 1], events[|events| - 1];
      RunKeepsInv(capacity, init);
      EndedBySnoc(events);
      var (q, out) := Run(Create<T, E>(capacity), init);
      StepKeepsInv(q, last, Timely(init), Marks(init), out);
      StepCloses(q, last);
    }
  }

  lemma {:induction false} PushesSplit<T, E>(events: seq<Event<T, E>>)
    ensures Pushes(events) == Timely(events) + Late(events)
    ensures !EndedBy(events) ==> Late(events) == []
  {
    if events != [] {
      PushesSplit(events[..|events| - 1]);
      EndedBySnoc(events);
    }
  }

  /** Conservation, exactly as far as it goes: in accept order, what left the queue, then what
      it still buffers, then the values pushed after it was closed are all the values pushed. So
      every value is delivered, handed to the drop hook or buffered if and only if nothing was
      pushed after the close; such a value is lost without the hook being called. */
  lemma EveryPushIsAccountedFor<T(!new), E(!new)>(capacity: Option<int>, events: seq<Event<T, E>>)
    ensures var (q, out) := Run(Create<T, E>(capacity), events);
      && Removed(out) + q.buffer + Late(events) == Pushes(events)
      && (Removed(out) + q.buffer == Pushes(events) <==> Late(events) == [])
  {
    RunKeepsInv(capacity, events);
    PushesSplit(events);
  }

  /** How many times `next()` was called, and what the first close (or `return()`) settled. */
  function NextCalls<T, E>(events: seq<Event<T, E>>): nat
  {
    if events == [] then 0
    else NextCalls(events[..|events| - 1]) + if events[|events| - 1].Next? then 1 else 0
  }

  function FirstEnd<T, E>(events: seq<Event<T, E>>): Option<Option<E>>
  {
    if events == [] then None
    else if FirstEnd(events[..|events| - 1]).Some? then FirstEnd(events[..|events| - 1])
    else
      match events[|events| - 1]
      case Close(error) => Some(error)
      case Return => Some(None)
      case _ => None
  }

  lemma StepCounts<T, E>(q: Queue<T, E>, event: Event<T, E>)
    ensures Step(q, event).0.consumers.issued == q.consumers.issued + if event.Next? then 1 else 0
    ensures Step(q, event).0.consumers.terminal ==
            if IsClosed(q) then q.consumers.terminal else FirstEnd([event])
  {
    assert [event][..0] == [];
  }

  lemma {:induction false} RunCounts<T, E>(capacity: Option<int>, events: seq<Event<T, E>>)
    ensures var q := Run(Create<T, E>(capacity), events).0;
      q.consumers.issued == NextCalls(events) && q.consumers.terminal == FirstEnd(events)
  {
    if events != [] {
      var init, last := events[..|events| - 1], events[|events| - 1];
      RunCounts(capacity, init);
      StepCounts(Run(Create<T, E>(capacity), init).0, last);
      assert [last][..0] == [];
    }
  }

  /** Over every run the `next()` calls are settled in the order they were made, each exactly
      once, the unsettled ones being the parked ones; their outcomes are the delivered values,
      then the first close's error at most once and before anything else, then `Done`. */
  lemma CallsAreAnsweredInOrder<T(!new), E(!new)>(capacity: Option<int>, events: seq<Event<T, E>>)
    ensures var (q, out) := Run(Create<T, E>(capacity), events);
      && Calls(out) + q.consumers.waiters == Iota(NextCalls(events))
      && |Delivered(out)| <= |Outcomes(out)|
      && Outcomes(out) == Yields(Delivered(out)) + Finale(FirstEnd(events), |Outcomes(out)| - |Delivered(out)|)
      && (FirstEnd(events).None? ==> |Outcomes(out)| == |Delivered(out)|)
      && (FirstEnd(events).Some? ==> q.consumers.waiters == [])
      && (q.consumers.waiters != [] ==> q.buffer == [])
  {
    RunKeepsInv(capacity, events);
    RunCounts(capacity, events);
  }

  lemma {:induction false} DeliveriesAmongRemovals<T, E>(out: seq<Effect<T, E>>)
    ensures Subsequence(Delivered(out), Removed(out))
  {
    if out != [] {
      var init, last := out[..|out| - 1], out[|out| - 1];
      DeliveriesAmongRemovals(init);
      if RemovalOf(last) != [] {
        if DeliveryOf(last) != [] {
          SubsequenceTake(Delivered(init), Removed(init), last.outcome.value);
        } else {
          assert Delivered(out) == Delivered(init);
          SubsequenceSkip(Delivered(init), Removed(init), last.value);
        }
      } else {
        assert Delivered(out) == Delivered(init) && Removed(out) == Removed(init);
      }
    }
  }

  lemma {:induction false} SubsequenceExtend<T>(a: seq<T>, b: seq<T>, more: seq<T>)
    requires Subsequence(a, b)
    ensures Subsequence(a, b + more)
  {
    if more == [] {
      assert b + more == b;
    } else {
      SubsequenceExtend(a, b, more[..|more| - 1]);
      SubsequenceSkip(a, b + more[..|more| - 1], more[|more| - 1]);
      assert b + more == (b + more[..|more| - 1]) + [more[|more| - 1]];
    }
  }

  /** Consumers see values in push order, and the reported lag total is exactly the evictions
      plus the upstream lags reported while the queue was open. */
  lemma DeliveryOrderAndLag<T(!new), E(!new)>(capacity: Option<int>, events: seq<Event<T, E>>)
    ensures var (q, out) := Run(Create<T, E>(capacity), events);
      && Subsequence(Delivered(out), Pushes(events))
      && |q.buffer| <= Create<T, E>(capacity).capacity
      && q.dropped == |Evicted(out)| + Marks(events)
      && |Lags(out)| == q.dropped && (forall i :: 0 <= i < q.dropped ==> Lags(out)[i] == i + 1)
  {
    RunKeepsInv(capacity, events);
    EveryPushIsAccountedFor(capacity, events);
    var (q, out) := Run(Create<T, E>(capacity), events);
    DeliveriesAmongRemovals(out);
    SubsequenceExtend(Delivered(out), Removed(out), q.buffer);
    SubsequenceExtend(Delivered(out), Removed(out) + q.buffer, Late(events));
  }

  /** How far the queue is ahead of its consumers, or behind them, counted off the events while it
      is open: values waiting less calls waiting. */
  function Balance<T, E>(capacity: nat, events: seq<Event<T, E>>): int
  {
    if events == [] then 0
    else
      var init := events[..|events| - 1];
      var before := Balance(capacity, init);
      match events[|events| - 1]
      case Push(_) => if before < capacity then before + 1 else before
      case Next => before - 1
      case _ => before
  }

  /** How many pushes found the queue full. */
  function Overflows<T, E>(capacity: nat, events: seq<Event<T, E>>): nat
  {
    if events == [] then 0
    else
      var init, last := events[..|events| - 1], events[|events| - 1];
      Overflows(capacity, init) +
        if last.Push? && !EndedBy(init) && Balance(capacity, init) >= capacity then 1 else 0
  }

  lemma StepBalances<T(!new), E(!new)>(q: Queue<T, E>, event: Event<T, E>, accepted: seq<T>, marks: nat, out: seq<Effect<T, E>>)
    requires QueueInv(q, accepted, marks, out) && !IsClosed(q) && !Ends(event)
    ensures var (q', more) := Step(q, event);
      var before := |q.buffer| - |q.consumers.waiters|;
      && |q'.buffer| - |q'.consumers.waiters| ==
           (if event.Push? && before < q.capacity then before + 1 else if event.Next? then before - 1 else before)
      && |Evicted(more)| == if event.Push? && before >= q.capacity then 1 else 0
  {
    var more := Step(q, event).1;
    if |more| == 1 {
      assert more == [more[0]];
      ProjectRemoval(more[0]);
    } else if |more| == 2 {
      assert more == [more[0]] + [more[1]];
      ProjectRemovals([more[0]], [more[1]]);
      ProjectRemoval(more[0]);
      ProjectRemoval(more[1]);
    }
  }

  lemma ClosingEvictsNothing<T, E>(q: Queue<T, E>, event: Event<T, E>)
    requires IsClosed(q) || Ends(event)
    requires IsClosed(q) ==> q.buffer == []
    ensures Evicted(Step(q, event).1) == []
  {
    var more := Step(q, event).1;
    if IsClosed(q) && event.Next? {
      assert more == [more[0]];
      ProjectRemoval(more[0]);
    } else if !IsClosed(q) {
      ClosingRemoves(q, if event.Close? then event.error else None);
    }
  }

  /** A value is evicted when, and only when, a push finds nobody waiting and the queue full: the
      evictions are counted off the events, and while the queue is open so is what it holds. */
  lemma {:induction false} OnlyAFullQueueEvicts<T(!new), E(!new)>(capacity: Option<int>, events: seq<Event<T, E>>)
    ensures var (q, out) := Run(Create<T, E>(capacity), events);
      && |Evicted(out)| == Overflows(q.capacity, events)
      && (!EndedBy(events) ==> |q.buffer| - |q.consumers.waiters| == Balance(q.capacity, events))
  {
    if events != [] {
      var init, last := events[..|events| - 1], events[|events| - 1];
      OnlyAFullQueueEvicts(capacity, init);
      RunKeepsInv(capacity, init);
      EndedBySnoc(events);
      var (q, out) := Run(Create<T, E>(capacity), init);
      StepCloses(q, last);
      ProjectRemovals(out, Step(q, last).1);
      if IsClosed(q) || Ends(last) {
        ClosingEvictsNothing(q, last);
      } else {
        StepBalances(q, last, Timely(init), Marks(init), out);
      }
    }
  }

  // ---------------------------------------------------------------- the class

  class MessageQueue<T, E> {
    const capacity: nat
    var buffer: seq<T>
    const consumers: WaiterQueue<T, E>
    var droppedCount: nat

    constructor (wanted: Option<int>)
      ensures fresh(consumers)
      ensures State() == Create(wanted)
    {
      var floor := if wanted.Some? then wanted.value else DEFAULT_CAPACITY;
      capacity := if floor < 1 then 1 else floor;
      buffer, droppedCount := [], 0;
      consumers := new WaiterQueue<T, E>();
    }

    function State(): Queue<T, E>
      reads this, consumers
    {
      Queue(capacity, buffer, consumers.State(), droppedCount)
    }

    method Push(value: T) returns (out: seq<Effect<T, E>>)
      modifies this, consumers
      ensures (State(), out) == Pushed(old(State()), value)
    {
      if consumers.terminal.Some? {
        return [];
      }
      var handed;
      handed, out := consumers.HandOff(value);
      if handed {
        return;
      }
      buffer := buffer + [value];
      if |buffer| > capacity {
        out := [Discard(buffer[0], Overflow)];
        buffer := buffer[1..];
        var lag := RecordDrop();
        out := [out[0], lag[0]];
      }
    }

    method RecordDrop() returns (out: seq<Effect<T, E>>)
      modifies this
      ensures buffer == old(buffer) && droppedCount == old(droppedCount) + 1
      ensures out == [Lagged(droppedCount)]
    {
      droppedCount := droppedCount + 1;
      out := [Lagged(droppedCount)];
    }

    method MarkLagged() returns (out: seq<Effect<T, E>>)
      modifies this
      ensures (State(), out) == Marked(old(State()))
    {
      if consumers.terminal.Some? {
        return [];
      }
      out := RecordDrop();
    }

    method Close(error: Option<E>) returns (out: seq<Effect<T, E>>)
      modifies this, consumers
      ensures (State(), out) == Closed(old(State()), error)
    {
      out := [];
      if consumers.terminal.Some? {
        return;
      }
      var undelivered := buffer;
      buffer := [];
      for i := 0 to |undelivered|
        invariant out == Discards(undelivered[..i])
        invariant buffer == [] && droppedCount == old(droppedCount)
        invariant consumers.State() == old(consumers.State())
      {
        out := out + [Discard(undelivered[i], AtClose)];
      }
      assert undelivered[..|undelivered|] == old(buffer);
      var ends := consumers.Settle(error);
      out := out + ends;
    }

    method Next() returns (out: seq<Effect<T, E>>)
      modifies this, consumers
      ensures (State(), out) == Nexted(old(State()))
    {
      if |buffer| > 0 {
        out := consumers.Supply(buffer[0]);
        buffer := buffer[1..];
      } else {
        out := consumers.SettledResultOrPark();
      }
    }

    method Return() returns (out: seq<Effect<T, E>>)
      modifies this, consumers
      ensures (State(), out) == Closed(old(State()), None)
    {
      out := Close(None);
    }
  }
}
