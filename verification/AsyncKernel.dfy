/** The parked-consumer and terminal-state core of `src/waiter-queue.ts`. A call to `next()` is
    named by its number, so a promise and what became of it can be followed through a run. */
module AsyncKernel {
  import opened Base

  /** What one `next()` call resolves or rejects with. */
  datatype Outcome<T, E> = Yield(value: T) | Throw(error: E) | Done

  datatype DropCause = Overflow | AtClose

  /** What the outside sees: a settled call, a value handed to `onDropped`, an `onLagged`. */
  datatype Effect<T, E> =
    | Resolve(call: nat, outcome: Outcome<T, E>)
    | Discard(value: T, cause: DropCause)
    | Lagged(total: nat)

  /** `terminal` holds the settled stream's error, `Some(None)` being a graceful end. */
  datatype Consumers<E> = Consumers(
    waiters: seq<nat>,
    issued: nat,
    terminal: Option<Option<E>>,
    errorDelivered: bool)

  function NoConsumers<E>(): Consumers<E>
  {
    Consumers([], 0, None, false)
  }

  /** Hands `value` to the longest-parked consumer; no effect means nobody was waiting. */
  function HandedOff<T, E>(c: Consumers<E>, value: T): (Consumers<E>, seq<Effect<T, E>>)
  {
    if c.waiters == [] then (c, [])
    else (c.(waiters := c.waiters[1..]), [Resolve(c.waiters[0], Yield(value))])
  }

  /** Ends the parked consumers: the error goes to the first unless it was delivered already. */
  function EndAll<T, E>(waiters: seq<nat>, error: Option<E>, delivered: bool): seq<Effect<T, E>>
  {
    if waiters == [] then []
    else if error.Some? && !delivered then
      [Resolve(waiters[0], Throw(error.value))] + EndAll(waiters[1..], error, true)
    else
      [Resolve(waiters[0], Done)] + EndAll(waiters[1..], error, delivered)
  }

  function Terminated<T, E>(c: Consumers<E>, error: Option<E>): (Consumers<E>, seq<Effect<T, E>>)
  {
    if c.terminal.Some? then (c, [])
    else
      (Consumers([], c.issued, Some(error), c.errorDelivered || (error.Some? && c.waiters != [])),
       EndAll(c.waiters, error, c.errorDelivered))
  }

  /** `next()` once the owner has nothing buffered: the settled result, or park. */
  function Awaited<T, E>(c: Consumers<E>): (Consumers<E>, seq<Effect<T, E>>)
  {
    if c.terminal.None? then
      (c.(waiters := c.waiters + [c.issued], issued := c.issued + 1), [])
    else if c.terminal.value.Some? && !c.errorDelivered then
      (c.(issued := c.issued + 1, errorDelivered := true),
       [Resolve(c.issued, Throw(c.terminal.value.value))])
    else
      (c.(issued := c.issued + 1), [Resolve(c.issued, Done)])
  }

  /** `next()` answered at once with a value the owner had buffered. */
  function Supplied<T, E>(c: Consumers<E>, value: T): (Consumers<E>, seq<Effect<T, E>>)
  {
    (c.(issued := c.issued + 1), [Resolve(c.issued, Yield(value))])
  }

  // ---------------------------------------------------------------- reading a history

  function CallOf<T, E>(e: Effect<T, E>): seq<nat>
  {
    if e.Resolve? then [e.call] else []
  }

  function OutcomeOf<T, E>(e: Effect<T, E>): seq<Outcome<T, E>>
  {
    if e.Resolve? then [e.outcome] else []
  }

  function DeliveryOf<T, E>(e: Effect<T, E>): seq<T>
  {
    if e.Resolve? && e.outcome.Yield? then [e.outcome.value] else []
  }

  /** The calls settled so far, in the order they were settled. */
  function Calls<T, E>(out: seq<Effect<T, E>>): seq<nat> { FlatMap(CallOf, out) }
  function Outcomes<T, E>(out: seq<Effect<T, E>>): seq<Outcome<T, E>> { FlatMap(OutcomeOf, out) }
  function Delivered<T, E>(out: seq<Effect<T, E>>): seq<T> { FlatMap(DeliveryOf, out) }

  function Yields<T, E>(values: seq<T>): (r: seq<Outcome<T, E>>)
    ensures |r| == |values|
    ensures forall i :: 0 <= i < |r| ==> r[i] == Yield(values[i])
  {
    seq(|values|, i requires 0 <= i < |values| => Yield(values[i]))
  }

  /** How `n` calls past the last value end: the error once and first, then `Done` for ever. */
  function Finale<T, E>(terminal: Option<Option<E>>, n: nat): (r: seq<Outcome<T, E>>)
    ensures |r| == n
    ensures forall i :: 0 < i < n ==> r[i] == Done
    ensures n > 0 ==> r[0] == First(terminal)
  {
    seq(n, i => if i == 0 then First(terminal) else Done)
  }

  function First<T, E>(terminal: Option<Option<E>>): Outcome<T, E>
  {
    if terminal.Some? && terminal.value.Some? then Throw(terminal.value.value) else Done
  }

  /** The whole discipline of the kernel, as a property of its state and everything it has let
      out: calls are settled in the order they were made, each once; the settled ones first get
      values, then (only when the stream has ended) the error at most once and before anything
      else, and then `Done`. */
  ghost predicate Orderly<T(!new), E(!new)>(c: Consumers<E>, out: seq<Effect<T, E>>)
  {
    && Calls(out) + c.waiters == Iota(c.issued)
    && |Delivered(out)| <= |Outcomes(out)|
    && Outcomes(out) == Yields(Delivered(out)) + Finale(c.terminal, |Outcomes(out)| - |Delivered(out)|)
    && (c.terminal.None? ==> |Outcomes(out)| == |Delivered(out)|)
    && (c.terminal.Some? ==> c.waiters == [])
    && (c.errorDelivered <==>
          c.terminal.Some? && c.terminal.value.Some? && |Outcomes(out)| > |Delivered(out)|)
  }

  lemma Project<T, E>(out: seq<Effect<T, E>>, new_: seq<Effect<T, E>>)
    ensures Calls(out + new_) == Calls(out) + Calls(new_)
    ensures Outcomes(out + new_) == Outcomes(out) + Outcomes(new_)
    ensures Delivered(out + new_) == Delivered(out) + Delivered(new_)
  {
    FlatMapAppend(CallOf, out, new_);
    FlatMapAppend(OutcomeOf, out, new_);
    FlatMapAppend(DeliveryOf, out, new_);
  }

  lemma ProjectOne<T, E>(e: Effect<T, E>)
    ensures Calls([e]) == CallOf(e) && Outcomes([e]) == OutcomeOf(e) && Delivered([e]) == DeliveryOf(e)
  {
    FlatMapOne(CallOf, e);
    FlatMapOne(OutcomeOf, e);
    FlatMapOne(DeliveryOf, e);
  }

  lemma HandOffKeepsOrder<T(!new), E(!new)>(c: Consumers<E>, value: T, out: seq<Effect<T, E>>)
    requires Orderly(c, out)
    ensures Orderly(HandedOff(c, value).0, out + HandedOff(c, value).1)
    ensures Delivered(out + HandedOff(c, value).1) ==
            Delivered(out) + if c.waiters == [] then [] else [value]
  {
    if c.waiters == [] {
      assert out + [] == out;
    } else {
      ValueKeepsOrder(c.(waiters := c.waiters[1..]), c.waiters[0], value, out);
    }
  }

  lemma SupplyKeepsOrder<T(!new), E(!new)>(c: Consumers<E>, value: T, out: seq<Effect<T, E>>)
    requires Orderly(c, out) && c.waiters == [] && |Outcomes(out)| == |Delivered(out)|
    ensures Orderly(Supplied(c, value).0, out + Supplied(c, value).1)
    ensures Delivered(out + Supplied(c, value).1) == Delivered(out) + [value]
    ensures |Outcomes(out + Supplied(c, value).1)| == |Outcomes(out)| + 1
  {
    assert Calls(out) == Iota(c.issued);
    ValueKeepsOrder(c.(issued := c.issued + 1), c.issued, value, out);
  }

  lemma ValueKeepsOrder<T(!new), E(!new)>(c: Consumers<E>, call: nat, value: T, out: seq<Effect<T, E>>)
    requires Calls(out) + [call] + c.waiters == Iota(c.issued)
    requires Outcomes(out) == Yields(Delivered(out)) && !c.errorDelivered
    requires c.terminal.Some? ==> c.waiters == []
    ensures Orderly(c, out + [Resolve(call, Yield(value))])
    ensures Delivered(out + [Resolve(call, Yield(value))]) == Delivered(out) + [value]
    ensures |Outcomes(out + [Resolve(call, Yield(value))])| == |Outcomes(out)| + 1
  {
    var e: Effect<T, E> := Resolve(call, Yield(value));
    Project(out, [e]);
    ProjectOne(e);
    assert Outcomes(out + [e]) == Yields(Delivered(out + [e]));
  }

  lemma AwaitKeepsOrder<T(!new), E(!new)>(c: Consumers<E>, out: seq<Effect<T, E>>)
    requires Orderly(c, out)
    ensures Orderly(Awaited<T, E>(c).0, out + Awaited(c).1)
    ensures Delivered(out + Awaited(c).1) == Delivered(out)
  {
    if c.terminal.None? {
      var c' := Awaited<T, E>(c).0;
      assert out + Awaited(c).1 == out;
      assert Calls(out) + c'.waiters == (Calls(out) + c.waiters) + [c.issued];
    } else {
      AnswerKeepsOrder(c, out);
    }
  }

  lemma AnswerKeepsOrder<T(!new), E(!new)>(c: Consumers<E>, out: seq<Effect<T, E>>)
    requires Orderly(c, out) && c.terminal.Some?
    ensures Orderly(Awaited<T, E>(c).0, out + Awaited(c).1)
    ensures Delivered(out + Awaited(c).1) == Delivered(out)
  {
    var n := |Outcomes(out)| - |Delivered(out)|;
    var e: Effect<T, E> := Resolve(c.issued, if n == 0 then First(c.terminal) else Done);
    assert Awaited<T, E>(c).1 == [e];
    Project(out, [e]);
    ProjectOne(e);
    assert Delivered(out + [e]) == Delivered(out);
    assert Calls(out) == Calls(out) + c.waiters;
    assert Calls(out + [e]) == Iota(c.issued) + [c.issued] == Iota(c.issued + 1);
    FinaleGrows<T, E>(c.terminal, n);
  }

  /** One more call past the end gets the error if it is the first, `Done` otherwise. */
  lemma FinaleGrows<T, E>(terminal: Option<Option<E>>, n: nat)
    ensures Finale<T, E>(terminal, n + 1) ==
            Finale(terminal, n) + [if n == 0 then First(terminal) else Done]
  {
  }

  lemma FinaleHead<T, E>(error: Option<E>, n: nat)
    ensures Finale<T, E>(Some(error), n + 1) ==
            [First(Some(error))] + Finale(Some(None), n)
  {
  }

  lemma {:induction false} EndAllShape<T, E>(waiters: seq<nat>, error: Option<E>, delivered: bool)
    ensures var es := EndAll<T, E>(waiters, error, delivered);
      && Calls(es) == waiters && Delivered(es) == []
      && Outcomes(es) == Finale(Some(if delivered then None else error), |waiters|)
  {
    if waiters != [] {
      var delivered' := delivered || error.Some?;
      var rest := EndAll<T, E>(waiters[1..], error, delivered');
      EndAllShape<T, E>(waiters[1..], error, delivered');
      var first: Effect<T, E> := Resolve(waiters[0], if error.Some? && !delivered then Throw(error.value) else Done);
      assert EndAll<T, E>(waiters, error, delivered) == [first] + rest;
      Project([first], rest);
      ProjectOne(first);
      FinaleHead<T, E>(if delivered then None else error, |waiters| - 1);
    }
  }

  lemma TerminateKeepsOrder<T(!new), E(!new)>(c: Consumers<E>, error: Option<E>, out: seq<Effect<T, E>>)
    requires Orderly(c, out)
    ensures Orderly(Terminated<T, E>(c, error).0, out + Terminated(c, error).1)
    ensures Delivered(out + Terminated(c, error).1) == Delivered(out)
  {
    var (c', es) := Terminated<T, E>(c, error);
    Project(out, es);
    if c.terminal.None? {
      EndAllShape<T, E>(c.waiters, error, c.errorDelivered);
    } else {
      assert out + es == out;
    }
  }

  // ---------------------------------------------------------------- the class

  class WaiterQueue<T, E> {
    var waiters: seq<nat>
    var terminal: Option<Option<E>>
    var errorDelivered: bool
    /** How many promises `next()` has created; the next one takes this number. */
    var issued: nat

    constructor ()
      ensures State() == NoConsumers()
    {
      waiters, terminal, errorDelivered, issued := [], None, false, 0;
    }

    function State(): Consumers<E>
      reads this
    {
      Consumers(waiters, issued, terminal, errorDelivered)
    }

    method HandOff(value: T) returns (handed: bool, out: seq<Effect<T, E>>)
      modifies this
      ensures (State(), out) == HandedOff(old(State()), value)
      ensures handed <==> old(waiters) != []
    {
      if waiters == [] {
        return false, [];
      }
      var waiter := waiters[0];
      waiters := waiters[1..];
      return true, [Resolve(waiter, Yield(value))];
    }

    method Settle(error: Option<E>) returns (out: seq<Effect<T, E>>)
      modifies this
      ensures (State(), out) == Terminated(old(State()), error)
    {
      out := [];
      if terminal.Some? {
        return;
      }
      terminal := Some(error);
      var parked := waiters;
      waiters := [];
      for i := 0 to |parked|
        invariant waiters == [] && terminal == Some(error) && issued == old(issued)
        invariant errorDelivered == (old(errorDelivered) || (error.Some? && i > 0))
        invariant out + EndAll(parked[i..], error, errorDelivered) ==
                  EndAll(parked, error, old(errorDelivered))
      {
        assert parked[i..] == [parked[i]] + parked[i + 1..];
        if error.Some? && !errorDelivered {
          errorDelivered := true;
          out := out + [Resolve(parked[i], Throw(error.value))];
        } else {
          out := out + [Resolve(parked[i], Done)];
        }
      }
      assert parked[|parked|..] == [];
      assert out == EndAll(parked, error, old(errorDelivered));
      assert parked == old(waiters);
    }

    /** `settledResult() ?? park()`. */
    method SettledResultOrPark() returns (out: seq<Effect<T, E>>)
      modifies this
      ensures (State(), out) == Awaited(old(State()))
    {
      var call := issued;
      issued := issued + 1;
      if terminal.None? {
        waiters := waiters + [call];
        out := [];
      } else if terminal.value.Some? && !errorDelivered {
        errorDelivered := true;
        out := [Resolve(call, Throw(terminal.value.value))];
      } else {
        out := [Resolve(call, Done)];
      }
    }

    method Supply(value: T) returns (out: seq<Effect<T, E>>)
      modifies this
      ensures (State(), out) == Supplied(old(State()), value)
    {
      out := [Resolve(issued, Yield(value))];
      issued := issued + 1;
    }
  }
}
