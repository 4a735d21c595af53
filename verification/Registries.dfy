/** The handle registry of `rust/iroh-rn-core/src/registry.rs`. Allocating a handle and storing
    the value under it are two steps, so calls from several threads interleave between them. */
module Registries {
  import opened Base

  /** `reserved` holds the handles allocated by inserts that have not reached the map yet. */
  datatype Shared<T> = Shared(items: map<nat, T>, next: nat, reserved: set<nat>)

  datatype Event<T> =
    | Allocate
    | Store(handle: nat, value: T)
    | Get(handle: nat)
    | Remove(handle: nat)

  datatype Answer<T> = Allocated(handle: nat) | Stored | Found(value: T) | InvalidHandle(handle: nat)

  function Fresh<T>(): Shared<T>
  {
    Shared(map[], 1, {})
  }

  function Looked<T>(s: Shared<T>, handle: nat): Answer<T>
  {
    if handle in s.items then Found(s.items[handle]) else InvalidHandle(handle)
  }

  /** One atomic step; `None` when no thread is in a position to take it. */
  function Step<T>(s: Shared<T>, e: Event<T>): Option<(Shared<T>, Answer<T>)>
  {
    match e
    case Allocate => Some((s.(next := s.next + 1, reserved := s.reserved + {s.next}), Allocated(s.next)))
    case Store(h, value) =>
      if h !in s.reserved then None
      else Some((s.(items := s.items[h := value], reserved := s.reserved - {h}), Stored))
    case Get(h) => Some((s, Looked(s, h)))
    case Remove(h) => Some((s.(items := s.items - {h}), Looked(s, h)))
  }

  function Run<T>(s: Shared<T>, events: seq<Event<T>>): Option<(Shared<T>, seq<Answer<T>>)>
  {
    if events == [] then Some((s, []))
    else
      var before := Run(s, events[..|events| - 1]);
      if before.None? then None
      else
        var step := Step(before.value.0, events[|events| - 1]);
        if step.None? then None else Some((step.value.0, before.value.1 + [step.value.1]))
  }

  ghost predicate RegistryInv<T>(s: Shared<T>)
  {
    && 1 <= s.next
    && (forall h :: h in s.items ==> 1 <= h < s.next && h !in s.reserved)
    && (forall h :: h in s.reserved ==> 1 <= h < s.next)
  }

  /** A handle that was never given out and never will be, or whose object is gone. */
  ghost predicate Retired<T>(s: Shared<T>, handle: nat)
  {
    handle < s.next && handle !in s.items && handle !in s.reserved
  }

  lemma StepKeepsInv<T>(s: Shared<T>, e: Event<T>)
    requires RegistryInv(s) && Step(s, e).Some?
    ensures RegistryInv(Step(s, e).value.0)
    ensures forall h: nat :: Retired(s, h) ==> Retired(Step(s, e).value.0, h)
  {
  }

  lemma {:induction false} RunKeepsInv<T>(s: Shared<T>, events: seq<Event<T>>)
    requires RegistryInv(s) && Run(s, events).Some?
    ensures RegistryInv(Run(s, events).value.0)
    ensures |Run(s, events).value.1| == |events|
    ensures forall h: nat :: Retired(s, h) ==> Retired(Run(s, events).value.0, h)
  {
    if events != [] {
      RunKeepsInv(s, events[..|events| - 1]);
      StepKeepsInv(Run(s, events[..|events| - 1]).value.0, events[|events| - 1]);
    }
  }

  /** The handles allocated, in the order the allocations happened. */
  function Allocations<T>(answers: seq<Answer<T>>): seq<nat>
  {
    FlatMap(AllocationOf, answers)
  }

  function AllocationOf<T>(a: Answer<T>): seq<nat>
  {
    if a.Allocated? then [a.handle] else []
  }

  lemma RunSplits<T>(s: Shared<T>, events: seq<Event<T>>)
    requires events != [] && Run(s, events).Some?
    ensures var before := Run(s, events[..|events| - 1]);
      && before.Some?
      && Step(before.value.0, events[|events| - 1]).Some?
      && Run(s, events).value.0 == Step(before.value.0, events[|events| - 1]).value.0
      && Run(s, events).value.1 == before.value.1 + [Step(before.value.0, events[|events| - 1]).value.1]
  {
  }

  ghost predicate CountsFromOne(handles: seq<nat>, next: nat)
  {
    |handles| == next - 1 && forall i :: 0 <= i < |handles| ==> handles[i] == i + 1
  }

  lemma StepCounts<T>(s: Shared<T>, e: Event<T>, handles: seq<nat>)
    requires CountsFromOne(handles, s.next) && Step(s, e).Some?
    ensures CountsFromOne(handles + AllocationOf(Step(s, e).value.1), Step(s, e).value.0.next)
  {
  }

  /** However inserts, lookups and removals interleave, handles are given out as 1, 2, 3 and so
      on: each once, and never 0. */
  lemma {:induction false} HandlesAreNeverReissued<T>(events: seq<Event<T>>)
    requires Run(Fresh<T>(), events).Some?
    ensures CountsFromOne(Allocations(Run(Fresh<T>(), events).value.1), Run(Fresh<T>(), events).value.0.next)
  {
    if events != [] {
      var init := events[..|events| - 1];
      RunSplits(Fresh<T>(), events);
      HandlesAreNeverReissued(init);
      var (s, answers) := Run(Fresh<T>(), init).value;
      var step := Step(s, events[|events| - 1]).value;
      FlatMapSnoc(AllocationOf, answers, step.1);
      StepCounts(s, events[|events| - 1], Allocations(answers));
    }
  }

  /** What the history says about a handle: the value stored under it, unless it was removed. */
  function Binding<T>(events: seq<Event<T>>, handle: nat): Option<T>
  {
    if events == [] then None
    else
      var last := events[|events| - 1];
      if last == Remove(handle) then None
      else if last.Store? && last.handle == handle then Some(last.value)
      else Binding(events[..|events| - 1], handle)
  }

  /** A lookup answers with the stored object from the moment it is in the map until it is
      removed, and with `InvalidHandle` at every other time. */
  lemma {:induction false} LookupFollowsHistory<T>(events: seq<Event<T>>, handle: nat)
    requires Run(Fresh<T>(), events).Some?
    ensures var s := Run(Fresh<T>(), events).value.0;
      && (Binding(events, handle).Some? <==> handle in s.items)
      && (handle in s.items ==> Binding(events, handle) == Some(s.items[handle]))
  {
    if events != [] {
      LookupFollowsHistory(events[..|events| - 1], handle);
    }
  }

  /** What each call is answered, read off the calls before it. */
  function AnswerIn<T>(before: seq<Event<T>>, e: Event<T>, given: nat): Answer<T>
  {
    match e
    case Allocate => Allocated(given + 1)
    case Store(_, _) => Stored
    case Get(h) => if Binding(before, h).Some? then Found(Binding(before, h).value) else InvalidHandle(h)
    case Remove(h) => if Binding(before, h).Some? then Found(Binding(before, h).value) else InvalidHandle(h)
  }

  /** Every call, at its turn, is answered with the object its handle names at that moment, or told
      that it names none; a removal answers with what it removes. */
  lemma AnswersFollowHistory<T>(before: seq<Event<T>>, e: Event<T>)
    requires Run(Fresh<T>(), before + [e]).Some?
    ensures Run(Fresh<T>(), before).Some?
    ensures var answers := Run(Fresh<T>(), before).value.1;
      Run(Fresh<T>(), before + [e]).value.1 == answers + [AnswerIn(before, e, |Allocations(answers)|)]
  {
    assert (before + [e])[..|before + [e]| - 1] == before;
    RunSplits(Fresh<T>(), before + [e]);
    HandlesAreNeverReissued(before);
    if e.Get? || e.Remove? {
      LookupFollowsHistory(before, e.handle);
    }
  }

  /** A removed handle, like 0, answers `InvalidHandle` for the rest of the run. */
  lemma {:induction false} RemovedIsGoneForGood<T>(s: Shared<T>, handle: nat, later: seq<Event<T>>)
    requires RegistryInv(s) && (handle in s.items || handle == 0)
    requires Run(Step(s, Remove(handle)).value.0, later).Some?
    ensures var s' := Run(Step(s, Remove(handle)).value.0, later).value.0;
      Retired(s', handle) && Looked(s', handle) == InvalidHandle(handle)
  {
    var s1 := Step(s, Remove(handle)).value.0;
    StepKeepsInv(s, Remove(handle));
    assert Retired(s1, handle);
    RunKeepsInv(s1, later);
  }

  // ---------------------------------------------------------------- the class

  datatype Result<T> = Ok(value: T) | Err(handle: nat)

  class Registry<T> {
    var items: map<nat, T>
    var next: nat

    constructor ()
      ensures Quiet() == Fresh()
    {
      items, next := map[], 1;
    }

    /** The registry between calls, when no insert is half-way. */
    function Quiet(): Shared<T>
      reads this
    {
      Shared(items, next, {})
    }

    method Insert(value: T) returns (handle: nat)
      requires RegistryInv(Quiet())
      modifies this
      ensures var first := Step(old(Quiet()), Allocate).value;
        && first.1 == Allocated(handle)
        && Step(first.0, Store(handle, value)) == Some((Quiet(), Stored))
      ensures RegistryInv(Quiet()) && handle !in old(items)
    {
      assert {next} - {next} == {};
      handle := next;
      next := next + 1;
      items := items[handle := value];
    }

    method Get(handle: nat) returns (r: Result<T>)
      ensures r == if handle in items then Ok(items[handle]) else Err(handle)
    {
      if handle in items {
        return Ok(items[handle]);
      }
      return Err(handle);
    }

    method Remove(handle: nat) returns (r: Result<T>)
      modifies this`items
      ensures r == if handle in old(items) then Ok(old(items)[handle]) else Err(handle)
      ensures items == old(items) - {handle}
    {
      if handle !in items {
        return Err(handle);
      }
      r := Ok(items[handle]);
      items := items - {handle};
    }
  }
}
