/** The conflating latest-value fan-out of `src/watchable.ts`. */
module Watchables {
  import opened Base
  import opened AsyncKernel

  /** One conflating iterator: at most one undelivered value, then the shared kernel. */
  datatype Iter<T, E> = Iter(pending: Option<T>, consumers: Consumers<E>)

  function IterPushed<T, E>(i: Iter<T, E>, value: T): (Iter<T, E>, seq<Effect<T, E>>)
  {
    if i.consumers.waiters == [] then (i.(pending := Some(value)), [])
    else var (c, out) := HandedOff(i.consumers, value); (i.(consumers := c), out)
  }

  function IterFinished<T, E>(i: Iter<T, E>, error: Option<E>): (Iter<T, E>, seq<Effect<T, E>>)
  {
    var (c, out) := Terminated(i.consumers, error);
    (i.(consumers := c), out)
  }

  function IterNexted<T, E>(i: Iter<T, E>): (Iter<T, E>, seq<Effect<T, E>>)
  {
    if i.pending.Some? then
      var (c, out) := Supplied(i.consumers, i.pending.value); (Iter(None, c), out)
    else
      var (c, out) := Awaited(i.consumers); (i.(consumers := c), out)
  }

  function IterReturned<T, E>(i: Iter<T, E>): (Iter<T, E>, seq<Effect<T, E>>)
  {
    var (c, out) := Terminated(i.consumers, None);
    (Iter(None, c), out)
  }

  function Retained<T, E>(i: Iter<T, E>): seq<T>
  {
    if i.pending.Some? then [i.pending.value] else []
  }

  /** What an iterator owes when `pushes` were pushed while it was attached: the kernel's
      discipline; the values seen are a subsequence of the pushes; and the newest push is never
      the one that was conflated away. */
  ghost predicate IterInv<T(!new), E(!new)>(i: Iter<T, E>, pushes: seq<T>, out: seq<Effect<T, E>>)
  {
    && Orderly(i.consumers, out)
    && (i.pending.Some? ==> i.consumers.waiters == [] && |Outcomes(out)| == |Delivered(out)|)
    && Subsequence(Delivered(out) + Retained(i), pushes)
    && (pushes != [] ==>
          Delivered(out) + Retained(i) != [] &&
          (Delivered(out) + Retained(i))[|Delivered(out) + Retained(i)| - 1] == pushes[|pushes| - 1])
  }

  lemma IterPushKeepsInv<T(!new), E(!new)>(i: Iter<T, E>, value: T, pushes: seq<T>, out: seq<Effect<T, E>>)
    requires IterInv(i, pushes, out) && i.consumers.terminal.None?
    ensures IterInv(IterPushed(i, value).0, pushes + [value], out + IterPushed(i, value).1)
  {
    var (i', more) := IterPushed(i, value);
    SubsequenceInit(Delivered(out), Retained(i), pushes);
    SubsequenceTake(Delivered(out), pushes, value);
    if i.consumers.waiters == [] {
      assert out + more == out;
    } else {
      HandOffKeepsOrder(i.consumers, value, out);
      assert Delivered(out + more) + Retained(i') == Delivered(out) + [value];
    }
  }

  /** Dropping the retained value keeps a subsequence. */
  lemma SubsequenceInit<T>(seen: seq<T>, retained: seq<T>, pushes: seq<T>)
    requires |retained| <= 1 && Subsequence(seen + retained, pushes)
    ensures Subsequence(seen, pushes)
    decreases |pushes|
  {
    if retained == [] {
      assert seen + retained == seen;
    } else if pushes != [] {
      var all := seen + retained;
      assert all[..|all| - 1] == seen;
      if Subsequence(all, pushes[..|pushes| - 1]) {
        SubsequenceInit(seen, retained, pushes[..|pushes| - 1]);
      }
      SubsequenceSkip(seen, pushes[..|pushes| - 1], pushes[|pushes| - 1]);
      assert pushes == pushes[..|pushes| - 1] + [pushes[|pushes| - 1]];
    }
  }

  lemma IterNextKeepsInv<T(!new), E(!new)>(i: Iter<T, E>, pushes: seq<T>, out: seq<Effect<T, E>>)
    requires IterInv(i, pushes, out)
    ensures IterInv(IterNexted(i).0, pushes, out + IterNexted(i).1)
    ensures i.pending.Some? ==>
      pushes != [] && IterNexted(i).1 == [Resolve(i.consumers.issued, Yield(pushes[|pushes| - 1]))]
  {
    var (i', more) := IterNexted(i);
    if i.pending.Some? {
      SupplyKeepsOrder(i.consumers, i.pending.value, out);
      assert Delivered(out + more) + Retained(i') == Delivered(out) + Retained(i);
    } else {
      AwaitKeepsOrder(i.consumers, out);
      assert Delivered(out + more) + Retained(i') == Delivered(out) + Retained(i);
    }
  }

  lemma IterFinishKeepsInv<T(!new), E(!new)>(i: Iter<T, E>, error: Option<E>, pushes: seq<T>, out: seq<Effect<T, E>>)
    requires IterInv(i, pushes, out) && i.consumers.terminal.None?
    ensures IterInv(IterFinished(i, error).0, pushes, out + IterFinished(i, error).1)
    ensures IterFinished(i, error).0.consumers.terminal == Some(error)
  {
    var (i', more) := IterFinished(i, error);
    TerminateKeepsOrder(i.consumers, error, out);
    assert Delivered(out + more) + Retained(i') == Delivered(out) + Retained(i);
    if i.pending.Some? {
      assert more == [] && out + more == out;
    }
  }

  lemma IterReturnKeepsOrder<T(!new), E(!new)>(i: Iter<T, E>, out: seq<Effect<T, E>>)
    requires Orderly(i.consumers, out)
    ensures Orderly(IterReturned(i).0.consumers, out + IterReturned(i).1)
    ensures Delivered(out + IterReturned(i).1) == Delivered(out)
  {
    TerminateKeepsOrder(i.consumers, None, out);
  }

  // ---------------------------------------------------------------- the fan-out

  datatype Hook = OnActive | OnIdle

  /** An iterator together with what it has let out. `since` is the number of values that had
      been pushed when it was created. */
  datatype Entry<T, E> = Entry(iter: Iter<T, E>, since: nat, returned: bool, out: seq<Effect<T, E>>)

  /** A watchable. Subscription handles are numbered; `live` holds those not yet released,
      `pushed` the values accepted so far and `hooks` the hook calls made so far. */
  datatype Hub<T, E> = Hub(
    closed: bool,
    terminalError: Option<E>,
    subscribers: int,
    listeners: set<nat>,
    iterators: set<nat>,
    handles: nat,
    live: set<nat>,
    entries: map<nat, Entry<T, E>>,
    heard: map<nat, seq<T>>,
    pushed: seq<T>,
    hooks: seq<Hook>)

  datatype HubEvent<T, E> =
    | Listen
    | Unlisten(handle: nat)
    | Iterate
    | NextOf(handle: nat)
    | ReturnOf(handle: nat)
    | PushAll(value: T)
    | CloseAll(error: Option<E>)

  function NewHub<T, E>(): Hub<T, E>
  {
    Hub(false, None, 0, {}, {}, 0, {}, map[], map[], [], [])
  }

  function RetainedOne<T, E>(h: Hub<T, E>): Hub<T, E>
  {
    h.(subscribers := h.subscribers + 1, live := h.live + {h.handles}, handles := h.handles + 1,
       hooks := h.hooks + if h.subscribers + 1 == 1 then [OnActive] else [])
  }

  function ReleasedOne<T, E>(h: Hub<T, E>, handle: nat): Hub<T, E>
  {
    h.(subscribers := h.subscribers - 1, live := h.live - {handle},
       hooks := h.hooks + if h.subscribers - 1 == 0 then [OnIdle] else [])
  }

  function Update<T, E>(e: Entry<T, E>, next: (Iter<T, E>, seq<Effect<T, E>>)): Entry<T, E>
  {
    e.(iter := next.0, out := e.out + next.1)
  }

  function HubStep<T, E>(h: Hub<T, E>, event: HubEvent<T, E>): Hub<T, E>
  {
    match event
    case Listen =>
      if h.closed then h
      else RetainedOne(h.(listeners := h.listeners + {h.handles}, heard := h.heard[h.handles := []]))
    case Unlisten(handle) =>
      if handle !in h.live || handle in h.entries then h
      else ReleasedOne(h.(listeners := h.listeners - {handle}), handle)
    case Iterate =>
      var created: Entry<T, E> := Entry(Iter(None, NoConsumers()), |h.pushed|, false, []);
      if h.closed then
        h.(entries := h.entries[h.handles := Update(created, IterFinished(created.iter, h.terminalError))],
           handles := h.handles + 1)
      else
        RetainedOne(h.(iterators := h.iterators + {h.handles}, entries := h.entries[h.handles := created]))
    case NextOf(handle) =>
      if handle !in h.entries then h
      else h.(entries := h.entries[handle := Update(h.entries[handle], IterNexted(h.entries[handle].iter))])
    case ReturnOf(handle) =>
      if handle !in h.entries then h
      else
        var e := h.entries[handle];
        var h' := if handle in h.live then ReleasedOne(h.(iterators := h.iterators - {handle}), handle) else h;
        h'.(entries := h'.entries[handle := Update(e, IterReturned(e.iter)).(returned := true)])
    case PushAll(value) =>
      if h.closed then h
      else
        h.(pushed := h.pushed + [value],
           heard := map l | l in h.heard :: if l in h.listeners then h.heard[l] + [value] else h.heard[l],
           entries := map i | i in h.entries ::
             if i in h.iterators then Update(h.entries[i], IterPushed(h.entries[i].iter, value)) else h.entries[i])
    case CloseAll(error) =>
      if h.closed then h
      else
        h.(closed := true, terminalError := error, listeners := {}, iterators := {},
           entries := map i | i in h.entries ::
             if i in h.iterators then Update(h.entries[i], IterFinished(h.entries[i].iter, error)) else h.entries[i])
  }

  function HubRun<T, E>(events: seq<HubEvent<T, E>>): Hub<T, E>
  {
    if events == [] then NewHub() else HubStep(HubRun(events[..|events| - 1]), events[|events| - 1])
  }

  /** Who is subscribed: the count is the number of unreleased handles; while the watchable is
      open these are exactly its listeners and iterators. */
  ghost predicate Subscriptions<T, E>(h: Hub<T, E>)
  {
    && h.subscribers == |h.live|
    && (forall x :: x in h.live ==> x < h.handles)
    && (forall x :: x in h.entries ==> x < h.handles)
    && (forall x :: x in h.heard ==> x < h.handles && x !in h.entries)
    && (h.closed ==> h.listeners == {} && h.iterators == {})
    && (forall x :: x in h.listeners ==> x in h.live && x in h.heard)
    && (forall x :: x in h.iterators ==> x in h.live && x in h.entries)
    && (!h.closed ==> forall x :: x in h.live ==> x in h.listeners || x in h.iterators)
    && (forall x :: x in h.entries ==> (x in h.iterators <==> !h.closed && !h.entries[x].returned))
    && (forall x :: x in h.live ==> x in h.entries || x in h.heard)
  }

  /** `onActive` and `onIdle` strictly alternate, starting with `onActive`, and the last call
      agrees with whether anyone is subscribed. */
  ghost predicate HooksAlternate<T, E>(h: Hub<T, E>)
  {
    && (forall i :: 0 <= i < |h.hooks| ==> h.hooks[i] == if i % 2 == 0 then OnActive else OnIdle)
    && (|h.hooks| % 2 == 1 <==> h.subscribers > 0)
  }

  ghost predicate EntryInv<T(!new), E(!new)>(h: Hub<T, E>, e: Entry<T, E>)
  {
    && e.since <= |h.pushed|
    && Orderly(e.iter.consumers, e.out)
    && Subsequence(Delivered(e.out), h.pushed[e.since..])
    && (if e.returned then e.iter.pending == None
        else
          IterInv(e.iter, h.pushed[e.since..], e.out) &&
          e.iter.consumers.terminal == if h.closed then Some(h.terminalError) else None)
  }

  ghost predicate Entries<T(!new), E(!new)>(h: Hub<T, E>)
  {
    forall x :: x in h.entries ==> EntryInv(h, h.entries[x])
  }

  lemma ListenKeepsSubscriptions<T, E>(h: Hub<T, E>)
    requires Subscriptions(h)
    ensures Subscriptions(HubStep(h, Listen))
  {
    assert h.handles !in h.live && h.handles !in h.entries;
  }

  lemma IterateKeepsSubscriptions<T, E>(h: Hub<T, E>)
    requires Subscriptions(h)
    ensures Subscriptions(HubStep(h, Iterate))
  {
    NextHandleIsFresh(h);
    if h.closed {
      LateIteratorKeepsSubscriptions(h);
    } else {
      NewIteratorKeepsSubscriptions(h);
    }
  }

  lemma NextHandleIsFresh<T, E>(h: Hub<T, E>)
    requires Subscriptions(h)
    ensures h.handles !in h.live && h.handles !in h.entries && h.handles !in h.heard
  {
  }

  lemma LateIteratorKeepsSubscriptions<T, E>(h: Hub<T, E>)
    requires Subscriptions(h) && h.closed
    ensures Subscriptions(HubStep(h, Iterate))
  {
  }

  lemma NewIteratorKeepsSubscriptions<T, E>(h: Hub<T, E>)
    requires Subscriptions(h) && !h.closed && h.handles !in h.live && h.handles !in h.heard
    ensures Subscriptions(HubStep(h, Iterate))
  {
  }

  lemma UnlistenKeepsSubscriptions<T, E>(h: Hub<T, E>, handle: nat)
    requires Subscriptions(h)
    ensures Subscriptions(HubStep(h, Unlisten(handle)))
  {
  }

  lemma ReturnKeepsSubscriptions<T, E>(h: Hub<T, E>, handle: nat)
    requires Subscriptions(h)
    ensures Subscriptions(HubStep(h, ReturnOf(handle)))
  {
  }

  lemma OthersKeepSubscriptions<T, E>(h: Hub<T, E>, event: HubEvent<T, E>)
    requires Subscriptions(h)
    requires event.NextOf? || event.PushAll? || event.CloseAll?
    ensures Subscriptions(HubStep(h, event))
  {
  }

  lemma StepKeepsSubscriptions<T, E>(h: Hub<T, E>, event: HubEvent<T, E>)
    requires Subscriptions(h)
    ensures Subscriptions(HubStep(h, event))
  {
    match event
    case Listen => ListenKeepsSubscriptions(h);
    case Iterate => IterateKeepsSubscriptions(h);
    case Unlisten(handle) => UnlistenKeepsSubscriptions(h, handle);
    case ReturnOf(handle) => ReturnKeepsSubscriptions(h, handle);
    case _ => OthersKeepSubscriptions(h, event);
  }

  lemma RetainKeepsHooks<T, E>(h: Hub<T, E>)
    requires HooksAlternate(h) && h.subscribers >= 0
    ensures HooksAlternate(RetainedOne(h))
  {
  }

  lemma ReleaseKeepsHooks<T, E>(h: Hub<T, E>, handle: nat)
    requires HooksAlternate(h) && h.subscribers > 0
    ensures HooksAlternate(ReleasedOne(h, handle))
  {
  }

  lemma StepKeepsHooks<T, E>(h: Hub<T, E>, event: HubEvent<T, E>)
    requires Subscriptions(h) && HooksAlternate(h)
    ensures HooksAlternate(HubStep(h, event))
  {
    match event {
      case Listen =>
        RetainKeepsHooks(h.(listeners := h.listeners + {h.handles}, heard := h.heard[h.handles := []]));
      case Iterate =>
        if !h.closed {
          RetainKeepsHooks(h.(iterators := h.iterators + {h.handles},
            entries := h.entries[h.handles := Entry(Iter(None, NoConsumers()), |h.pushed|, false, [])]));
        }
      case Unlisten(handle) =>
        if handle in h.live {
          ReleaseKeepsHooks(h.(listeners := h.listeners - {handle}), handle);
        }
      case ReturnOf(handle) =>
        if handle in h.live {
          ReleaseKeepsHooks(h.(iterators := h.iterators - {handle}), handle);
        }
      case _ =>
    }
  }

  // ---------------------------------------------------------------- every iterator, in every run

  lemma PushKeepsEntry<T(!new), E(!new)>(h: Hub<T, E>, handle: nat, value: T)
    requires Subscriptions(h) && !h.closed && handle in h.entries && EntryInv(h, h.entries[handle])
    ensures EntryInv(HubStep(h, PushAll(value)), HubStep(h, PushAll(value)).entries[handle])
  {
    var e := h.entries[handle];
    var h' := HubStep(h, PushAll(value));
    assert h'.pushed[e.since..] == h.pushed[e.since..] + [value];
    if e.returned {
      SubsequenceSkip(Delivered(e.out), h.pushed[e.since..], value);
    } else {
      IterPushKeepsInv(e.iter, value, h.pushed[e.since..], e.out);
      IterDeliveries(h'.entries[handle].iter, h'.pushed[e.since..], h'.entries[handle].out);
    }
  }

  lemma IterDeliveries<T(!new), E(!new)>(i: Iter<T, E>, pushes: seq<T>, out: seq<Effect<T, E>>)
    requires IterInv(i, pushes, out)
    ensures Subsequence(Delivered(out), pushes)
  {
    SubsequenceInit(Delivered(out), Retained(i), pushes);
  }

  lemma CloseKeepsEntry<T(!new), E(!new)>(h: Hub<T, E>, handle: nat, error: Option<E>)
    requires Subscriptions(h) && !h.closed && handle in h.entries && EntryInv(h, h.entries[handle])
    ensures EntryInv(HubStep(h, CloseAll(error)), HubStep(h, CloseAll(error)).entries[handle])
  {
    var e := h.entries[handle];
    var h' := HubStep(h, CloseAll(error));
    if e.returned {
      assert h'.entries[handle] == e;
    } else {
      assert h'.entries[handle] == Update(e, IterFinished(e.iter, error));
      FinishKeepsEntry(h, e, error);
    }
  }

  lemma FinishKeepsEntry<T(!new), E(!new)>(h: Hub<T, E>, e: Entry<T, E>, error: Option<E>)
    requires EntryInv(h, e) && !e.returned && !h.closed
    ensures var e' := Update(e, IterFinished(e.iter, error));
      && IterInv(e'.iter, h.pushed[e.since..], e'.out)
      && Subsequence(Delivered(e'.out), h.pushed[e.since..])
      && e'.iter.consumers.terminal == Some(error)
  {
    var e' := Update(e, IterFinished(e.iter, error));
    IterFinishKeepsInv(e.iter, error, h.pushed[e.since..], e.out);
    IterDeliveries(e'.iter, h.pushed[e.since..], e'.out);
  }

  lemma NextKeepsEntry<T(!new), E(!new)>(h: Hub<T, E>, e: Entry<T, E>)
    requires EntryInv(h, e)
    ensures EntryInv(h, Update(e, IterNexted(e.iter)))
  {
    var e' := Update(e, IterNexted(e.iter));
    if e.returned {
      AwaitKeepsOrder(e.iter.consumers, e.out);
    } else {
      IterNextKeepsInv(e.iter, h.pushed[e.since..], e.out);
      IterDeliveries(e'.iter, h.pushed[e.since..], e'.out);
    }
  }

  lemma ReturnKeepsEntry<T(!new), E(!new)>(h: Hub<T, E>, e: Entry<T, E>)
    requires EntryInv(h, e)
    ensures EntryInv(h, Update(e, IterReturned(e.iter)).(returned := true))
  {
    IterReturnKeepsOrder(e.iter, e.out);
  }

  lemma NewEntry<T(!new), E(!new)>(h: Hub<T, E>)
    ensures var e: Entry<T, E> := Entry(Iter(None, NoConsumers()), |h.pushed|, false, []);
      EntryInv(h, if h.closed then Update(e, IterFinished(e.iter, h.terminalError)) else e)
  {
    var e: Entry<T, E> := Entry(Iter(None, NoConsumers()), |h.pushed|, false, []);
    assert IterInv(e.iter, [], e.out);
    if h.closed {
      IterFinishKeepsInv(e.iter, h.terminalError, [], e.out);
      IterDeliveries(IterFinished(e.iter, h.terminalError).0, [], e.out + IterFinished(e.iter, h.terminalError).1);
    }
  }

  /** An iterator's obligations depend on the watchable only through what was pushed and how
      it was closed. */
  lemma EntryFrame<T(!new), E(!new)>(h: Hub<T, E>, h': Hub<T, E>, e: Entry<T, E>)
    requires EntryInv(h, e)
    requires h'.pushed == h.pushed && h'.closed == h.closed && h'.terminalError == h.terminalError
    ensures EntryInv(h', e)
  {
  }

  lemma OwnStepKeepsEntry<T(!new), E(!new)>(h: Hub<T, E>, event: HubEvent<T, E>, x: nat)
    requires Entries(h) && x in HubStep(h, event).entries
    requires event.NextOf? || event.ReturnOf? || event.Iterate?
    ensures EntryInv(h, HubStep(h, event).entries[x])
  {
    match event
    case NextOf(handle) => if x == handle { NextKeepsEntry(h, h.entries[x]); }
    case ReturnOf(handle) => if x == handle { ReturnKeepsEntry(h, h.entries[x]); }
    case Iterate => if x == h.handles { NewEntry(h); }
  }

  lemma OwnStepsKeepEntries<T(!new), E(!new)>(h: Hub<T, E>, event: HubEvent<T, E>)
    requires Entries(h) && (event.NextOf? || event.ReturnOf? || event.Iterate?)
    ensures Entries(HubStep(h, event))
  {
    forall x | x in HubStep(h, event).entries
      ensures EntryInv(HubStep(h, event), HubStep(h, event).entries[x])
    {
      OwnStepKeepsEntry(h, event, x);
      EntryFrame(h, HubStep(h, event), HubStep(h, event).entries[x]);
    }
  }

  lemma ListenersKeepEntries<T(!new), E(!new)>(h: Hub<T, E>, event: HubEvent<T, E>)
    requires Entries(h) && (event.Listen? || event.Unlisten?)
    ensures Entries(HubStep(h, event))
  {
    forall x | x in h.entries
      ensures EntryInv(HubStep(h, event), h.entries[x])
    {
      EntryFrame(h, HubStep(h, event), h.entries[x]);
    }
  }

  lemma StepKeepsEntries<T(!new), E(!new)>(h: Hub<T, E>, event: HubEvent<T, E>)
    requires Subscriptions(h) && Entries(h)
    ensures Entries(HubStep(h, event))
  {
    match event
    case PushAll(value) =>
      if !h.closed {
        forall x | x in h.entries
          ensures EntryInv(HubStep(h, event), HubStep(h, event).entries[x])
        {
          PushKeepsEntry(h, x, value);
        }
      }
    case CloseAll(error) =>
      if !h.closed {
        forall x | x in h.entries
          ensures EntryInv(HubStep(h, event), HubStep(h, event).entries[x])
        {
          CloseKeepsEntry(h, x, error);
        }
      }
    case Listen => ListenersKeepEntries(h, event);
    case Unlisten(_) => ListenersKeepEntries(h, event);
    case _ => OwnStepsKeepEntries(h, event);
  }

  lemma {:induction false} HubRunKeepsInv<T(!new), E(!new)>(events: seq<HubEvent<T, E>>)
    ensures var h := HubRun(events);
      Subscriptions(h) && HooksAlternate(h) && Entries(h)
  {
    if events != [] {
      var init, last := events[..|events| - 1], events[|events| - 1];
      HubRunKeepsInv(init);
      StepKeepsSubscriptions(HubRun(init), last);
      StepKeepsHooks(HubRun(init), last);
      StepKeepsEntries(HubRun(init), last);
    }
  }

  /** The subscriber count is the number of unreleased subscription handles, and the two hooks
      strictly alternate, starting with `onActive`, in every run. */
  lemma HooksFollowSubscribers<T(!new), E(!new)>(events: seq<HubEvent<T, E>>)
    ensures var h := HubRun(events);
      && h.subscribers == |h.live|
      && (forall i :: 0 <= i < |h.hooks| ==> h.hooks[i] == if i % 2 == 0 then OnActive else OnIdle)
      && (h.live != {} <==> |h.hooks| % 2 == 1)
  {
    HubRunKeepsInv(events);
  }

  /** Conflation loses only what is out of date. For every iterator that was not returned early:
      it sees a subsequence of the values pushed since it was created; a `next()` answered at
      once yields the newest of them; and a consumer that has drained it has seen the newest. */
  lemma NewestValueIsNeverLost<T(!new), E(!new)>(events: seq<HubEvent<T, E>>, handle: nat)
    requires handle in HubRun(events).entries && !HubRun(events).entries[handle].returned
    ensures var h := HubRun(events);
      var e := h.entries[handle];
      && e.since <= |h.pushed|
      && (var pushes := h.pushed[e.since..];
          && Subsequence(Delivered(e.out), pushes)
          && (e.iter.pending.Some? ==> pushes != [] && e.iter.pending.value == pushes[|pushes| - 1])
          && (e.iter.pending.None? && pushes != [] ==>
                Delivered(e.out) != [] && Delivered(e.out)[|Delivered(e.out)| - 1] == pushes[|pushes| - 1]))
  {
    HubRunKeepsInv(events);
    var h := HubRun(events);
    var e := h.entries[handle];
    assert EntryInv(h, e);
    assert e.iter.pending.None? ==> Delivered(e.out) + Retained(e.iter) == Delivered(e.out);
    assert Subsequence(Delivered(e.out) + Retained(e.iter), h.pushed[e.since..]);
  }

  /** The terminal error is thrown once per iterator, not once overall: in a watchable closed
      with an error, every iterator that was not returned early answers its first call past the
      last value with the error and all later ones with `Done`. */
  lemma EveryIteratorThrowsOnce<T(!new), E(!new)>(events: seq<HubEvent<T, E>>, handle: nat)
    requires HubRun(events).closed
    requires handle in HubRun(events).entries && !HubRun(events).entries[handle].returned
    ensures var h := HubRun(events);
      var e := h.entries[handle];
      && e.iter.consumers.waiters == []
      && Calls(e.out) == Iota(e.iter.consumers.issued)
      && |Delivered(e.out)| <= |Outcomes(e.out)|
      && Outcomes(e.out) == Yields(Delivered(e.out)) +
                            Finale(Some(h.terminalError), |Outcomes(e.out)| - |Delivered(e.out)|)
  {
    HubRunKeepsInv(events);
    EntryAnswersAt(HubRun(events), handle);
  }

  lemma EntryAnswersAt<T(!new), E(!new)>(h: Hub<T, E>, handle: nat)
    requires Entries(h) && handle in h.entries && !h.entries[handle].returned && h.closed
    ensures var e := h.entries[handle];
      && e.iter.consumers.waiters == []
      && Calls(e.out) == Iota(e.iter.consumers.issued)
      && |Delivered(e.out)| <= |Outcomes(e.out)|
      && Outcomes(e.out) == Yields(Delivered(e.out)) +
                            Finale(Some(h.terminalError), |Outcomes(e.out)| - |Delivered(e.out)|)
  {
    EntryAnswers(h, h.entries[handle]);
  }

  lemma EntryAnswers<T(!new), E(!new)>(h: Hub<T, E>, e: Entry<T, E>)
    requires EntryInv(h, e) && !e.returned && h.closed
    ensures e.iter.consumers.waiters == [] && Calls(e.out) == Iota(e.iter.consumers.issued)
    ensures |Delivered(e.out)| <= |Outcomes(e.out)|
    ensures Outcomes(e.out) == Yields(Delivered(e.out)) +
                               Finale(Some(h.terminalError), |Outcomes(e.out)| - |Delivered(e.out)|)
  {
    assert Calls(e.out) + e.iter.consumers.waiters == Calls(e.out);
  }

  lemma HubRunSnoc<T, E>(events: seq<HubEvent<T, E>>, last: HubEvent<T, E>)
    ensures HubRun(events + [last]) == HubStep(HubRun(events), last)
  {
    assert (events + [last])[..|events + [last]| - 1] == events;
  }

  // ---------------------------------------------------------------- who throws

  ghost predicate Threw<T, E>(e: Entry<T, E>)
  {
    exists k :: 0 <= k < |Outcomes(e.out)| && Outcomes(e.out)[k].Throw?
  }

  /** Some `next()` of this iterator was settled, by the close or later, after its last value. */
  predicate AskedPastItsLast<T, E>(e: Entry<T, E>)
  {
    |Outcomes(e.out)| > |Delivered(e.out)|
  }

  /** `return()` was called on this iterator while the watchable was still open. */
  ghost predicate ReturnedEarly<T, E>(events: seq<HubEvent<T, E>>, handle: nat)
  {
    events != [] &&
    var init, last := events[..|events| - 1], events[|events| - 1];
    ReturnedEarly(init, handle) ||
      (last == ReturnOf(handle) && handle in HubRun(init).entries && !HubRun(init).closed)
  }

  /** How an iterator ends: gracefully when returned early, with the watchable otherwise. */
  ghost predicate EndsWith<T, E>(h: Hub<T, E>, e: Entry<T, E>, early: bool)
  {
    && e.iter.consumers.terminal ==
         (if early then Some(None) else if h.closed then Some(h.terminalError) else None)
    && (!h.closed ==> (e.returned <==> early))
  }

  lemma DeliveryKeepsEnd<T, E>(h: Hub<T, E>, event: HubEvent<T, E>, x: nat, early: bool)
    requires Subscriptions(h) && x in h.entries && EndsWith(h, h.entries[x], early)
    requires event.PushAll? || event.CloseAll?
    ensures EndsWith(HubStep(h, event), HubStep(h, event).entries[x], early)
  {
    assert x in h.iterators <==> !h.closed && !h.entries[x].returned;
  }

  lemma OwnStepKeepsEnd<T, E>(h: Hub<T, E>, event: HubEvent<T, E>, x: nat, early: bool)
    requires x in HubStep(h, event).entries && h.handles !in h.entries
    requires if x in h.entries then EndsWith(h, h.entries[x], early) else !early
    requires !event.PushAll? && !event.CloseAll?
    ensures EndsWith(HubStep(h, event), HubStep(h, event).entries[x],
                     early || (event == ReturnOf(x) && x in h.entries && !h.closed))
  {
  }

  lemma StepKeepsEnd<T, E>(h: Hub<T, E>, event: HubEvent<T, E>, x: nat, early: bool)
    requires Subscriptions(h) && x in HubStep(h, event).entries
    requires if x in h.entries then EndsWith(h, h.entries[x], early) else !early
    ensures EndsWith(HubStep(h, event), HubStep(h, event).entries[x],
                     early || (event == ReturnOf(x) && x in h.entries && !h.closed))
  {
    if event.PushAll? || event.CloseAll? {
      DeliveryKeepsEnd(h, event, x, early);
    } else {
      OwnStepKeepsEnd(h, event, x, early);
    }
  }

  lemma {:induction false} RunKeepsSubscriptions<T, E>(events: seq<HubEvent<T, E>>)
    ensures Subscriptions(HubRun(events))
  {
    if events != [] {
      RunKeepsSubscriptions(events[..|events| - 1]);
      StepKeepsSubscriptions(HubRun(events[..|events| - 1]), events[|events| - 1]);
    }
  }

  lemma StepKeepsEntry<T, E>(h: Hub<T, E>, event: HubEvent<T, E>, x: nat)
    requires x in h.entries
    ensures x in HubStep(h, event).entries
  {
  }

  lemma {:induction false} EarlyIsEntry<T, E>(events: seq<HubEvent<T, E>>, x: nat)
    requires ReturnedEarly(events, x)
    ensures x in HubRun(events).entries
  {
    var init := events[..|events| - 1];
    if ReturnedEarly(init, x) {
      EarlyIsEntry(init, x);
    }
    StepKeepsEntry(HubRun(init), events[|events| - 1], x);
  }

  lemma {:induction false} EndOfIterator<T(!new), E(!new)>(events: seq<HubEvent<T, E>>, x: nat)
    requires x in HubRun(events).entries
    ensures EndsWith(HubRun(events), HubRun(events).entries[x], ReturnedEarly(events, x))
  {
    if events != [] {
      var init, last := events[..|events| - 1], events[|events| - 1];
      RunKeepsSubscriptions(init);
      if x in HubRun(init).entries {
        EndOfIterator(init, x);
      } else if ReturnedEarly(init, x) {
        EarlyIsEntry(init, x);
      }
      StepKeepsEnd(HubRun(init), last, x, ReturnedEarly(init, x));
    }
  }

  lemma ThrewIff<T(!new), E(!new)>(e: Entry<T, E>)
    requires Orderly(e.iter.consumers, e.out)
    ensures Threw(e) <==>
      e.iter.consumers.terminal.Some? && e.iter.consumers.terminal.value.Some? && AskedPastItsLast(e)
  {
    var n := |Delivered(e.out)|;
    var all := Outcomes(e.out);
    if |all| > n {
      assert all[n] == First(e.iter.consumers.terminal);
    }
    assert forall k :: 0 <= k < |all| && k != n ==> !all[k].Throw?;
  }

  /** Which iterators throw, in a watchable closed with an error: exactly those asked past their
      last value that were not returned before the close. */
  lemma ThrowsIffAskedPastItsLast<T(!new), E(!new)>(events: seq<HubEvent<T, E>>, handle: nat)
    requires HubRun(events).closed && HubRun(events).terminalError.Some?
    requires handle in HubRun(events).entries
    ensures Threw(HubRun(events).entries[handle]) <==>
      AskedPastItsLast(HubRun(events).entries[handle]) && !ReturnedEarly(events, handle)
  {
    HubRunKeepsInv(events);
    EndOfIterator(events, handle);
    assert EntryInv(HubRun(events), HubRun(events).entries[handle]);
    ThrewIff(HubRun(events).entries[handle]);
  }

  ghost predicate Owed<T, E>(events: seq<HubEvent<T, E>>, x: nat)
  {
    x in HubRun(events).entries && AskedPastItsLast(HubRun(events).entries[x]) && !ReturnedEarly(events, x)
  }

  ghost predicate Thrower<T, E>(events: seq<HubEvent<T, E>>, x: nat)
  {
    x in HubRun(events).entries && Threw(HubRun(events).entries[x])
  }

  /** "Exactly one iterator rethrows" holds if and only if exactly one iterator was asked past its
      last value without having been returned before the close. */
  lemma ExactlyOneThrowsIffOneIsOwed<T(!new), E(!new)>(events: seq<HubEvent<T, E>>)
    requires HubRun(events).closed && HubRun(events).terminalError.Some?
    ensures (exists x: nat :: Thrower(events, x) && forall y: nat :: Thrower(events, y) ==> y == x) <==>
            (exists x: nat :: Owed(events, x) && forall y: nat :: Owed(events, y) ==> y == x)
  {
    forall x: nat ensures Thrower(events, x) <==> Owed(events, x) {
      if x in HubRun(events).entries {
        ThrowsIffAskedPastItsLast(events, x);
      }
    }
  }

  /** The witness: two iterators, one error, and both throw it. */
  lemma TwoIteratorsBothThrow<T(!new), E(!new)>(error: E)
    ensures exists events: seq<HubEvent<T, E>> ::
      var h := HubRun(events);
      && 0 in h.entries && h.entries[0].out == [Resolve(0, Throw(error))]
      && 1 in h.entries && h.entries[1].out == [Resolve(0, Throw(error))]
  {
    var none: seq<HubEvent<T, E>> := [];
    HubRunSnoc(none, Iterate);
    HubRunSnoc(none + [Iterate], Iterate);
    HubRunSnoc(none + [Iterate] + [Iterate], CloseAll(Some(error)));
    HubRunSnoc(none + [Iterate] + [Iterate] + [CloseAll(Some(error))], NextOf(0));
    HubRunSnoc(none + [Iterate] + [Iterate] + [CloseAll(Some(error))] + [NextOf(0)], NextOf(1));
    var closing := none + [Iterate] + [Iterate] + [CloseAll(Some(error))];
    assert HubRun(closing).entries[0].out == [] && HubRun(closing).entries[1].out == [];
    var h := HubRun(closing + [NextOf(0)] + [NextOf(1)]);
    assert h.entries[0].out == [] + [Resolve(0, Throw(error))];
    assert h.entries[1].out == [] + [Resolve(0, Throw(error))];
  }

  // ---------------------------------------------------------------- who hears what

  predicate EverClosed<T, E>(events: seq<HubEvent<T, E>>)
  {
    events != [] && (EverClosed(events[..|events| - 1]) || events[|events| - 1].CloseAll?)
  }

  /** The error of the first close. */
  function FirstError<T, E>(events: seq<HubEvent<T, E>>): Option<E>
  {
    if events == [] then None
    else
      var init, last := events[..|events| - 1], events[|events| - 1];
      if EverClosed(init) || !last.CloseAll? then FirstError(init) else last.error
  }

  /** The values pushed before the first close. */
  function Accepted<T, E>(events: seq<HubEvent<T, E>>): seq<T>
  {
    if events == [] then []
    else
      var init, last := events[..|events| - 1], events[|events| - 1];
      Accepted(init) + if last.PushAll? && !EverClosed(init) then [last.value] else []
  }

  /** How many subscriptions were handed out: a closed watchable gives listeners none. */
  function Handles<T, E>(events: seq<HubEvent<T, E>>): nat
  {
    if events == [] then 0
    else
      var init, last := events[..|events| - 1], events[|events| - 1];
      Handles(init) + if last.Iterate? || (last.Listen? && !EverClosed(init)) then 1 else 0
  }

  /** `x` is a listener that has neither left nor been cut off by the close. */
  predicate Listening<T, E>(events: seq<HubEvent<T, E>>, x: nat)
  {
    events != [] &&
    var init, last := events[..|events| - 1], events[|events| - 1];
    if last.Listen? && !EverClosed(init) && x == Handles(init) then true
    else Listening(init, x) && last != Unlisten(x) && !last.CloseAll?
  }

  /** What the listener `x` is due: the values pushed while it was listening, in order. */
  function Due<T, E>(events: seq<HubEvent<T, E>>, x: nat): seq<T>
  {
    if events == [] then []
    else
      var init, last := events[..|events| - 1], events[|events| - 1];
      Due(init, x) + if last.PushAll? && Listening(init, x) then [last.value] else []
  }

  ghost predicate ReadsAs<T, E>(h: Hub<T, E>, events: seq<HubEvent<T, E>>)
  {
    && (h.closed <==> EverClosed(events))
    && h.terminalError == FirstError(events)
    && h.pushed == Accepted(events)
    && h.handles == Handles(events)
  }

  lemma ReadSnoc<T, E>(events: seq<HubEvent<T, E>>, event: HubEvent<T, E>)
    ensures var all := events + [event];
      var open := !EverClosed(events);
      && (EverClosed(all) <==> !open || event.CloseAll?)
      && FirstError(all) == (if open && event.CloseAll? then event.error else FirstError(events))
      && Accepted(all) == Accepted(events) + (if open && event.PushAll? then [event.value] else [])
      && Handles(all) == Handles(events) + if event.Iterate? || (event.Listen? && open) then 1 else 0
  {
    assert (events + [event])[..|events + [event]| - 1] == events;
  }

  /** What a step changes of the watchable's own state. */
  lemma StepChanges<T, E>(h: Hub<T, E>, event: HubEvent<T, E>)
    ensures var h' := HubStep(h, event);
      && (h'.closed <==> h.closed || event.CloseAll?)
      && h'.terminalError == (if !h.closed && event.CloseAll? then event.error else h.terminalError)
      && h'.pushed == h.pushed + (if !h.closed && event.PushAll? then [event.value] else [])
      && h'.handles == h.handles + if event.Iterate? || (event.Listen? && !h.closed) then 1 else 0
  {
  }

  lemma StepReadsAs<T, E>(h: Hub<T, E>, events: seq<HubEvent<T, E>>, event: HubEvent<T, E>)
    requires ReadsAs(h, events)
    ensures ReadsAs(HubStep(h, event), events + [event])
  {
    ReadSnoc(events, event);
    StepChanges(h, event);
  }

  lemma {:induction false} HubReadsAs<T, E>(events: seq<HubEvent<T, E>>)
    ensures ReadsAs(HubRun(events), events)
  {
    if events != [] {
      var init, last := events[..|events| - 1], events[|events| - 1];
      HubReadsAs(init);
      StepReadsAs(HubRun(init), init, last);
      assert events == init + [last];
    }
  }

  ghost predicate Hears<T, E>(h: Hub<T, E>, x: nat, listening: bool, due: seq<T>)
  {
    && (x in h.listeners <==> listening)
    && due == if x in h.heard then h.heard[x] else []
  }

  lemma ComingAndGoingHears<T, E>(h: Hub<T, E>, event: HubEvent<T, E>, x: nat, listening: bool, due: seq<T>)
    requires Subscriptions(h) && Hears(h, x, listening, due) && !event.PushAll?
    ensures Hears(HubStep(h, event), x,
                  (event.Listen? && !h.closed && x == h.handles) ||
                  (listening && event != Unlisten(x) && !event.CloseAll?), due)
  {
  }

  lemma PushHears<T, E>(h: Hub<T, E>, value: T, x: nat, listening: bool, due: seq<T>)
    requires Subscriptions(h) && Hears(h, x, listening, due)
    ensures Hears(HubStep(h, PushAll(value)), x, listening, due + if listening then [value] else [])
  {
    if !h.closed {
      assert x in h.listeners ==> x in h.heard;
    }
  }

  lemma DueSnoc<T, E>(events: seq<HubEvent<T, E>>, event: HubEvent<T, E>, x: nat)
    ensures Listening(events + [event], x) <==>
      (event.Listen? && !EverClosed(events) && x == Handles(events)) ||
      (Listening(events, x) && event != Unlisten(x) && !event.CloseAll?)
    ensures Due(events + [event], x) ==
      Due(events, x) + if event.PushAll? && Listening(events, x) then [event.value] else []
  {
    assert (events + [event])[..|events + [event]| - 1] == events;
  }

  lemma {:induction false} RunHears<T, E>(events: seq<HubEvent<T, E>>, x: nat)
    ensures Hears(HubRun(events), x, Listening(events, x), Due(events, x))
  {
    if events != [] {
      var init, last := events[..|events| - 1], events[|events| - 1];
      RunHears(init, x);
      HubReadsAs(init);
      RunKeepsSubscriptions(init);
      assert events == init + [last];
      DueSnoc(init, last, x);
      if last.PushAll? {
        PushHears(HubRun(init), last.value, x, Listening(init, x), Due(init, x));
      } else {
        ComingAndGoingHears(HubRun(init), last, x, Listening(init, x), Due(init, x));
      }
    }
  }

  /** Over every run, what a listener has heard is exactly the values that were pushed after its
      `listen` and before it left or the watchable was closed, in order; the watchable itself is
      closed, and with which error, as the first close says. */
  lemma ListenersHearTheirDue<T, E>(events: seq<HubEvent<T, E>>, x: nat)
    ensures var h := HubRun(events);
      && (x in h.listeners <==> Listening(events, x))
      && Due(events, x) == (if x in h.heard then h.heard[x] else [])
      && h.pushed == Accepted(events) && (h.closed <==> EverClosed(events)) && h.terminalError == FirstError(events)
  {
    HubReadsAs(events);
    RunHears(events, x);
  }

  /** `x` is a subscription that has not been given up, by a listener or an iterator. */
  predicate Subscribed<T, E>(events: seq<HubEvent<T, E>>, x: nat)
  {
    events != [] &&
    var init, last := events[..|events| - 1], events[|events| - 1];
    if (last.Listen? || last.Iterate?) && !EverClosed(init) && x == Handles(init) then true
    else Subscribed(init, x) && !(if IsIterator(init, x) then last == ReturnOf(x) else last == Unlisten(x))
  }

  predicate IsIterator<T, E>(events: seq<HubEvent<T, E>>, x: nat)
  {
    events != [] &&
    var init, last := events[..|events| - 1], events[|events| - 1];
    (last.Iterate? && x == Handles(init)) || IsIterator(init, x)
  }

  lemma SubscribedSnoc<T, E>(events: seq<HubEvent<T, E>>, event: HubEvent<T, E>, x: nat)
    ensures Subscribed(events + [event], x) <==>
      ((event.Listen? || event.Iterate?) && !EverClosed(events) && x == Handles(events)) ||
      (Subscribed(events, x) && !(if IsIterator(events, x) then event == ReturnOf(x) else event == Unlisten(x)))
    ensures IsIterator(events + [event], x) <==> (event.Iterate? && x == Handles(events)) || IsIterator(events, x)
  {
    assert (events + [event])[..|events + [event]| - 1] == events;
  }

  lemma JoinSubscribes<T, E>(h: Hub<T, E>, event: HubEvent<T, E>, x: nat)
    requires event.Listen? || event.Iterate?
    ensures x in HubStep(h, event).live <==> (!h.closed && x == h.handles) || x in h.live
    ensures x in HubStep(h, event).entries <==> (event.Iterate? && x == h.handles) || x in h.entries
  {
  }

  lemma LeaveSubscribes<T, E>(h: Hub<T, E>, handle: nat, x: nat)
    requires forall y :: y in h.live ==> y in h.entries || y in h.heard
    ensures x in HubStep(h, Unlisten(handle)).live <==> x in h.live && !(x == handle && x !in h.entries)
    ensures x in HubStep(h, ReturnOf(handle)).live <==> x in h.live && !(x == handle && x in h.entries)
    ensures x in HubStep(h, Unlisten(handle)).entries <==> x in h.entries
    ensures x in HubStep(h, ReturnOf(handle)).entries <==> x in h.entries
  {
  }

  lemma OthersSubscribeNobody<T, E>(h: Hub<T, E>, event: HubEvent<T, E>, x: nat)
    requires event.NextOf? || event.PushAll? || event.CloseAll?
    ensures HubStep(h, event).live == h.live
    ensures x in HubStep(h, event).entries <==> x in h.entries
  {
  }

  /** Who joins and who leaves at a step. */
  lemma StepSubscribes<T, E>(h: Hub<T, E>, event: HubEvent<T, E>, x: nat)
    requires Subscriptions(h)
    ensures x in HubStep(h, event).live <==>
      ((event.Listen? || event.Iterate?) && !h.closed && x == h.handles) ||
      (x in h.live && !(if x in h.entries then event == ReturnOf(x) else event == Unlisten(x)))
    ensures x in HubStep(h, event).entries <==> (event.Iterate? && x == h.handles) || x in h.entries
  {
    match event {
      case Listen => JoinSubscribes(h, event, x);
      case Iterate => JoinSubscribes(h, event, x);
      case Unlisten(handle) => LeaveSubscribes(h, handle, x);
      case ReturnOf(handle) => LeaveSubscribes(h, handle, x);
      case _ => OthersSubscribeNobody(h, event, x);
    }
  }

  /** Who counts as a subscriber, for the two hooks: whoever joined while the watchable was open and
      has not left, even after the close. */
  lemma {:induction false} SubscribersAreThoseWhoStayed<T, E>(events: seq<HubEvent<T, E>>, x: nat)
    ensures x in HubRun(events).live <==> Subscribed(events, x)
    ensures x in HubRun(events).entries <==> IsIterator(events, x)
  {
    if events != [] {
      var init, last := events[..|events| - 1], events[|events| - 1];
      SubscribersAreThoseWhoStayed(init, x);
      HubReadsAs(init);
      RunKeepsSubscriptions(init);
      assert events == init + [last];
      SubscribedSnoc(init, last, x);
      StepSubscribes(HubRun(init), last, x);
    }
  }

  /** How often `next()` was called on iterator `x`, and whether it was given up. */
  function Asked<T, E>(events: seq<HubEvent<T, E>>, x: nat): nat
  {
    if events == [] then 0
    else
      var init := events[..|events| - 1];
      Asked(init, x) + if events[|events| - 1] == NextOf(x) && IsIterator(init, x) then 1 else 0
  }

  predicate GivenUp<T, E>(events: seq<HubEvent<T, E>>, x: nat)
  {
    events != [] &&
    var init := events[..|events| - 1];
    GivenUp(init, x) || (events[|events| - 1] == ReturnOf(x) && IsIterator(init, x))
  }

  ghost predicate AsksOn<T, E>(e: Entry<T, E>, e': Entry<T, E>, asks: bool, leaves: bool)
  {
    && e'.iter.consumers.issued == e.iter.consumers.issued + (if asks then 1 else 0)
    && e'.returned == (e.returned || leaves) && e'.since == e.since
  }

  lemma StepAsks<T, E>(h: Hub<T, E>, event: HubEvent<T, E>, x: nat)
    requires x in h.entries && x != h.handles
    ensures x in HubStep(h, event).entries
    ensures AsksOn(h.entries[x], HubStep(h, event).entries[x], event == NextOf(x), event == ReturnOf(x))
  {
    if event.PushAll? || event.CloseAll? {
      DeliveryAsksNothing(h, event, x);
    }
  }

  lemma DeliveryAsksNothing<T, E>(h: Hub<T, E>, event: HubEvent<T, E>, x: nat)
    requires x in h.entries && (event.PushAll? || event.CloseAll?)
    ensures AsksOn(h.entries[x], HubStep(h, event).entries[x], false, false)
  {
  }

  lemma NewIteratorAsks<T, E>(h: Hub<T, E>, event: HubEvent<T, E>, x: nat)
    requires Subscriptions(h) && x !in h.entries
    ensures x in HubStep(h, event).entries <==> event.Iterate? && x == h.handles
    ensures x in HubStep(h, event).entries ==>
      var e := HubStep(h, event).entries[x];
      e.iter.consumers.issued == 0 && !e.returned && e.since == |h.pushed|
  {
  }

  /** Every `next()` of every iterator counts: its calls, those settled and then those parked, are as
      many as were made, and it sees values pushed from its creation on. */
  lemma {:induction false} EveryNextIsACall<T, E>(events: seq<HubEvent<T, E>>, x: nat)
    ensures x in HubRun(events).entries <==> IsIterator(events, x)
    ensures x in HubRun(events).entries ==>
      var e := HubRun(events).entries[x];
      e.iter.consumers.issued == Asked(events, x) && (e.returned <==> GivenUp(events, x))
    ensures !IsIterator(events, x) ==> Asked(events, x) == 0 && !GivenUp(events, x)
  {
    if events != [] {
      var init, last := events[..|events| - 1], events[|events| - 1];
      EveryNextIsACall(init, x);
      HubReadsAs(init);
      RunKeepsSubscriptions(init);
      if x in HubRun(init).entries {
        StepAsks(HubRun(init), last, x);
      } else {
        NewIteratorAsks(HubRun(init), last, x);
      }
    }
  }

  // ---------------------------------------------------------------- the class

  class Watchable<T, E> {
    var closed: bool
    var terminalError: Option<E>
    var subscribers: int
    var listeners: set<nat>
    var iterators: set<nat>
    var handles: nat
    var live: set<nat>
    var entries: map<nat, Entry<T, E>>
    var heard: map<nat, seq<T>>
    var pushed: seq<T>
    var hooks: seq<Hook>

    constructor ()
      ensures State() == NewHub()
    {
      closed, terminalError, subscribers := false, None, 0;
      listeners, iterators, handles, live := {}, {}, 0, {};
      entries, heard, pushed, hooks := map[], map[], [], [];
    }

    function State(): Hub<T, E>
      reads this
    {
      Hub(closed, terminalError, subscribers, listeners, iterators, handles, live, entries, heard, pushed, hooks)
    }

    method Listen() returns (handle: nat)
      modifies this
      ensures State() == HubStep(old(State()), HubEvent.Listen) && handle == old(handles)
    {
      handle := handles;
      if closed {
        return;
      }
      listeners := listeners + {handle};
      heard := heard[handle := []];
      Retain();
    }

    method Unsubscribe(handle: nat)
      modifies this
      ensures State() == HubStep(old(State()), Unlisten(handle))
    {
      if handle !in live || handle in entries {
        return;
      }
      listeners := listeners - {handle};
      Release(handle);
    }

    method CreateIterator() returns (handle: nat)
      modifies this
      ensures State() == HubStep(old(State()), Iterate) && handle == old(handles)
    {
      handle := handles;
      var iter: Iter<T, E> := Iter(None, NoConsumers());
      if closed {
        entries := entries[handle := Update(Entry(iter, |pushed|, false, []), IterFinished(iter, terminalError))];
        handles := handles + 1;
      } else {
        iterators := iterators + {handle};
        entries := entries[handle := Entry(iter, |pushed|, false, [])];
        Retain();
      }
    }

    /** `return()` of an iterator: detach, drop the retained value, end gracefully. */
    method Detach(handle: nat)
      requires handle in entries
      modifies this
      ensures State() == HubStep(old(State()), ReturnOf(handle))
    {
      if handle in live {
        iterators := iterators - {handle};
        Release(handle);
      }
      var e := entries[handle];
      entries := entries[handle := Update(e, IterReturned(e.iter)).(returned := true)];
    }

    method Push(value: T)
      requires listeners <= heard.Keys && iterators <= entries.Keys
      modifies this
      ensures State() == HubStep(old(State()), PushAll(value))
    {
      if closed {
        return;
      }
      pushed := pushed + [value];
      CallListeners(value);
      FeedIterators(value);
    }

    method CallListeners(value: T)
      requires listeners <= heard.Keys
      modifies this`heard
      ensures heard == map l | l in old(heard) ::
                if l in listeners then old(heard)[l] + [value] else old(heard)[l]
    {
      var todo := listeners;
      while todo != {}
        invariant todo <= listeners && heard.Keys == old(heard).Keys
        invariant forall l :: l in heard ==>
          heard[l] == if l in listeners && l !in todo then old(heard)[l] + [value] else old(heard)[l]
        decreases todo
      {
        var l :| l in todo;
        heard := heard[l := heard[l] + [value]];
        todo := todo - {l};
      }
    }

    method FeedIterators(value: T)
      requires iterators <= entries.Keys
      modifies this`entries
      ensures entries == map i | i in old(entries) ::
                if i in iterators then Update(old(entries)[i], IterPushed(old(entries)[i].iter, value))
                else old(entries)[i]
    {
      var todo := iterators;
      while todo != {}
        invariant todo <= iterators && entries.Keys == old(entries).Keys
        invariant forall i :: i in entries ==>
          entries[i] == if i in iterators && i !in todo
                        then Update(old(entries)[i], IterPushed(old(entries)[i].iter, value))
                        else old(entries)[i]
        decreases todo
      {
        var i :| i in todo;
        entries := entries[i := Update(entries[i], IterPushed(entries[i].iter, value))];
        todo := todo - {i};
      }
    }

    method Close(error: Option<E>)
      requires iterators <= entries.Keys
      modifies this
      ensures State() == HubStep(old(State()), CloseAll(error))
    {
      if closed {
        return;
      }
      closed, terminalError := true, error;
      listeners := {};
      var attached := iterators;
      iterators := {};
      FinishIterators(attached, error);
    }

    method FinishIterators(attached: set<nat>, error: Option<E>)
      requires attached <= entries.Keys
      modifies this`entries
      ensures entries == map i | i in old(entries) ::
                if i in attached then Update(old(entries)[i], IterFinished(old(entries)[i].iter, error))
                else old(entries)[i]
    {
      var todo := attached;
      while todo != {}
        invariant todo <= attached && entries.Keys == old(entries).Keys
        invariant forall i :: i in entries ==>
          entries[i] == if i in attached && i !in todo
                        then Update(old(entries)[i], IterFinished(old(entries)[i].iter, error))
                        else old(entries)[i]
        decreases todo
      {
        var i :| i in todo;
        entries := entries[i := Update(entries[i], IterFinished(entries[i].iter, error))];
        todo := todo - {i};
      }
    }

    method Retain()
      modifies this
      ensures State() == RetainedOne(old(State()))
    {
      subscribers := subscribers + 1;
      live := live + {handles};
      handles := handles + 1;
      if subscribers == 1 {
        hooks := hooks + [OnActive];
      }
    }

    method Release(handle: nat)
      modifies this
      ensures State() == ReleasedOne(old(State()), handle)
    {
      subscribers := subscribers - 1;
      live := live - {handle};
      if subscribers == 0 {
        hooks := hooks + [OnIdle];
      }
    }
  }
}
