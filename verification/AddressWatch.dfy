/** The endpoint's lazily started native address watch (`src/endpoint.ts`), driven by the hooks
    of its watchable. */
module AddressWatch {
  import opened Base
  import opened Errors
  import AsyncKernel
  import opened Watchables

  datatype NativeCall = Started(watch: nat) | Stopped(watch: nat)

  /** `running` is `addressWatchId`; native watch ids are handed out in order. */
  datatype Watch<T> = Watch(
    hub: Hub<T, IrohError>,
    created: bool,
    endpointOpen: bool,
    running: Option<nat>,
    log: seq<NativeCall>)

  datatype WatchEvent<T> =
    | Consumer(event: HubEvent<T, IrohError>, startSucceeds: bool)
    | NativeChange(value: T)
    | CloseCalled    // close(): the native side invalidates the handle
    | CloseSettled   // the continuation of the native close

  function NewWatch<T>(): Watch<T>
  {
    Watch(NewHub(), false, true, None, [])
  }

  const COULD_NOT_START := IrohError(1001, "address watch could not start")

  function StartNative<T>(w: Watch<T>, succeeds: bool): Watch<T>
  {
    if w.running.Some? then w
    else if succeeds && w.endpointOpen then
      w.(running := Some(|w.log| / 2), log := w.log + [Started(|w.log| / 2)])
    else
      w.(hub := HubStep(w.hub, CloseAll(Some(COULD_NOT_START))))
  }

  function StopNative<T>(w: Watch<T>): Watch<T>
  {
    if w.running.None? then w
    else w.(running := None, log := w.log + [Stopped(w.running.value)])
  }

  /** A consumer's call turned the watchable into `hub`; a hook it fired starts or stops the watch. */
  function Reacted<T>(w: Watch<T>, hub: Hub<T, IrohError>, succeeds: bool): Watch<T>
  {
    var w' := w.(created := true, hub := hub);
    if |hub.hooks| == |w.hub.hooks| || hub.hooks == [] then w'
    else if hub.hooks[|hub.hooks| - 1] == OnActive then StartNative(w', succeeds)
    else StopNative(w')
  }

  function WatchStep<T>(w: Watch<T>, event: WatchEvent<T>): Watch<T>
  {
    match event
    case Consumer(e, succeeds) =>
      if e.PushAll? || e.CloseAll? then w else Reacted(w, HubStep(w.hub, e), succeeds)
    case NativeChange(value) =>
      if w.created then w.(hub := HubStep(w.hub, PushAll(value))) else w
    case CloseCalled => w.(endpointOpen := false)
    case CloseSettled =>
      var w' := StopNative(w.(endpointOpen := false));
      if w'.created then w'.(hub := HubStep(w'.hub, CloseAll(None))) else w'
  }

  function WatchRun<T>(events: seq<WatchEvent<T>>): Watch<T>
  {
    if events == [] then NewWatch()
    else WatchStep(WatchRun(events[..|events| - 1]), events[|events| - 1])
  }

  /** The native calls made so far: start 0, stop 0, start 1, stop 1 and so on, the last one
      being the running watch when there is one. */
  ghost predicate CallsMatch(running: Option<nat>, log: seq<NativeCall>)
  {
    && (forall i :: 0 <= i < |log| ==> log[i] == if i % 2 == 0 then Started(i / 2) else Stopped(i / 2))
    && (running.Some? <==> |log| % 2 == 1)
    && (running.Some? ==> running.value == |log| / 2)
  }

  ghost predicate HubOk<T>(h: Hub<T, IrohError>)
  {
    Subscriptions(h) && HooksAlternate(h)
  }

  ghost predicate WatchInv<T>(w: Watch<T>)
  {
    && HubOk(w.hub)
    && CallsMatch(w.running, w.log)
    && (w.running.Some? <==> !w.hub.closed && w.hub.subscribers > 0)
    && (!w.created ==> w.hub == NewHub())
  }

  /** A step calls at most one hook: the active one exactly when the first subscriber arrives, the
      idle one exactly when the last one leaves. */
  ghost predicate HooksMark<T>(h: Hub<T, IrohError>, h': Hub<T, IrohError>)
  {
    && h.hooks <= h'.hooks && |h'.hooks| <= |h.hooks| + 1
    && (|h'.hooks| > |h.hooks| ==>
          (h'.hooks[|h.hooks|] == OnActive <==> h.subscribers == 0 && h'.subscribers == 1) &&
          (h'.hooks[|h.hooks|] == OnIdle <==> h.subscribers == 1 && h'.subscribers == 0))
    && (|h'.hooks| == |h.hooks| ==> (h.subscribers > 0 <==> h'.subscribers > 0))
    && (h'.subscribers > h.subscribers ==> !h.closed)
  }

  lemma RetainMarks<T>(h: Hub<T, IrohError>)
    requires h.subscribers >= 0 && !h.closed
    ensures HooksMark(h, RetainedOne(h))
  {
  }

  lemma ReleaseMarks<T>(h: Hub<T, IrohError>, handle: nat)
    requires h.subscribers > 0
    ensures HooksMark(h, ReleasedOne(h, handle))
  {
  }

  lemma JoiningMarks<T>(h: Hub<T, IrohError>, e: HubEvent<T, IrohError>)
    requires Subscriptions(h) && (e.Listen? || e.Iterate?)
    ensures HooksMark(h, HubStep(h, e)) && HubStep(h, e).closed == h.closed
  {
    if !h.closed {
      var h' := if e.Listen? then h.(listeners := h.listeners + {h.handles}, heard := h.heard[h.handles := []])
                else h.(iterators := h.iterators + {h.handles},
                        entries := h.entries[h.handles := Entry(Iter(None, AsyncKernel.NoConsumers()), |h.pushed|, false, [])]);
      RetainMarks(h');
      assert HubStep(h, e) == RetainedOne(h');
    }
  }

  lemma LeavingMarks<T>(h: Hub<T, IrohError>, handle: nat)
    requires Subscriptions(h)
    ensures HooksMark(h, HubStep(h, Unlisten(handle))) && HubStep(h, Unlisten(handle)).closed == h.closed
    ensures HooksMark(h, HubStep(h, ReturnOf(handle))) && HubStep(h, ReturnOf(handle)).closed == h.closed
  {
    if handle in h.live {
      ReleaseMarks(h.(listeners := h.listeners - {handle}), handle);
      ReleaseMarks(h.(iterators := h.iterators - {handle}), handle);
    }
  }

  lemma HookMeaning<T>(h: Hub<T, IrohError>, e: HubEvent<T, IrohError>)
    requires Subscriptions(h)
    ensures HooksMark(h, HubStep(h, e)) && (!e.CloseAll? ==> HubStep(h, e).closed == h.closed)
  {
    match e {
      case Listen => JoiningMarks(h, e);
      case Iterate => JoiningMarks(h, e);
      case Unlisten(handle) => LeavingMarks(h, handle);
      case ReturnOf(handle) => LeavingMarks(h, handle);
      case _ =>
    }
  }

  lemma HubStepOk<T>(h: Hub<T, IrohError>, e: HubEvent<T, IrohError>)
    requires HubOk(h)
    ensures HubOk(HubStep(h, e))
  {
    StepKeepsSubscriptions(h, e);
    StepKeepsHooks(h, e);
  }

  lemma StartKeepsWatch<T>(w: Watch<T>, succeeds: bool)
    requires HubOk(w.hub) && CallsMatch(w.running, w.log) && w.created
    requires w.running == None && !w.hub.closed && w.hub.subscribers > 0
    ensures WatchInv(StartNative(w, succeeds))
  {
    HubStepOk(w.hub, CloseAll(Some(COULD_NOT_START)));
  }

  lemma StopKeepsCalls<T>(w: Watch<T>)
    requires CallsMatch(w.running, w.log)
    ensures var w' := StopNative(w);
      CallsMatch(w'.running, w'.log) && w'.running == None && w'.hub == w.hub && w'.created == w.created
  {
  }

  /** How the hooks that a consumer's call has fired stand to the native watch. */
  ghost predicate HooksTell<T>(w: Watch<T>, hub: Hub<T, IrohError>)
  {
    && hub.closed == w.hub.closed
    && (if |hub.hooks| == |w.hub.hooks| then
          (w.running.Some? <==> !hub.closed && hub.subscribers > 0) &&
          (w.hub.subscribers == 0 ==> hub.subscribers == 0)
        else
          hub.hooks != [] &&
          if hub.hooks[|hub.hooks| - 1] == OnActive then
            w.running == None && !hub.closed && hub.subscribers > 0 && w.hub.subscribers == 0
          else
            hub.subscribers == 0 && w.hub.subscribers == 1)
  }

  lemma HooksCalled<T>(w: Watch<T>, hub: Hub<T, IrohError>)
    requires WatchInv(w) && HooksMark(w.hub, hub) && hub.closed == w.hub.closed && HubOk(hub)
    ensures HooksTell(w, hub)
  {
  }

  lemma ReactingKeepsWatch<T>(w: Watch<T>, hub: Hub<T, IrohError>, succeeds: bool)
    requires WatchInv(w) && HooksTell(w, hub) && HubOk(hub)
    ensures WatchInv(Reacted(w, hub, succeeds))
  {
    var w' := w.(created := true, hub := hub);
    if |hub.hooks| != |w.hub.hooks| {
      if hub.hooks[|hub.hooks| - 1] == OnActive {
        StartKeepsWatch(w', succeeds);
      } else {
        StopKeepsCalls(w');
      }
    }
  }

  lemma ConsumerKeepsWatch<T>(w: Watch<T>, e: HubEvent<T, IrohError>, succeeds: bool)
    requires WatchInv(w)
    ensures WatchInv(WatchStep(w, Consumer(e, succeeds)))
  {
    if !e.PushAll? && !e.CloseAll? {
      HookMeaning(w.hub, e);
      HubStepOk(w.hub, e);
      HooksCalled(w, HubStep(w.hub, e));
      ReactingKeepsWatch(w, HubStep(w.hub, e), succeeds);
    }
  }

  lemma StepKeepsWatch<T>(w: Watch<T>, event: WatchEvent<T>)
    requires WatchInv(w)
    ensures WatchInv(WatchStep(w, event))
  {
    match event
    case Consumer(e, succeeds) => ConsumerKeepsWatch(w, e, succeeds);
    case NativeChange(value) => HubStepOk(w.hub, PushAll(value));
    case CloseCalled =>
    case CloseSettled =>
      StopKeepsCalls(w);
      HubStepOk(w.hub, CloseAll(None));
  }

  lemma {:induction false} WatchRunKeepsInv<T>(events: seq<WatchEvent<T>>)
    ensures WatchInv(WatchRun(events))
  {
    if events != [] {
      WatchRunKeepsInv(events[..|events| - 1]);
      StepKeepsWatch(WatchRun(events[..|events| - 1]), events[|events| - 1]);
    } else {
      assert HubOk(NewHub<T, IrohError>());
    }
  }

  /** At most one native watch runs at a time, each is stopped at most once, and one runs exactly
      while an open watchable has a subscriber: the native calls are start 0, stop 0, start 1,
      stop 1 and so on, the last one unmatched exactly in that case. */
  lemma OneWatchWhileObserved<T>(events: seq<WatchEvent<T>>)
    ensures var w := WatchRun(events);
      && (forall i :: 0 <= i < |w.log| ==>
            w.log[i] == if i % 2 == 0 then Started(i / 2) else Stopped(i / 2))
      && (|w.log| % 2 == 1 <==> !w.hub.closed && w.hub.live != {})
      && (w.running.Some? <==> |w.log| % 2 == 1)
  {
    WatchRunKeepsInv(events);
  }

  /** After the close has settled no step can start a watch: the native handle is gone. */
  lemma NoStartAfterClose<T>(w: Watch<T>, event: WatchEvent<T>)
    requires WatchInv(w) && !w.endpointOpen && w.running == None
    ensures WatchStep(w, event).running == None && !WatchStep(w, event).endpointOpen
  {
  }

  predicate HasClosed<T>(events: seq<WatchEvent<T>>)
  {
    events != [] && (HasClosed(events[..|events| - 1]) || events[|events| - 1].CloseSettled?)
  }

  /** Once the endpoint's close has settled, every watch ever started has been stopped, and none
      is started again whatever the host does. */
  lemma {:induction false} CloseStopsTheWatch<T>(events: seq<WatchEvent<T>>)
    requires HasClosed(events)
    ensures var w := WatchRun(events);
      w.running == None && !w.endpointOpen && |w.log| % 2 == 0
  {
    var init, last := events[..|events| - 1], events[|events| - 1];
    WatchRunKeepsInv(events);
    WatchRunKeepsInv(init);
    if HasClosed(init) {
      CloseStopsTheWatch(init);
      NoStartAfterClose(WatchRun(init), last);
    }
  }

  // ---------------------------------------------------------------- what observers hear

  predicate OfConsumer<T>(event: WatchEvent<T>)
  {
    event.Consumer? && !event.event.PushAll? && !event.event.CloseAll?
  }

  /** The watchable exists once somebody has used it, and the native handle until the close. */
  predicate EverUsed<T>(events: seq<WatchEvent<T>>)
  {
    events != [] && (EverUsed(events[..|events| - 1]) || OfConsumer(events[|events| - 1]))
  }

  predicate HandleGone<T>(events: seq<WatchEvent<T>>)
  {
    events != [] &&
    (HandleGone(events[..|events| - 1]) || events[|events| - 1].CloseCalled? || events[|events| - 1].CloseSettled?)
  }

  /** What one event does to the watchable: a consumer's own call, closed at once if it is the first
      subscriber and the native watch cannot start; the native change; the endpoint's close. */
  function Use<T>(hub: Hub<T, IrohError>, used: bool, gone: bool, event: WatchEvent<T>): seq<HubEvent<T, IrohError>>
  {
    match event
    case Consumer(e, succeeds) =>
      if e.PushAll? || e.CloseAll? then []
      else if hub.subscribers == 0 && HubStep(hub, e).subscribers > 0 && (gone || !succeeds) then
        [e, CloseAll(Some(COULD_NOT_START))]
      else [e]
    case NativeChange(value) => if used then [PushAll(value)] else []
    case CloseCalled => []
    case CloseSettled => if used then [CloseAll(None)] else []
  }

  function Uses<T>(events: seq<WatchEvent<T>>): seq<HubEvent<T, IrohError>>
  {
    if events == [] then []
    else
      var init := events[..|events| - 1];
      Uses(init) + Use(HubRun(Uses(init)), EverUsed(init), HandleGone(init), events[|events| - 1])
  }

  /** The watchable after up to two more calls. */
  function Used<T>(hub: Hub<T, IrohError>, use: seq<HubEvent<T, IrohError>>): Hub<T, IrohError>
  {
    if use == [] then hub
    else if |use| == 1 then HubStep(hub, use[0])
    else HubStep(HubStep(hub, use[0]), use[1])
  }

  lemma HubRunTwice<T>(events: seq<HubEvent<T, IrohError>>, a: HubEvent<T, IrohError>, b: HubEvent<T, IrohError>)
    ensures HubRun((events + [a]) + [b]) == HubStep(HubStep(HubRun(events), a), b)
  {
    HubRunSnoc(events, a);
    HubRunSnoc(events + [a], b);
  }

  lemma HubRunUsed<T>(events: seq<HubEvent<T, IrohError>>, use: seq<HubEvent<T, IrohError>>)
    requires |use| <= 2
    ensures HubRun(events + use) == Used(HubRun(events), use)
  {
    if use == [] {
      assert events + use == events;
    } else if |use| == 1 {
      assert use == [use[0]];
      HubRunSnoc(events, use[0]);
    } else {
      HubRunTwice(events, use[0], use[1]);
      assert use == [use[0], use[1]];
      assert events + [use[0], use[1]] == (events + [use[0]]) + [use[1]];
    }
  }

  lemma ReactingUses<T>(w: Watch<T>, hub: Hub<T, IrohError>, succeeds: bool)
    requires WatchInv(w) && HooksTell(w, hub)
    ensures var w' := Reacted(w, hub, succeeds);
      && w'.created && w'.endpointOpen == w.endpointOpen
      && w'.hub == (if w.hub.subscribers == 0 && hub.subscribers > 0 && (!w.endpointOpen || !succeeds)
                    then HubStep(hub, CloseAll(Some(COULD_NOT_START))) else hub)
  {
  }

  lemma ConsumerUses<T>(w: Watch<T>, e: HubEvent<T, IrohError>, succeeds: bool)
    requires WatchInv(w)
    ensures var w' := WatchStep(w, Consumer(e, succeeds));
      && w'.hub == Used(w.hub, Use(w.hub, w.created, !w.endpointOpen, Consumer(e, succeeds)))
      && w'.created == (w.created || (!e.PushAll? && !e.CloseAll?))
      && w'.endpointOpen == w.endpointOpen
  {
    if !e.PushAll? && !e.CloseAll? {
      HookMeaning(w.hub, e);
      HubStepOk(w.hub, e);
      HooksCalled(w, HubStep(w.hub, e));
      ReactingUses(w, HubStep(w.hub, e), succeeds);
    }
  }

  lemma NativeUses<T>(w: Watch<T>, event: WatchEvent<T>)
    requires !event.Consumer?
    ensures var w' := WatchStep(w, event);
      && w'.hub == Used(w.hub, Use(w.hub, w.created, !w.endpointOpen, event))
      && w'.created == w.created
      && w'.endpointOpen == (w.endpointOpen && !event.CloseCalled? && !event.CloseSettled?)
  {
  }

  /** Over every run the watchable is one that was used exactly so, and everything proved of every
      run of a watchable holds of it. */
  lemma {:induction false} TheWatchableIsUsedSo<T>(events: seq<WatchEvent<T>>)
    ensures var w := WatchRun(events);
      w.hub == HubRun(Uses(events)) && w.created == EverUsed(events) && w.endpointOpen == !HandleGone(events)
  {
    if events != [] {
      var init, last := events[..|events| - 1], events[|events| - 1];
      TheWatchableIsUsedSo(init);
      WatchRunKeepsInv(init);
      if last.Consumer? {
        ConsumerUses(WatchRun(init), last.event, last.startSucceeds);
      } else {
        NativeUses(WatchRun(init), last);
      }
      HubRunUsed(Uses(init), Use(HubRun(Uses(init)), EverUsed(init), HandleGone(init), last));
    }
  }

  /** A native address change reaches everyone who is listening, and nobody else. */
  lemma ChangesAreHeard<T>(events: seq<WatchEvent<T>>, value: T, x: nat)
    requires x in WatchRun(events).hub.heard
    ensures var h, h' := WatchRun(events).hub, WatchRun(events + [NativeChange(value)]).hub;
      x in h'.heard && h'.heard[x] == h.heard[x] + if x in h.listeners then [value] else []
  {
    assert (events + [NativeChange(value)])[..|events + [NativeChange(value)]| - 1] == events;
    WatchRunKeepsInv(events);
    ChangeIsHeard(WatchRun(events).hub, value, x);
  }

  lemma ChangeIsHeard<T>(h: Hub<T, IrohError>, value: T, x: nat)
    requires Subscriptions(h) && x in h.heard
    ensures var h' := HubStep(h, PushAll(value));
      x in h'.heard && h'.heard[x] == h.heard[x] + if x in h.listeners then [value] else []
  {
    PushHears(h, value, x, x in h.listeners, h.heard[x]);
  }

  // ---------------------------------------------------------------- the class

  /** The endpoint's field and the two methods its watchable's hooks call. */
  class AddressWatcher {
    var addressWatchId: Option<nat>
    var calls: seq<NativeCall>

    constructor ()
      ensures CallsMatch(addressWatchId, calls) && addressWatchId == None && calls == []
    {
      addressWatchId, calls := None, [];
    }

    /** `nativeAccepts` is false when the native call throws; the caller then closes the fan-out. */
    method StartNativeAddrWatch(nativeAccepts: bool) returns (closesFanOut: bool)
      requires CallsMatch(addressWatchId, calls)
      modifies this
      ensures CallsMatch(addressWatchId, calls)
      ensures closesFanOut <==> old(addressWatchId).None? && !nativeAccepts
      ensures old(addressWatchId).Some? || !nativeAccepts ==>
        addressWatchId == old(addressWatchId) && calls == old(calls)
      ensures old(addressWatchId).None? && nativeAccepts ==>
        addressWatchId.Some? && calls == old(calls) + [Started(addressWatchId.value)]
    {
      if addressWatchId.Some? {
        return false;
      }
      if !nativeAccepts {
        return true;
      }
      addressWatchId := Some(|calls| / 2);
      calls := calls + [Started(|calls| / 2)];
      return false;
    }

    method StopNativeAddrWatch()
      requires CallsMatch(addressWatchId, calls)
      modifies this
      ensures CallsMatch(addressWatchId, calls)
      ensures addressWatchId == None
      ensures calls == old(calls) + if old(addressWatchId).Some? then [Stopped(old(addressWatchId).value)] else []
    {
      if addressWatchId.None? {
        return;
      }
      var watch := addressWatchId.value;
      addressWatchId := None;
      calls := calls + [Stopped(watch)];
    }
  }
}
