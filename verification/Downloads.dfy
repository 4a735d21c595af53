/** Single-blob transfers (`TransferController` in `src/transfer.ts`) and the endpoint's capped
    FIFO download queue (`src/endpoint.ts`), interleaved with native callbacks. */
module Downloads {
  import opened Base
  import opened Errors

  datatype Settlement = Completed | Failed(error: IrohError)

  /** `startFails` says whether the native call will throw when the transfer begins. */
  datatype Transfer = Transfer(
    startFails: Option<IrohError>,
    settled: Option<Settlement>,
    started: bool,
    cancelRequested: bool,
    nativeId: Option<nat>)

  const CANCELLED_IN_QUEUE := IrohError(3003, "download cancelled before it started")

  function NewTransfer(startFails: Option<IrohError>): Transfer
  {
    Transfer(startFails, None, false, false, None)
  }

  /** The hub settles once. */
  function SettledWith(t: Transfer, outcome: Settlement): Transfer
  {
    if t.settled.Some? then t else t.(settled := Some(outcome))
  }

  function Cancelled(t: Transfer): Transfer
  {
    if t.settled.Some? then t
    else if !t.started then t.(cancelRequested := true, settled := Some(Failed(CANCELLED_IN_QUEUE)))
    else t.(cancelRequested := true)
  }

  /** The native cancel that `cancel()` issues at once, if any. */
  function CancelCall(t: Transfer): seq<NativeCall>
  {
    if t.settled.None? && t.started && t.nativeId.Some? then [CancelNative(t.nativeId.value)] else []
  }

  /** `begin()`: the transfer, and whether a native download is now running. */
  function Begun(t: Transfer): (Transfer, bool)
  {
    var t' := t.(started := true);
    if t'.settled.Some? then (t', false)
    else if t'.startFails.Some? then (SettledWith(t', Failed(t'.startFails.value)), false)
    else (t', true)
  }

  function IdArrived(t: Transfer, id: nat): (Transfer, seq<NativeCall>)
  {
    (t.(nativeId := Some(id)), if t.cancelRequested then [CancelNative(id)] else [])
  }

  datatype NativeCall = StartNative(transfer: nat) | CancelNative(id: nat)

  class TransferController {
    const startFails: Option<IrohError>
    var settled: Option<Settlement>
    var started: bool
    var cancelRequested: bool
    var nativeTransferId: Option<nat>

    constructor (startFails: Option<IrohError>)
      ensures State() == NewTransfer(startFails)
    {
      this.startFails := startFails;
      settled, started, cancelRequested, nativeTransferId := None, false, false, None;
    }

    function State(): Transfer
      reads this
    {
      Transfer(startFails, settled, started, cancelRequested, nativeTransferId)
    }

    method Settle(outcome: Settlement)
      modifies this
      ensures State() == SettledWith(old(State()), outcome)
    {
      if settled.None? {
        settled := Some(outcome);
      }
    }

    method Begin() returns (downloading: bool)
      modifies this
      ensures (State(), downloading) == Begun(old(State()))
    {
      started := true;
      if settled.Some? {
        return false;
      }
      if startFails.Some? {
        Settle(Failed(startFails.value));
        return false;
      }
      return true;
    }

    method OnStart(id: nat) returns (calls: seq<NativeCall>)
      modifies this
      ensures (State(), calls) == IdArrived(old(State()), id)
    {
      nativeTransferId := Some(id);
      calls := if cancelRequested then [CancelNative(id)] else [];
    }

    method Cancel() returns (calls: seq<NativeCall>)
      modifies this
      ensures State() == Cancelled(old(State())) && calls == CancelCall(old(State()))
    {
      calls := [];
      if settled.Some? {
        return;
      }
      cancelRequested := true;
      if !started {
        Settle(Failed(CANCELLED_IN_QUEUE));
        return;
      }
      if nativeTransferId.Some? {
        calls := [CancelNative(nativeTransferId.value)];
      }
    }
  }

  // ---------------------------------------------------------------- the queue

  /** The endpoint's download state. Transfers are numbered as they are created. `unfinished`
      holds the begun transfers whose completion has not been processed; `enqueued` and `begun`
      record the order of those two events, and `log` the native calls. `cap` is `None` when the
      host asked for no limit. */
  datatype Gate = Gate(
    cap: Option<nat>,
    transfers: seq<Transfer>,
    queue: seq<nat>,
    active: nat,
    unfinished: set<nat>,
    enqueued: seq<nat>,
    begun: seq<nat>,
    log: seq<NativeCall>)

  datatype GateEvent =
    | Create(startFails: Option<IrohError>)
    | Cancel(transfer: nat)
    | Enqueue(transfer: nat)
    | OnStart(transfer: nat, id: nat)
    | NativeSettles(transfer: nat, outcome: Settlement)
    | Complete(transfer: nat)     // the continuation that frees the slot
    | CloseEndpoint

  const DEFAULT_MAX_CONCURRENT_DOWNLOADS: nat := 32

  /** `options.maxConcurrentDownloads` as JavaScript may hold it. */
  datatype RequestedMax = Unset | Finite(value: real) | Infinity | NotANumber | MinusInfinity

  /** The normalised cap: never zero, so a queued transfer can always eventually run. */
  function NormaliseCap(requested: RequestedMax): (cap: Option<nat>)
    ensures cap.Some? ==> cap.value >= 1
    ensures cap.None? <==> requested.Infinity?
    ensures requested.Finite? && requested.value >= 1.0 ==>
      cap.value as real <= requested.value < cap.value as real + 1.0
    ensures requested.Finite? && requested.value < 1.0 ==> cap == Some(1)
    ensures !requested.Finite? && !requested.Infinity? ==> cap == Some(32)
  {
    match requested
    case Unset | NotANumber | MinusInfinity => Some(DEFAULT_MAX_CONCURRENT_DOWNLOADS)
    case Infinity => None
    case Finite(value) => Some(if value.Floor < 1 then 1 else value.Floor)
  }

  function NewGate(requested: RequestedMax): Gate
  {
    Gate(NormaliseCap(requested), [], [], 0, {}, [], [], [])
  }

  predicate SlotFree(g: Gate)
  {
    g.cap.Some? ==> g.active < g.cap.value
  }

  /** One turn of the pump: take the oldest queued transfer; begin it unless it is settled. */
  function PumpOne(g: Gate): Gate
    requires g.queue != []
  {
    var next := g.queue[0];
    var g' := g.(queue := g.queue[1..]);
    if next >= |g.transfers| || g.transfers[next].settled.Some? then g'
    else
      g'.(transfers := g.transfers[next := Begun(g.transfers[next]).0], active := g.active + 1,
          unfinished := g.unfinished + {next}, begun := g.begun + [next],
          log := g.log + [StartNative(next)])
  }

  predicate QueueInRange(g: Gate)
  {
    forall k :: 0 <= k < |g.queue| ==> g.queue[k] < |g.transfers|
  }

  function Pump(g: Gate): Gate
    decreases |g.queue|
  {
    if SlotFree(g) && g.queue != [] then Pump(PumpOne(g)) else g
  }

  function CancelEach(transfers: seq<Transfer>, ids: seq<nat>): (r: seq<Transfer>)
    ensures |r| == |transfers|
    decreases |ids|
  {
    if ids == [] then transfers
    else if ids[0] < |transfers| then
      CancelEach(transfers[ids[0] := Cancelled(transfers[ids[0]])], ids[1..])
    else CancelEach(transfers, ids[1..])
  }

  /** The state after an event, or `None` when the event cannot happen in `g`. */
  function GateStep(g: Gate, event: GateEvent): Option<Gate>
  {
    match event
    case Create(startFails) =>
      Some(g.(transfers := g.transfers + [NewTransfer(startFails)]))
    case Cancel(i) =>
      if i < |g.transfers| then
        Some(g.(transfers := g.transfers[i := Cancelled(g.transfers[i])],
                log := g.log + CancelCall(g.transfers[i])))
      else None
    case Enqueue(i) =>
      if i < |g.transfers| && i !in g.enqueued then
        Some(Pump(g.(queue := g.queue + [i], enqueued := g.enqueued + [i])))
      else None
    case OnStart(i, id) =>
      // Native ids are never reissued, and each native download reports one.
      if i < |g.transfers| && g.transfers[i].started && g.transfers[i].startFails.None? &&
         g.transfers[i].nativeId.None? &&
         (forall j :: 0 <= j < |g.transfers| ==> g.transfers[j].nativeId != Some(id)) then
        Some(g.(transfers := g.transfers[i := IdArrived(g.transfers[i], id).0],
                log := g.log + IdArrived(g.transfers[i], id).1))
      else None
    case NativeSettles(i, outcome) =>
      if i < |g.transfers| && i in g.unfinished && g.transfers[i].settled.None? then
        Some(g.(transfers := g.transfers[i := SettledWith(g.transfers[i], outcome)]))
      else None
    case Complete(i) =>
      if i < |g.transfers| && i in g.unfinished && g.transfers[i].settled.Some? && g.active > 0 then
        Some(Pump(g.(active := g.active - 1, unfinished := g.unfinished - {i})))
      else None
    case CloseEndpoint =>
      Some(g.(queue := [], transfers := CancelEach(g.transfers, g.queue)))
  }

  // ---------------------------------------------------------------- what holds in every state

  /** The transfers among `ids` that were begun, in order. */
  function StartedAmong(transfers: seq<Transfer>, ids: seq<nat>): seq<nat>
  {
    if ids == [] then []
    else
      var last := ids[|ids| - 1];
      StartedAmong(transfers, ids[..|ids| - 1]) +
        if last < |transfers| && transfers[last].started then [last] else []
  }

  function StartOf(call: NativeCall): seq<nat>
  {
    if call.StartNative? then [call.transfer] else []
  }

  /** The transfers whose native download was started, in that order. */
  function Starts(log: seq<NativeCall>): seq<nat> { FlatMap(StartOf, log) }

  /** The enqueued transfers that have left the queue. */
  function Popped(g: Gate): seq<nat>
  {
    if |g.queue| <= |g.enqueued| then g.enqueued[..|g.enqueued| - |g.queue|] else []
  }

  ghost predicate Slots(g: Gate)
  {
    && g.active == |g.unfinished|
    && (g.cap.Some? ==> 1 <= g.cap.value && g.active <= g.cap.value)
  }

  ghost predicate Order(g: Gate)
  {
    && QueueInRange(g)
    && NoDup(g.enqueued)
    && |g.queue| <= |g.enqueued| && g.enqueued == Popped(g) + g.queue
    && (forall k :: 0 <= k < |g.enqueued| ==> g.enqueued[k] < |g.transfers|)
    && g.begun == StartedAmong(g.transfers, Popped(g))
    && Starts(g.log) == g.begun
  }

  /** What is known of one transfer. */
  ghost predicate TransferInv(g: Gate, i: nat)
    requires i < |g.transfers|
  {
    var t := g.transfers[i];
    && (t.started <==> i in g.begun)
    && (i in g.unfinished ==> t.started)
    && (t.started && i !in g.unfinished ==> t.settled.Some?)
    && (!t.started ==> t.nativeId.None? && (t.settled.Some? <==> t.cancelRequested) &&
                       (t.settled.Some? ==> t.settled.value == Failed(CANCELLED_IN_QUEUE)))
    && (i in g.queue ==> !t.started)
    && (i in g.enqueued && i !in g.queue ==> t.started || t.settled.Some?)
    && (i !in g.enqueued ==> !t.started)
    && (t.started && t.startFails.Some? ==> t.settled.Some?)
  }

  ghost predicate TransfersInv(g: Gate)
  {
    && (forall i :: 0 <= i < |g.transfers| ==> TransferInv(g, i))
    && (forall i :: i in g.unfinished ==> i < |g.transfers|)
  }

  ghost predicate GateInv(g: Gate)
  {
    Slots(g) && Order(g) && TransfersInv(g)
  }

  /** Nothing waits while a slot is free. */
  predicate Pumped(g: Gate)
  {
    g.queue == [] || g.cap == Some(g.active)
  }

  // ---------------------------------------------------------------- every step keeps it

  lemma {:induction false} StartedAmongFrame(transfers: seq<Transfer>, transfers': seq<Transfer>, ids: seq<nat>)
    requires forall k :: 0 <= k < |ids| ==>
      (ids[k] < |transfers| && transfers[ids[k]].started <==>
       ids[k] < |transfers'| && transfers'[ids[k]].started)
    ensures StartedAmong(transfers, ids) == StartedAmong(transfers', ids)
  {
    if ids != [] {
      StartedAmongFrame(transfers, transfers', ids[..|ids| - 1]);
    }
  }

  lemma StartedSnoc(transfers: seq<Transfer>, ids: seq<nat>, x: nat)
    ensures StartedAmong(transfers, ids + [x]) ==
            StartedAmong(transfers, ids) + if x < |transfers| && transfers[x].started then [x] else []
  {
    assert (ids + [x])[..|ids + [x]| - 1] == ids;
  }

  /** The head of the queue is the first enqueued transfer that has not left it. */
  lemma QueueHead(g: Gate)
    requires Order(g) && g.queue != []
    ensures var next := g.queue[0];
      && next in g.enqueued && next !in Popped(g) && next !in g.queue[1..]
      && g.enqueued == (Popped(g) + [next]) + g.queue[1..]
      && Popped(PumpOne(g)) == Popped(g) + [next]
  {
    var n := |Popped(g)|;
    assert g.queue == [g.queue[0]] + g.queue[1..];
    assert g.enqueued[n] == g.queue[0];
    assert g.enqueued[..n] == Popped(g) && g.enqueued[n + 1..] == g.queue[1..];
    assert g.enqueued[..n + 1] == Popped(g) + [g.queue[0]];
  }

  lemma PumpOneKeepsOrder(g: Gate)
    requires Order(g) && TransfersInv(g) && g.queue != []
    ensures Order(PumpOne(g))
  {
    var g' := PumpOne(g);
    var next := g.queue[0];
    QueueHead(g);
    assert TransferInv(g, next);
    StartedAmongFrame(g.transfers, g'.transfers, Popped(g));
    StartedSnoc(g'.transfers, Popped(g), next);
    FlatMapSnoc(StartOf, g.log, StartNative(next));
  }

  lemma PumpOneKeepsOther(g: Gate, i: nat)
    requires Order(g) && g.queue != [] && i < |g.transfers| && TransferInv(g, i) && i != g.queue[0]
    ensures TransferInv(PumpOne(g), i)
  {
    assert g.queue == [g.queue[0]] + g.queue[1..];
    assert i in g.queue <==> i in g.queue[1..];
  }

  lemma PumpOneKeepsNext(g: Gate)
    requires Order(g) && g.queue != [] && TransferInv(g, g.queue[0])
    ensures TransferInv(PumpOne(g), g.queue[0])
  {
    QueueHead(g);
  }

  lemma PumpOneKeepsTransfers(g: Gate)
    requires Order(g) && TransfersInv(g) && g.queue != []
    ensures TransfersInv(PumpOne(g))
  {
    PumpOneKeepsNext(g);
    forall i | 0 <= i < |g.transfers| && i != g.queue[0]
      ensures TransferInv(PumpOne(g), i)
    {
      PumpOneKeepsOther(g, i);
    }
  }

  lemma PumpOneKeepsSlots(g: Gate)
    requires Slots(g) && QueueInRange(g) && SlotFree(g) && g.queue != []
    requires g.transfers[g.queue[0]].settled.None? ==> g.queue[0] !in g.unfinished
    ensures Slots(PumpOne(g))
  {
  }

  lemma {:induction false} PumpKeepsInv(g: Gate)
    requires GateInv(g)
    ensures GateInv(Pump(g)) && Pumped(Pump(g))
    decreases |g.queue|
  {
    if SlotFree(g) && g.queue != [] {
      assert TransferInv(g, g.queue[0]);
      PumpOneKeepsSlots(g);
      PumpOneKeepsOrder(g);
      PumpOneKeepsTransfers(g);
      PumpKeepsInv(PumpOne(g));
    }
  }

  lemma EnqueueKeepsInv(g: Gate, i: nat)
    requires GateInv(g) && i < |g.transfers| && i !in g.enqueued
    ensures GateInv(g.(queue := g.queue + [i], enqueued := g.enqueued + [i]))
  {
    var g' := g.(queue := g.queue + [i], enqueued := g.enqueued + [i]);
    assert Popped(g') == Popped(g);
    forall j | 0 <= j < |g.transfers|
      ensures TransferInv(g', j)
    {
      assert TransferInv(g, j);
      assert j in g'.queue <==> j in g.queue || j == i;
      assert j in g'.enqueued <==> j in g.enqueued || j == i;
    }
  }

  /** Changing one transfer without starting it. */
  lemma TouchKeepsOrder(g: Gate, i: nat, t: Transfer, log: seq<NativeCall>)
    requires Order(g) && i < |g.transfers| && t.started == g.transfers[i].started && Starts(log) == []
    ensures Order(g.(transfers := g.transfers[i := t], log := g.log + log))
  {
    var g' := g.(transfers := g.transfers[i := t], log := g.log + log);
    assert Popped(g') == Popped(g);
    StartedAmongFrame(g.transfers, g'.transfers, Popped(g));
    FlatMapAppend(StartOf, g.log, log);
  }

  lemma TouchKeepsTransfers(g: Gate, i: nat, t: Transfer, log: seq<NativeCall>)
    requires TransfersInv(g) && i < |g.transfers|
    requires TransferInv(g.(transfers := g.transfers[i := t]), i)
    ensures TransfersInv(g.(transfers := g.transfers[i := t], log := g.log + log))
  {
    var g' := g.(transfers := g.transfers[i := t], log := g.log + log);
    forall j | 0 <= j < |g'.transfers|
      ensures TransferInv(g', j)
    {
      assert j != i ==> TransferInv(g, j);
      assert TransferInv(g.(transfers := g.transfers[i := t]), i);
    }
  }

  lemma NoStarts(log: seq<NativeCall>)
    requires log == [] || (|log| == 1 && log[0].CancelNative?)
    ensures Starts(log) == []
  {
    if log != [] {
      assert log == [log[0]];
      FlatMapOne(StartOf, log[0]);
    }
  }

  lemma {:induction false} CancelEachSpec(transfers: seq<Transfer>, ids: seq<nat>)
    ensures var r := CancelEach(transfers, ids);
      forall i :: 0 <= i < |transfers| ==>
        r[i] == if i in ids then Cancelled(transfers[i]) else transfers[i]
    decreases |ids|
  {
    if ids != [] {
      var transfers' := if ids[0] < |transfers| then transfers[ids[0] := Cancelled(transfers[ids[0]])] else transfers;
      CancelEachSpec(transfers', ids[1..]);
      assert forall i: nat :: i in ids <==> i == ids[0] || i in ids[1..];
    }
  }

  lemma CloseKeepsTransfers(g: Gate)
    requires GateInv(g)
    ensures TransfersInv(GateStep(g, CloseEndpoint).value)
  {
    var g' := GateStep(g, CloseEndpoint).value;
    CancelEachSpec(g.transfers, g.queue);
    forall i | 0 <= i < |g'.transfers|
      ensures TransferInv(g', i)
    {
      assert TransferInv(g, i);
    }
  }

  lemma CloseKeepsOrder(g: Gate)
    requires GateInv(g)
    ensures Order(GateStep(g, CloseEndpoint).value)
  {
    var g' := GateStep(g, CloseEndpoint).value;
    CancelEachSpec(g.transfers, g.queue);
    assert Popped(g') == Popped(g) + g.queue;
    assert g'.begun == g.begun && g'.log == g.log && g'.enqueued == g.enqueued;
    StartedAmongFrame(g.transfers, g'.transfers, Popped(g));
    forall k | 0 <= k < |g.queue|
      ensures !g'.transfers[g.queue[k]].started
    {
      assert TransferInv(g, g.queue[k]);
    }
    QueueNeverStarted(g', Popped(g), g.queue);
  }

  lemma {:induction false} QueueNeverStarted(g: Gate, popped: seq<nat>, queue: seq<nat>)
    requires forall k :: 0 <= k < |queue| ==> queue[k] < |g.transfers| && !g.transfers[queue[k]].started
    ensures StartedAmong(g.transfers, popped + queue) == StartedAmong(g.transfers, popped)
  {
    if queue == [] {
      assert popped + queue == popped;
    } else {
      QueueNeverStarted(g, popped, queue[..|queue| - 1]);
      assert (popped + queue)[..|popped + queue| - 1] == popped + queue[..|queue| - 1];
    }
  }

  lemma CreateKeepsInv(g: Gate, startFails: Option<IrohError>)
    requires GateInv(g)
    ensures GateInv(GateStep(g, Create(startFails)).value)
  {
    var g' := GateStep(g, Create(startFails)).value;
    assert Popped(g') == Popped(g);
    StartedAmongFrame(g.transfers, g'.transfers, Popped(g));
    var newest: nat := |g.transfers|;
    assert newest !in g.enqueued && newest !in g.queue && newest !in g.unfinished;
    BegunWereEnqueued(g.transfers, Popped(g));
    assert newest !in g.begun;
    forall i | 0 <= i < |g'.transfers|
      ensures TransferInv(g', i)
    {
      assert i < |g.transfers| ==> TransferInv(g, i);
    }
  }

  lemma {:induction false} BegunWereEnqueued(transfers: seq<Transfer>, ids: seq<nat>)
    ensures forall i :: i in StartedAmong(transfers, ids) ==> i in ids
  {
    if ids != [] {
      BegunWereEnqueued(transfers, ids[..|ids| - 1]);
      assert ids == ids[..|ids| - 1] + [ids[|ids| - 1]];
    }
  }

  lemma CompleteKeepsInv(g: Gate, i: nat)
    requires GateInv(g) && i < |g.transfers| && i in g.unfinished && g.transfers[i].settled.Some?
    ensures g.active > 0 && GateInv(g.(active := g.active - 1, unfinished := g.unfinished - {i}))
  {
    var g' := g.(active := g.active - 1, unfinished := g.unfinished - {i});
    assert Popped(g') == Popped(g);
    forall j | 0 <= j < |g'.transfers|
      ensures TransferInv(g', j)
    {
      assert TransferInv(g, j);
    }
  }

  lemma TransferStepKeepsInv(g: Gate, event: GateEvent)
    requires GateInv(g) && GateStep(g, event).Some?
    requires event.Cancel? || event.OnStart? || event.NativeSettles?
    ensures GateInv(GateStep(g, event).value)
  {
    var i := event.transfer;
    var t, log := g.transfers[i], [];
    match event {
      case Cancel(_) => t, log := Cancelled(t), CancelCall(t);
      case OnStart(_, id) => log := IdArrived(t, id).1; t := IdArrived(t, id).0;
      case NativeSettles(_, outcome) => t := SettledWith(t, outcome);
    }
    assert TransferInv(g, i);
    assert TransferInv(g.(transfers := g.transfers[i := t]), i);
    NoStarts(log);
    TouchKeepsOrder(g, i, t, log);
    TouchKeepsTransfers(g, i, t, log);
    assert g.log + [] == g.log;
  }

  lemma QueueStepKeepsInv(g: Gate, event: GateEvent)
    requires GateInv(g) && GateStep(g, event).Some?
    requires event.Enqueue? || event.Complete?
    ensures GateInv(GateStep(g, event).value) && Pumped(GateStep(g, event).value)
  {
    var i := event.transfer;
    if event.Enqueue? {
      EnqueueKeepsInv(g, i);
      PumpKeepsInv(g.(queue := g.queue + [i], enqueued := g.enqueued + [i]));
    } else {
      CompleteKeepsInv(g, i);
      PumpKeepsInv(g.(active := g.active - 1, unfinished := g.unfinished - {i}));
    }
  }

  lemma StepKeepsInv(g: Gate, event: GateEvent)
    requires GateInv(g) && GateStep(g, event).Some?
    ensures GateInv(GateStep(g, event).value)
  {
    match event
    case Create(startFails) => CreateKeepsInv(g, startFails);
    case Enqueue(_) => QueueStepKeepsInv(g, event);
    case Complete(_) => QueueStepKeepsInv(g, event);
    case CloseEndpoint =>
      CloseKeepsTransfers(g);
      CloseKeepsOrder(g);
    case _ => TransferStepKeepsInv(g, event);
  }

  lemma StepKeepsPumped(g: Gate, event: GateEvent)
    requires Pumped(g) && GateStep(g, event).Some? && !event.Enqueue? && !event.Complete?
    ensures Pumped(GateStep(g, event).value)
  {
  }

  /** The state after a run, or `None` if one of its events could not happen. */
  function GateRun(requested: RequestedMax, events: seq<GateEvent>): Option<Gate>
  {
    if events == [] then Some(NewGate(requested))
    else
      match GateRun(requested, events[..|events| - 1])
      case None => None
      case Some(g) => GateStep(g, events[|events| - 1])
  }

  lemma {:induction false} RunKeepsInv(requested: RequestedMax, events: seq<GateEvent>)
    requires GateRun(requested, events).Some?
    ensures GateInv(GateRun(requested, events).value) && Pumped(GateRun(requested, events).value)
  {
    if events == [] {
      NewGateInv(requested);
    } else {
      var init, last := events[..|events| - 1], events[|events| - 1];
      RunKeepsInv(requested, init);
      var g := GateRun(requested, init).value;
      StepKeepsInv(g, last);
      if last.Enqueue? || last.Complete? {
        QueueStepKeepsInv(g, last);
      } else {
        StepKeepsPumped(g, last);
      }
    }
  }

  lemma NewGateInv(requested: RequestedMax)
    ensures GateInv(NewGate(requested)) && Pumped(NewGate(requested))
  {
    assert Popped(NewGate(requested)) == [];
  }

  // ---------------------------------------------------------------- what every run guarantees

  /** In every reachable state the slots in use are the begun transfers whose completion has not
      been processed, they never exceed the cap, and nothing waits while a slot is free. */
  lemma CapIsRespectedAndUsed(requested: RequestedMax, events: seq<GateEvent>)
    requires GateRun(requested, events).Some?
    ensures var g := GateRun(requested, events).value;
      && g.active == |g.unfinished|
      && (forall i :: i in g.unfinished ==> i in g.begun)
      && (g.cap.Some? ==> g.active <= g.cap.value)
      && (g.queue == [] || g.cap == Some(g.active))
  {
    RunKeepsInv(requested, events);
    var g := GateRun(requested, events).value;
    forall i | i in g.unfinished
      ensures i in g.begun
    {
      assert TransferInv(g, i);
    }
  }

  /** Native downloads start at most once per transfer and in enqueue order: the start calls are
      exactly the begun transfers, read off the enqueue order. */
  lemma BeginsInEnqueueOrder(requested: RequestedMax, events: seq<GateEvent>)
    requires GateRun(requested, events).Some?
    ensures var g := GateRun(requested, events).value;
      && Starts(g.log) == StartedAmong(g.transfers, g.enqueued)
      && NoDup(g.enqueued) && NoDup(Starts(g.log)) && Subsequence(Starts(g.log), g.enqueued)
  {
    RunKeepsInv(requested, events);
    var g := GateRun(requested, events).value;
    forall k | 0 <= k < |g.queue|
      ensures !g.transfers[g.queue[k]].started
    {
      assert TransferInv(g, g.queue[k]);
    }
    QueueNeverStarted(g, Popped(g), g.queue);
    StartedIsSubsequence(g.transfers, g.enqueued);
    StartedNoDup(g.transfers, g.enqueued);
  }

  lemma {:induction false} StartedNoDup(transfers: seq<Transfer>, ids: seq<nat>)
    requires NoDup(ids)
    ensures NoDup(StartedAmong(transfers, ids))
  {
    if ids != [] {
      var init: seq<nat>, last: nat := ids[..|ids| - 1], ids[|ids| - 1];
      StartedNoDup(transfers, init);
      BegunWereEnqueued(transfers, init);
      assert last !in init;
      assert last !in StartedAmong(transfers, init);
    }
  }

  lemma {:induction false} StartedIsSubsequence(transfers: seq<Transfer>, ids: seq<nat>)
    ensures Subsequence(StartedAmong(transfers, ids), ids)
  {
    if ids != [] {
      var init: seq<nat>, last: nat := ids[..|ids| - 1], ids[|ids| - 1];
      StartedIsSubsequence(transfers, init);
      assert ids == init + [last];
      StartedSnoc(transfers, init, last);
      if last < |transfers| && transfers[last].started {
        SubsequenceTake<nat>(StartedAmong(transfers, init), init, last);
      } else {
        assert StartedAmong(transfers, ids) == StartedAmong(transfers, init);
        SubsequenceSkip<nat>(StartedAmong(transfers, init), init, last);
      }
    }
  }

  /** A transfer cancelled before it began is settled with the cancellation, never reaches native
      code and never takes a slot, whatever happens afterwards. */
  lemma CancelledInQueueNeverRuns(requested: RequestedMax, events: seq<GateEvent>,
                                  later: seq<GateEvent>, i: nat)
    requires GateRun(requested, events + later).Some? && GateRun(requested, events).Some?
    requires var g := GateRun(requested, events).value;
      i < |g.transfers| && g.transfers[i].cancelRequested && !g.transfers[i].started
    ensures var g := GateRun(requested, events + later).value;
      && i < |g.transfers| && g.transfers[i].settled == Some(Failed(CANCELLED_IN_QUEUE))
      && !g.transfers[i].started && i !in Starts(g.log) && i !in g.unfinished
  {
    RunKeepsInv(requested, events);
    assert TransferInv(GateRun(requested, events).value, i);
    SettledForGood(requested, events, later, i);
    RunKeepsInv(requested, events + later);
    assert TransferInv(GateRun(requested, events + later).value, i);
  }

  lemma {:induction false} SettledForGood(requested: RequestedMax, events: seq<GateEvent>,
                                          later: seq<GateEvent>, i: nat)
    requires GateRun(requested, events + later).Some? && GateRun(requested, events).Some?
    requires var g := GateRun(requested, events).value;
      i < |g.transfers| && g.transfers[i].settled.Some? && !g.transfers[i].started
    ensures var g, g' := GateRun(requested, events).value, GateRun(requested, events + later).value;
      && i < |g'.transfers| && g'.transfers[i].settled == g.transfers[i].settled
      && !g'.transfers[i].started
    decreases |later|
  {
    if later == [] {
      assert events + later == events;
    } else {
      var init, last := later[..|later| - 1], later[|later| - 1];
      assert events + later == (events + init) + [last];
      GateRunSnoc(requested, events + init, last);
      SettledForGood(requested, events, init, i);
      SettledStaysUnstarted(GateRun(requested, events + init).value, last, i);
    }
  }

  lemma SettledStaysUnstarted(g: Gate, event: GateEvent, i: nat)
    requires GateStep(g, event).Some?
    requires i < |g.transfers| && g.transfers[i].settled.Some? && !g.transfers[i].started
    ensures var g' := GateStep(g, event).value;
      i < |g'.transfers| && g'.transfers[i].settled == g.transfers[i].settled && !g'.transfers[i].started
  {
    match event
    case Enqueue(j) =>
      PumpSkipsSettled(g.(queue := g.queue + [j], enqueued := g.enqueued + [j]), i);
    case Complete(j) =>
      PumpSkipsSettled(g.(active := g.active - 1, unfinished := g.unfinished - {j}), i);
    case CloseEndpoint => CancelEachSpec(g.transfers, g.queue);
    case _ =>
  }

  lemma {:induction false} PumpSkipsSettled(g: Gate, i: nat)
    requires i < |g.transfers| && g.transfers[i].settled.Some?
    ensures i < |Pump(g).transfers| && Pump(g).transfers[i] == g.transfers[i]
    decreases |g.queue|
  {
    if SlotFree(g) && g.queue != [] {
      PumpSkipsSettled(PumpOne(g), i);
    }
  }

  // ---------------------------------------------------------------- cancellation reaches native code

  /** The native id a transfer owes a cancel for, if it was cancelled and its id is known. */
  function OwedCancel(t: Transfer): Option<nat>
  {
    if t.cancelRequested then t.nativeId else None
  }

  ghost predicate CancelsMatch(g: Gate)
  {
    && (forall i :: 0 <= i < |g.transfers| && OwedCancel(g.transfers[i]).Some? ==>
          CancelNative(OwedCancel(g.transfers[i]).value) in g.log)
    && (forall id: nat :: CancelNative(id) in g.log ==>
          exists i :: 0 <= i < |g.transfers| && OwedCancel(g.transfers[i]) == Some(id))
  }

  lemma CancelsFrame(g: Gate, g': Gate)
    requires CancelsMatch(g) && |g.transfers| <= |g'.transfers|
    requires forall i :: 0 <= i < |g.transfers| ==> OwedCancel(g'.transfers[i]) == OwedCancel(g.transfers[i])
    requires forall i :: |g.transfers| <= i < |g'.transfers| ==> OwedCancel(g'.transfers[i]) == None
    requires forall id: nat :: CancelNative(id) in g.log <==> CancelNative(id) in g'.log
    ensures CancelsMatch(g')
  {
    forall id: nat | CancelNative(id) in g'.log
      ensures exists i :: 0 <= i < |g'.transfers| && OwedCancel(g'.transfers[i]) == Some(id)
    {
      var i :| 0 <= i < |g.transfers| && OwedCancel(g.transfers[i]) == Some(id);
      assert OwedCancel(g'.transfers[i]) == Some(id);
    }
  }

  lemma TouchKeepsCancels(g: Gate, i: nat, t: Transfer, log: seq<NativeCall>)
    requires CancelsMatch(g) && i < |g.transfers|
    requires OwedCancel(g.transfers[i]).Some? ==> OwedCancel(t) == OwedCancel(g.transfers[i])
    requires log == [] ==> OwedCancel(t) == OwedCancel(g.transfers[i])
    requires log != [] ==> OwedCancel(t).Some? && log == [CancelNative(OwedCancel(t).value)]
    ensures CancelsMatch(g.(transfers := g.transfers[i := t], log := g.log + log))
  {
    var g' := g.(transfers := g.transfers[i := t], log := g.log + log);
    forall id: nat | CancelNative(id) in g'.log
      ensures exists j :: 0 <= j < |g'.transfers| && OwedCancel(g'.transfers[j]) == Some(id)
    {
      if CancelNative(id) in g.log {
        var j :| 0 <= j < |g.transfers| && OwedCancel(g.transfers[j]) == Some(id);
        assert OwedCancel(g'.transfers[j]) == Some(id);
      } else {
        assert OwedCancel(g'.transfers[i]) == Some(id);
      }
    }
  }

  lemma {:induction false} PumpKeepsCancels(g: Gate)
    requires CancelsMatch(g)
    ensures CancelsMatch(Pump(g))
    decreases |g.queue|
  {
    if SlotFree(g) && g.queue != [] {
      CancelsFrame(g, PumpOne(g));
      PumpKeepsCancels(PumpOne(g));
    }
  }

  lemma StepKeepsCancels(g: Gate, event: GateEvent)
    requires GateInv(g) && CancelsMatch(g) && GateStep(g, event).Some?
    ensures CancelsMatch(GateStep(g, event).value)
  {
    match event
    case Create(_) => CancelsFrame(g, GateStep(g, event).value);
    case Cancel(i) =>
      assert TransferInv(g, i);
      TouchKeepsCancels(g, i, Cancelled(g.transfers[i]), CancelCall(g.transfers[i]));
    case OnStart(i, id) =>
      TouchKeepsCancels(g, i, IdArrived(g.transfers[i], id).0, IdArrived(g.transfers[i], id).1);
    case NativeSettles(_, _) => CancelsFrame(g, GateStep(g, event).value);
    case Enqueue(i) =>
      EnqueueKeepsInv(g, i);
      PumpKeepsCancels(g.(queue := g.queue + [i], enqueued := g.enqueued + [i]));
    case Complete(i) =>
      PumpKeepsCancels(g.(active := g.active - 1, unfinished := g.unfinished - {i}));
    case CloseEndpoint =>
      CancelEachSpec(g.transfers, g.queue);
      forall i | 0 <= i < |g.transfers|
        ensures OwedCancel(CancelEach(g.transfers, g.queue)[i]) == OwedCancel(g.transfers[i])
      {
        assert TransferInv(g, i);
      }
      CancelsFrame(g, GateStep(g, event).value);
  }

  /** A native cancel is issued for exactly the transfers that were cancelled while running, with
      their own id, as soon as both the cancellation and the id are there, in either order. */
  lemma {:induction false} CancellationReachesNative(requested: RequestedMax, events: seq<GateEvent>)
    requires GateRun(requested, events).Some?
    ensures var g := GateRun(requested, events).value;
      && (forall i :: 0 <= i < |g.transfers| && g.transfers[i].cancelRequested && g.transfers[i].nativeId.Some? ==>
            CancelNative(g.transfers[i].nativeId.value) in g.log)
      && (forall id: nat :: CancelNative(id) in g.log ==>
            exists i :: 0 <= i < |g.transfers| && g.transfers[i].cancelRequested && g.transfers[i].nativeId == Some(id))
      && CancelsMatch(g)
  {
    if events != [] {
      CancellationReachesNative(requested, events[..|events| - 1]);
      RunKeepsInv(requested, events[..|events| - 1]);
      StepKeepsCancels(GateRun(requested, events[..|events| - 1]).value, events[|events| - 1]);
    }
    var g := GateRun(requested, events).value;
    forall i | 0 <= i < |g.transfers| && g.transfers[i].cancelRequested && g.transfers[i].nativeId.Some?
      ensures CancelNative(g.transfers[i].nativeId.value) in g.log
    {
      assert OwedCancel(g.transfers[i]).Some?;
    }
    forall id: nat | CancelNative(id) in g.log
      ensures exists i :: 0 <= i < |g.transfers| && g.transfers[i].cancelRequested && g.transfers[i].nativeId == Some(id)
    {
      var i :| 0 <= i < |g.transfers| && OwedCancel(g.transfers[i]) == Some(id);
    }
  }

  // ---------------------------------------------------------------- what becomes of a transfer

  /** What native code will answer each transfer's start with, in the order they were created. */
  function Creations(events: seq<GateEvent>): seq<Option<IrohError>>
  {
    if events == [] then []
    else
      var last := events[|events| - 1];
      Creations(events[..|events| - 1]) + if last.Create? then [last.startFails] else []
  }

  /** How native code ended the download of transfer `i`: the first that it said. */
  function NativeVerdict(events: seq<GateEvent>, i: nat): Option<Settlement>
  {
    if events == [] then None
    else
      var earlier, last := NativeVerdict(events[..|events| - 1], i), events[|events| - 1];
      if earlier.Some? then earlier
      else if last.NativeSettles? && last.transfer == i then Some(last.outcome) else None
  }

  function IdGiven(events: seq<GateEvent>, i: nat): Option<nat>
  {
    if events == [] then None
    else
      var earlier, last := IdGiven(events[..|events| - 1], i), events[|events| - 1];
      if earlier.Some? then earlier
      else if last.OnStart? && last.transfer == i then Some(last.id) else None
  }

  /** `cancel()` was called on transfer `i` before it had settled, by the host or by the endpoint's
      close while it was queued. */
  predicate CancelReached(requested: RequestedMax, events: seq<GateEvent>, i: nat)
  {
    events != [] &&
    var init, last := events[..|events| - 1], events[|events| - 1];
    CancelReached(requested, init, i) || (GateRun(requested, init).Some? && CancelsNow(GateRun(requested, init).value, last, i))
  }

  predicate CancelsNow(g: Gate, event: GateEvent, i: nat)
  {
    i < |g.transfers| && g.transfers[i].settled.None? && (event == Cancel(i) || (event.CloseEndpoint? && i in g.queue))
  }

  /** A transfer whose start failed fails with that error, one that ran ends as native code said, and
      one that never started fails as cancelled, if it was cancelled. */
  ghost predicate WentAs(t: Transfer, startFails: Option<IrohError>, verdict: Option<Settlement>, id: Option<nat>, cancelled: bool)
  {
    && t.startFails == startFails
    && (t.started ==> t.settled == if startFails.Some? then Some(Failed(startFails.value)) else verdict)
    && (!t.started ==> verdict.None? && t.settled == if cancelled then Some(Failed(CANCELLED_IN_QUEUE)) else None)
    && t.nativeId == id
    && t.cancelRequested == cancelled
  }

  lemma {:induction false} PumpBegins(g: Gate, i: nat)
    requires GateInv(g) && i < |g.transfers|
    ensures i < |Pump(g).transfers|
    ensures var t := g.transfers[i];
      Pump(g).transfers[i] == t || (!t.started && t.settled.None? && Pump(g).transfers[i] == Begun(t).0)
    decreases |g.queue|
  {
    if SlotFree(g) && g.queue != [] {
      assert TransferInv(g, g.queue[0]);
      assert TransferInv(g, i);
      PumpOneKeepsSlots(g);
      PumpOneKeepsOrder(g);
      PumpOneKeepsTransfers(g);
      assert TransferInv(PumpOne(g), i);
      PumpBegins(PumpOne(g), i);
    }
  }

  lemma BeginningGoesOn(t: Transfer, startFails: Option<IrohError>, verdict: Option<Settlement>, id: Option<nat>, cancelled: bool)
    requires WentAs(t, startFails, verdict, id, cancelled) && !t.started && t.settled.None?
    ensures WentAs(Begun(t).0, startFails, verdict, id, cancelled)
  {
  }

  lemma PumpGoesOn(g: Gate, g': Gate, i: nat, startFails: Option<IrohError>, verdict: Option<Settlement>, id: Option<nat>, cancelled: bool)
    requires GateInv(g') && g'.transfers == g.transfers && i < |g.transfers|
    requires WentAs(g.transfers[i], startFails, verdict, id, cancelled)
    ensures i < |Pump(g').transfers| && WentAs(Pump(g').transfers[i], startFails, verdict, id, cancelled)
  {
    PumpBegins(g', i);
    if Pump(g').transfers[i] != g.transfers[i] {
      BeginningGoesOn(g.transfers[i], startFails, verdict, id, cancelled);
    }
  }

  lemma CloseGoesOn(g: Gate, i: nat, startFails: Option<IrohError>, verdict: Option<Settlement>, id: Option<nat>, cancelled: bool)
    requires GateInv(g) && i < |g.transfers| && WentAs(g.transfers[i], startFails, verdict, id, cancelled)
    ensures WentAs(CancelEach(g.transfers, g.queue)[i], startFails, verdict, id, cancelled || CancelsNow(g, CloseEndpoint, i))
  {
    CancelEachSpec(g.transfers, g.queue);
    assert TransferInv(g, i);
  }

  lemma TouchGoesOn(g: Gate, event: GateEvent, i: nat, startFails: Option<IrohError>, verdict: Option<Settlement>, id: Option<nat>, cancelled: bool)
    requires GateInv(g) && GateStep(g, event).Some?
    requires event.Cancel? || event.OnStart? || event.NativeSettles? || event.Create?
    requires i < |g.transfers| && WentAs(g.transfers[i], startFails, verdict, id, cancelled)
    ensures WentAs(GateStep(g, event).value.transfers[i], startFails,
                   if verdict.None? && event.NativeSettles? && event.transfer == i then Some(event.outcome) else verdict,
                   if id.None? && event.OnStart? && event.transfer == i then Some(event.id) else id,
                   cancelled || CancelsNow(g, event, i))
  {
    assert TransferInv(g, i);
  }

  lemma EventGoesOn(g: Gate, event: GateEvent, i: nat, startFails: Option<IrohError>, verdict: Option<Settlement>, id: Option<nat>, cancelled: bool)
    requires GateInv(g) && GateStep(g, event).Some?
    requires i < |g.transfers| && WentAs(g.transfers[i], startFails, verdict, id, cancelled)
    ensures i < |GateStep(g, event).value.transfers|
    ensures WentAs(GateStep(g, event).value.transfers[i], startFails,
                   if verdict.None? && event.NativeSettles? && event.transfer == i then Some(event.outcome) else verdict,
                   if id.None? && event.OnStart? && event.transfer == i then Some(event.id) else id,
                   cancelled || CancelsNow(g, event, i))
  {
    match event {
      case Enqueue(j) =>
        EnqueueKeepsInv(g, j);
        PumpGoesOn(g, g.(queue := g.queue + [j], enqueued := g.enqueued + [j]), i, startFails, verdict, id, cancelled);
      case Complete(j) =>
        CompleteKeepsInv(g, j);
        PumpGoesOn(g, g.(active := g.active - 1, unfinished := g.unfinished - {j}), i, startFails, verdict, id, cancelled);
      case CloseEndpoint => CloseGoesOn(g, i, startFails, verdict, id, cancelled);
      case _ => TouchGoesOn(g, event, i, startFails, verdict, id, cancelled);
    }
  }

  lemma HistorySnoc(requested: RequestedMax, events: seq<GateEvent>, event: GateEvent, i: nat)
    requires GateRun(requested, events).Some?
    ensures Creations(events) <= Creations(events + [event])
    ensures NativeVerdict(events + [event], i) ==
      var verdict := NativeVerdict(events, i);
      if verdict.None? && event.NativeSettles? && event.transfer == i then Some(event.outcome) else verdict
    ensures IdGiven(events + [event], i) ==
      var id := IdGiven(events, i);
      if id.None? && event.OnStart? && event.transfer == i then Some(event.id) else id
    ensures CancelReached(requested, events + [event], i) ==
      (CancelReached(requested, events, i) || CancelsNow(GateRun(requested, events).value, event, i))
  {
    assert (events + [event])[..|events + [event]| - 1] == events;
  }

  lemma {:induction false} EventsNameOnlyCreated(requested: RequestedMax, events: seq<GateEvent>, i: nat)
    requires GateRun(requested, events).Some?
    ensures |GateRun(requested, events).value.transfers| == |Creations(events)|
    ensures i >= |Creations(events)| ==>
      NativeVerdict(events, i).None? && IdGiven(events, i).None? && !CancelReached(requested, events, i)
  {
    if events != [] {
      var init, last := events[..|events| - 1], events[|events| - 1];
      EventsNameOnlyCreated(requested, init, i);
      StepKeepsCount(GateRun(requested, init).value, last);
    }
  }

  lemma StepKeepsCount(g: Gate, event: GateEvent)
    requires GateStep(g, event).Some?
    ensures |GateStep(g, event).value.transfers| == |g.transfers| + if event.Create? then 1 else 0
  {
    match event
    case Enqueue(i) => PumpKeepsCount(g.(queue := g.queue + [i], enqueued := g.enqueued + [i]));
    case Complete(i) => PumpKeepsCount(g.(active := g.active - 1, unfinished := g.unfinished - {i}));
    case _ =>
  }

  lemma {:induction false} PumpKeepsCount(g: Gate)
    ensures |Pump(g).transfers| == |g.transfers|
    decreases |g.queue|
  {
    if SlotFree(g) && g.queue != [] {
      PumpKeepsCount(PumpOne(g));
    }
  }

  /** What becomes of every transfer, read off the events: one that started has failed with the
      error its start met, or else ends exactly as native code first said; one that has not is
      failed as cancelled or waiting, as it was cancelled or not; and its native id is the one
      reported. */
  lemma {:induction false} TransferSettlesAsItWent(requested: RequestedMax, events: seq<GateEvent>, i: nat)
    requires GateRun(requested, events).Some? && i < |Creations(events)|
    ensures i < |GateRun(requested, events).value.transfers|
    ensures WentAs(GateRun(requested, events).value.transfers[i], Creations(events)[i], NativeVerdict(events, i),
                   IdGiven(events, i), CancelReached(requested, events, i))
  {
    var init, last := events[..|events| - 1], events[|events| - 1];
    EventsNameOnlyCreated(requested, events, i);
    EventsNameOnlyCreated(requested, init, i);
    if i < |Creations(init)| {
      TransferSettlesAsItWent(requested, init, i);
      RunKeepsInv(requested, init);
      assert events == init + [last];
      HistorySnoc(requested, init, last, i);
      EventGoesOn(GateRun(requested, init).value, last, i, Creations(init)[i], NativeVerdict(init, i),
                  IdGiven(init, i), CancelReached(requested, init, i));
    }
  }

  /** A running transfer can always end, whatever native code answers, and its slot be freed. */
  lemma RunningTransferCanEnd(requested: RequestedMax, events: seq<GateEvent>, i: nat, outcome: Settlement)
    requires GateRun(requested, events).Some? && i in GateRun(requested, events).value.unfinished
    ensures var g := GateRun(requested, events).value;
      && i < |g.transfers|
      && (g.transfers[i].settled.None? ==> GateStep(g, NativeSettles(i, outcome)).Some?)
      && (g.transfers[i].settled.Some? ==>
            GateStep(g, Complete(i)).Some? && Measure(GateStep(g, Complete(i)).value) < Measure(g))
  {
    RunKeepsInv(requested, events);
    var g := GateRun(requested, events).value;
    assert TransferInv(g, i);
    if g.transfers[i].settled.Some? {
      CompleteKeepsInv(g, i);
      StepUsesMeasure(g, Complete(i));
    }
  }

  // ---------------------------------------------------------------- progress

  function Measure(g: Gate): nat
  {
    2 * |g.queue| + g.active
  }

  lemma {:induction false} PumpNeverGrows(g: Gate)
    ensures Measure(Pump(g)) <= Measure(g)
    decreases |g.queue|
  {
    if SlotFree(g) && g.queue != [] {
      PumpNeverGrows(PumpOne(g));
    }
  }

  function Completions(events: seq<GateEvent>): nat
  {
    if events == [] then 0
    else Completions(events[..|events| - 1]) + if events[|events| - 1].Complete? then 1 else 0
  }

  lemma StepUsesMeasure(g: Gate, event: GateEvent)
    requires GateStep(g, event).Some? && !event.Enqueue?
    ensures Measure(GateStep(g, event).value) + (if event.Complete? then 1 else 0) <= Measure(g)
  {
    if event.Complete? {
      PumpNeverGrows(g.(active := g.active - 1, unfinished := g.unfinished - {event.transfer}));
    }
  }

  lemma GateRunSnoc(requested: RequestedMax, events: seq<GateEvent>, last: GateEvent)
    requires GateRun(requested, events + [last]).Some?
    ensures GateRun(requested, events).Some?
    ensures GateStep(GateRun(requested, events).value, last) == GateRun(requested, events + [last])
  {
    assert (events + [last])[..|events + [last]| - 1] == events;
  }

  /** Progress: from any reachable state, under any schedule that enqueues nothing more, each
      completion uses up the measure, so there are at most `Measure` of them; and once no begun
      transfer is outstanding, the queue is drained and every enqueued transfer is settled. */
  lemma QueueDrains(requested: RequestedMax, events: seq<GateEvent>, later: seq<GateEvent>)
    requires GateRun(requested, events).Some? && GateRun(requested, events + later).Some?
    requires forall k :: 0 <= k < |later| ==> !later[k].Enqueue?
    ensures var g, g' := GateRun(requested, events).value, GateRun(requested, events + later).value;
      && Completions(later) + Measure(g') <= Measure(g)
      && (g'.unfinished == {} ==>
            g'.queue == [] &&
            forall k :: 0 <= k < |g'.enqueued| ==>
              g'.enqueued[k] < |g'.transfers| && g'.transfers[g'.enqueued[k]].settled.Some?)
  {
    CompletionsUseMeasure(requested, events, later);
    RunKeepsInv(requested, events + later);
    var g' := GateRun(requested, events + later).value;
    if g'.unfinished == {} {
      DrainedMeansSettled(g');
    }
  }

  lemma {:induction false} CompletionsUseMeasure(requested: RequestedMax, events: seq<GateEvent>, later: seq<GateEvent>)
    requires GateRun(requested, events).Some? && GateRun(requested, events + later).Some?
    requires forall k :: 0 <= k < |later| ==> !later[k].Enqueue?
    ensures Completions(later) + Measure(GateRun(requested, events + later).value) <=
            Measure(GateRun(requested, events).value)
    decreases |later|
  {
    if later == [] {
      assert events + later == events;
    } else {
      var init, last := later[..|later| - 1], later[|later| - 1];
      assert events + later == (events + init) + [last];
      GateRunSnoc(requested, events + init, last);
      CompletionsUseMeasure(requested, events, init);
      StepUsesMeasure(GateRun(requested, events + init).value, last);
    }
  }

  lemma DrainedMeansSettled(g: Gate)
    requires GateInv(g) && Pumped(g) && g.unfinished == {}
    ensures g.queue == []
    ensures forall k :: 0 <= k < |g.enqueued| ==> g.transfers[g.enqueued[k]].settled.Some?
  {
    forall k | 0 <= k < |g.enqueued|
      ensures g.transfers[g.enqueued[k]].settled.Some?
    {
      assert TransferInv(g, g.enqueued[k]);
    }
  }

  /** Closing the endpoint settles every queued transfer as cancelled, begins none of them and
      leaves every other transfer alone. */
  lemma CloseSettlesTheQueue(requested: RequestedMax, events: seq<GateEvent>, i: nat)
    requires GateRun(requested, events).Some? && i < |GateRun(requested, events).value.transfers|
    ensures var g := GateRun(requested, events).value;
      var g' := GateStep(g, CloseEndpoint).value;
      && g'.queue == [] && g'.begun == g.begun && g'.log == g.log
      && (i in g.queue ==>
            g'.transfers[i].settled == Some(Failed(CANCELLED_IN_QUEUE)) && !g'.transfers[i].started)
      && (i !in g.queue ==> g'.transfers[i] == g.transfers[i])
  {
    RunKeepsInv(requested, events);
    var g := GateRun(requested, events).value;
    CancelEachSpec(g.transfers, g.queue);
    assert TransferInv(g, i);
  }

  // ---------------------------------------------------------------- the class

  class DownloadQueue {
    const maxConcurrentDownloads: Option<nat>
    var transfers: seq<Transfer>
    var downloadQueue: seq<nat>
    var activeDownloads: nat
    ghost var unfinished: set<nat>
    ghost var enqueued: seq<nat>
    ghost var begun: seq<nat>
    var log: seq<NativeCall>

    constructor (requested: RequestedMax)
      ensures State() == NewGate(requested)
    {
      maxConcurrentDownloads := NormaliseCap(requested);
      transfers, downloadQueue, activeDownloads, log := [], [], 0, [];
      unfinished, enqueued, begun := {}, [], [];
    }

    ghost function State(): Gate
      reads this
    {
      Gate(maxConcurrentDownloads, transfers, downloadQueue, activeDownloads, unfinished, enqueued, begun, log)
    }

    method PumpDownloads()
      requires QueueInRange(State())
      modifies this
      ensures State() == Pump(old(State()))
    {
      while (maxConcurrentDownloads.None? || activeDownloads < maxConcurrentDownloads.value) && downloadQueue != []
        invariant QueueInRange(State())
        invariant Pump(State()) == Pump(old(State()))
        decreases |downloadQueue|
      {
        ghost var before := State();
        var next := downloadQueue[0];
        downloadQueue := downloadQueue[1..];
        if transfers[next].settled.None? {
          activeDownloads := activeDownloads + 1;
          transfers := transfers[next := Begun(transfers[next]).0];
          log := log + [StartNative(next)];
          unfinished, begun := unfinished + {next}, begun + [next];
        }
        assert State() == PumpOne(before);
      }
    }

    method EnqueueDownload(transfer: nat)
      requires QueueInRange(State()) && transfer < |transfers| && transfer !in enqueued
      modifies this
      ensures Some(State()) == GateStep(old(State()), Enqueue(transfer))
    {
      downloadQueue := downloadQueue + [transfer];
      enqueued := enqueued + [transfer];
      PumpDownloads();
    }

    /** The continuation of `begin()`. */
    method OnDownloadSettled(transfer: nat)
      requires QueueInRange(State()) && transfer < |transfers| && transfer in unfinished
      requires transfers[transfer].settled.Some? && activeDownloads > 0
      modifies this
      ensures Some(State()) == GateStep(old(State()), Complete(transfer))
    {
      activeDownloads := activeDownloads - 1;
      unfinished := unfinished - {transfer};
      PumpDownloads();
    }

    /** The queue's part of `close()`. */
    method CancelQueued()
      requires QueueInRange(State())
      modifies this
      ensures Some(State()) == GateStep(old(State()), CloseEndpoint)
    {
      var queued := downloadQueue;
      downloadQueue := [];
      for i := 0 to |queued|
        invariant State() == old(State()).(queue := [], transfers := transfers)
        invariant |transfers| == |old(transfers)|
        invariant CancelEach(transfers, queued[i..]) == CancelEach(old(transfers), queued)
      {
        assert queued[i..] == [queued[i]] + queued[i + 1..];
        transfers := transfers[queued[i] := Cancelled(transfers[queued[i]])];
      }
    }
  }
}
