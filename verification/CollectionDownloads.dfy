/** A collection and its children in the endpoint's download queue (`downloadCollection` in
    `src/endpoint.ts`, `CollectionTransferController` in `src/transfer.ts`): each child is one
    transfer of the queue, started, cancelled and settled there. */
module CollectionDownloads {
  import opened Base
  import opened Errors
  import opened Downloads
  import Whole = Collections

  /** `children` gives the number of each child among the endpoint's transfers. */
  datatype Fleet = Fleet(whole: Whole.Collection, gate: Gate, children: seq<nat>)

  datatype FleetEvent =
    | Manifest(startFails: seq<Option<IrohError>>)
    | ManifestFails(error: IrohError)
    | ChildReports(child: nat, bytes: nat)
    | ChildSettles(child: nat)       // the continuation of the child's promise
    | CancelAll
    | Elsewhere(event: GateEvent)    // whatever else happens in the queue

  function NewFleet(requested: RequestedMax): Fleet
  {
    Fleet(Whole.NewCollection(), NewGate(requested), [])
  }

  function GateAfter(g: Gate, events: seq<GateEvent>): Option<Gate>
  {
    if events == [] then Some(g)
    else
      var before := GateAfter(g, events[..|events| - 1]);
      if before.None? then None else GateStep(before.value, events[|events| - 1])
  }

  /** Creating and enqueueing one transfer for each entry of the manifest. */
  function StartMoves(base: nat, startFails: seq<Option<IrohError>>): seq<GateEvent>
  {
    if startFails == [] then []
    else
      var init := startFails[..|startFails| - 1];
      StartMoves(base, init) + [Create(startFails[|startFails| - 1])] + [Enqueue(base + |init|)]
  }

  /** Cancelling each of these transfers. */
  function CancelMoves(children: seq<nat>): seq<GateEvent>
  {
    if children == [] then []
    else CancelMoves(children[..|children| - 1]) + [Cancel(children[|children| - 1])]
  }

  function Numbered(base: nat, count: nat): (r: seq<nat>)
    ensures |r| == count && forall i :: 0 <= i < count ==> r[i] == base + i
  {
    seq(count, i => base + i)
  }

  predicate Running(f: Fleet, child: nat)
  {
    child < |f.children| && f.children[child] < |f.gate.transfers| &&
    f.gate.transfers[f.children[child]].started && f.gate.transfers[f.children[child]].settled.None?
  }

  predicate HasSettled(f: Fleet, child: nat)
  {
    child < |f.children| && f.children[child] < |f.gate.transfers| &&
    f.gate.transfers[f.children[child]].settled.Some?
  }

  function Verdict(child: nat, outcome: Settlement): Whole.Happening
  {
    match outcome
    case Completed => Whole.ChildDone(child)
    case Failed(error) => Whole.ChildFails(child, error)
  }

  /** What the collection hears, if an event concerns it; a child settles with its transfer's own
      outcome. */
  function Heard(f: Fleet, e: FleetEvent): seq<Whole.Happening>
  {
    match e
    case Manifest(startFails) => [Whole.Manifest(|startFails|)]
    case ManifestFails(error) => [Whole.ManifestFails(error)]
    case ChildReports(i, bytes) => [Whole.Progress(i, bytes)]
    case ChildSettles(i) =>
      if !HasSettled(f, i) then []
      else [Verdict(i, f.gate.transfers[f.children[i]].settled.value)]
    case CancelAll => [Whole.CancelAll]
    case Elsewhere(_) => []
  }

  /** What the event makes the download queue do. */
  function Moves(f: Fleet, e: FleetEvent): seq<GateEvent>
  {
    match e
    case Elsewhere(event) => [event]
    case Manifest(startFails) =>
      if f.whole.cancelRequested || f.whole.settled.Some? then [] else StartMoves(|f.gate.transfers|, startFails)
    case _ =>
      if Heard(f, e) != [] && Whole.CancelsChildren(f.whole, Heard(f, e)[0]) then CancelMoves(f.children) else []
  }

  /** The state after an event, or `None` when it cannot happen. */
  function FleetStep(f: Fleet, e: FleetEvent): Option<Fleet>
  {
    if (e.ChildReports? && !Running(f, e.child)) || (e.ChildSettles? && !HasSettled(f, e.child)) then None
    else
      var whole := if Heard(f, e) == [] then Some(f.whole) else Whole.Then(f.whole, Heard(f, e)[0]);
      var gate := GateAfter(f.gate, Moves(f, e));
      if whole.None? || gate.None? then None
      else
        Some(Fleet(whole.value, gate.value,
                   if e.Manifest? && whole.value.childrenStarted then Numbered(|f.gate.transfers|, |e.startFails|)
                   else f.children))
  }

  function FleetRun(requested: RequestedMax, events: seq<FleetEvent>): Option<Fleet>
  {
    if events == [] then Some(NewFleet(requested))
    else
      var before := FleetRun(requested, events[..|events| - 1]);
      if before.None? then None else FleetStep(before.value, events[|events| - 1])
  }

  // ---------------------------------------------------------------- what the queue never takes back

  /** A later state of a transfer. */
  predicate Later(t: Transfer, t': Transfer)
  {
    && (t.settled.Some? ==> t'.settled == t.settled)
    && (t.cancelRequested ==> t'.cancelRequested)
    && (t.started ==> t'.started)
    && (t.settled.Some? && !t.started ==> !t'.started)
    && t'.startFails == t.startFails
  }

  predicate LaterAt(g: Gate, g': Gate, k: nat)
  {
    k < |g.transfers| && k < |g'.transfers| && Later(g.transfers[k], g'.transfers[k])
  }

  ghost predicate AllLater(g: Gate, g': Gate)
  {
    && |g.transfers| <= |g'.transfers| && g.enqueued <= g'.enqueued
    && forall k: nat :: k < |g.transfers| ==> LaterAt(g, g', k)
  }

  lemma AllLaterTransitive(g: Gate, g': Gate, g'': Gate)
    requires AllLater(g, g') && AllLater(g', g'')
    ensures AllLater(g, g'')
  {
    forall k: nat | k < |g.transfers|
      ensures LaterAt(g, g'', k)
    {
      assert LaterAt(g, g', k) && LaterAt(g', g'', k);
    }
  }

  lemma {:induction false} PumpIsLater(g: Gate)
    ensures AllLater(g, Pump(g)) && |Pump(g).transfers| == |g.transfers|
    decreases |g.queue|
  {
    if SlotFree(g) && g.queue != [] {
      PumpIsLater(PumpOne(g));
      AllLaterTransitive(g, PumpOne(g), Pump(g));
    }
  }

  lemma GateStepIsLater(g: Gate, e: GateEvent)
    requires GateStep(g, e).Some?
    ensures AllLater(g, GateStep(g, e).value)
  {
    match e {
      case Enqueue(i) => QueueingIsLater(g, g.(queue := g.queue + [i], enqueued := g.enqueued + [i]));
      case Complete(i) => QueueingIsLater(g, g.(active := g.active - 1, unfinished := g.unfinished - {i}));
      case CloseEndpoint => ClosingIsLater(g);
      case _ =>
    }
  }

  lemma QueueingIsLater(g: Gate, g': Gate)
    requires g'.transfers == g.transfers && g.enqueued <= g'.enqueued
    ensures AllLater(g, Pump(g'))
  {
    PumpIsLater(g');
    AllLaterTransitive(g, g', Pump(g'));
  }

  lemma ClosingIsLater(g: Gate)
    ensures AllLater(g, g.(queue := [], transfers := CancelEach(g.transfers, g.queue)))
  {
    CancelEachSpec(g.transfers, g.queue);
  }

  ghost predicate GateOk(g: Gate)
  {
    GateInv(g) && CancelsMatch(g)
  }

  lemma GateStepKeeps(g: Gate, e: GateEvent)
    requires GateOk(g) && GateStep(g, e).Some?
    ensures GateOk(GateStep(g, e).value)
  {
    StepKeepsInv(g, e);
    StepKeepsCancels(g, e);
  }

  lemma {:induction false} GateAfterKeeps(g: Gate, events: seq<GateEvent>)
    requires GateOk(g) && GateAfter(g, events).Some?
    ensures GateOk(GateAfter(g, events).value) && AllLater(g, GateAfter(g, events).value)
  {
    if events != [] {
      var init, last := events[..|events| - 1], events[|events| - 1];
      GateAfterKeeps(g, init);
      var g' := GateAfter(g, init).value;
      GateStepKeeps(g', last);
      GateStepIsLater(g', last);
      AllLaterTransitive(g, g', GateStep(g', last).value);
    }
  }

  /** Cancelled, one way or the other: it is settled, or native will hear of it. */
  predicate Doomed(g: Gate, k: nat)
  {
    k < |g.transfers| && (g.transfers[k].settled.Some? || g.transfers[k].cancelRequested)
  }

  predicate DidComplete(g: Gate, k: nat)
  {
    k < |g.transfers| && g.transfers[k].settled == Some(Completed)
  }

  /** What a cancellation comes to: a transfer that had not started never runs and fails as
      cancelled; one that had is over, or native has been told as soon as its id was known. */
  predicate CancelTakesHold(g: Gate, k: nat)
  {
    k < |g.transfers| &&
    var t := g.transfers[k];
    if !t.started then t.settled == Some(Failed(CANCELLED_IN_QUEUE)) && k !in Starts(g.log)
    else
      t.settled.Some? ||
      (t.cancelRequested && (t.nativeId.Some? ==> CancelNative(t.nativeId.value) in g.log))
  }

  lemma DoomedTakesHold(g: Gate, k: nat)
    requires GateOk(g) && Doomed(g, k)
    ensures CancelTakesHold(g, k)
  {
    assert TransferInv(g, k);
    if g.transfers[k].nativeId.Some? && g.transfers[k].cancelRequested {
      assert OwedCancel(g.transfers[k]).Some?;
    }
  }

  lemma GateSnoc(g: Gate, events: seq<GateEvent>, e: GateEvent)
    requires GateAfter(g, events).Some?
    ensures GateAfter(g, events + [e]) == GateStep(GateAfter(g, events).value, e)
  {
    assert (events + [e])[..|events + [e]| - 1] == events;
  }

  ghost predicate AllDoomed(g: Gate, children: seq<nat>)
  {
    forall i :: 0 <= i < |children| ==> Doomed(g, children[i])
  }

  lemma CancelDooms(g: Gate, k: nat)
    requires k < |g.transfers|
    ensures var g' := GateStep(g, Cancel(k)).value; |g'.transfers| == |g.transfers| && Doomed(g', k)
  {
  }

  lemma {:induction false} CancelMovesDoom(g: Gate, children: seq<nat>)
    requires forall i :: 0 <= i < |children| ==> children[i] < |g.transfers|
    ensures GateAfter(g, CancelMoves(children)).Some?
    ensures var g' := GateAfter(g, CancelMoves(children)).value;
      |g'.transfers| == |g.transfers| && AllDoomed(g', children)
  {
    if children != [] {
      var init, last := children[..|children| - 1], children[|children| - 1];
      CancelMovesDoom(g, init);
      var g' := GateAfter(g, CancelMoves(init)).value;
      GateSnoc(g, CancelMoves(init), Cancel(last));
      CancelDooms(g', last);
      GateStepIsLater(g', Cancel(last));
      DoomLasts(g', GateStep(g', Cancel(last)).value, init);
      assert children == init + [last];
    }
  }

  lemma DoomLasts(g: Gate, g': Gate, children: seq<nat>)
    requires AllLater(g, g') && AllDoomed(g, children)
    ensures AllDoomed(g', children)
  {
    forall i | 0 <= i < |children|
      ensures Doomed(g', children[i])
    {
      assert Doomed(g, children[i]) && LaterAt(g, g', children[i]);
    }
  }

  ghost predicate EnqueuedExist(g: Gate)
  {
    forall i :: i in g.enqueued ==> i < |g.transfers|
  }

  lemma {:induction false} PumpKeepsEnqueued(g: Gate)
    ensures Pump(g).enqueued == g.enqueued
    decreases |g.queue|
  {
    if SlotFree(g) && g.queue != [] {
      PumpKeepsEnqueued(PumpOne(g));
    }
  }

  /** A fresh transfer can be created and enqueued at once, whatever the queue looks like. */
  lemma StartOne(g: Gate, startFails: Option<IrohError>)
    requires EnqueuedExist(g)
    ensures var g1 := GateStep(g, Create(startFails)).value;
      var g2 := GateStep(g1, Enqueue(|g.transfers|));
      && g2.Some? && |g2.value.transfers| == |g.transfers| + 1 && EnqueuedExist(g2.value)
  {
    var n := |g.transfers|;
    var g1 := GateStep(g, Create(startFails)).value;
    PumpIsLater(g1.(queue := g1.queue + [n], enqueued := g1.enqueued + [n]));
    PumpKeepsEnqueued(g1.(queue := g1.queue + [n], enqueued := g1.enqueued + [n]));
  }

  ghost predicate LeadsTo(g: Gate, moves: seq<GateEvent>, count: nat)
  {
    var after := GateAfter(g, moves);
    after.Some? && EnqueuedExist(after.value) && |after.value.transfers| == count
  }

  lemma StartAnother(g: Gate, moves: seq<GateEvent>, count: nat, startFails: Option<IrohError>)
    requires LeadsTo(g, moves, count)
    ensures LeadsTo(g, moves + [Create(startFails)] + [Enqueue(count)], count + 1)
  {
    StartOne(GateAfter(g, moves).value, startFails);
    GateSnoc(g, moves, Create(startFails));
    GateSnoc(g, moves + [Create(startFails)], Enqueue(count));
  }

  /** Every entry of the manifest can be started. */
  lemma {:induction false} StartMovesArePossible(g: Gate, base: nat, startFails: seq<Option<IrohError>>)
    requires EnqueuedExist(g) && base == |g.transfers|
    ensures LeadsTo(g, StartMoves(base, startFails), base + |startFails|)
  {
    if startFails == [] {
      assert GateAfter(g, StartMoves(base, [])) == Some(g);
    } else {
      var init := startFails[..|startFails| - 1];
      StartMovesArePossible(g, base, init);
      StartAnother(g, StartMoves(base, init), base + |init|, startFails[|startFails| - 1]);
    }
  }

  // ---------------------------------------------------------------- the invariant

  /** A collection that is failing takes its children with it. */
  ghost predicate Failing(c: Whole.Collection)
  {
    c.cancelRequested || (c.settled.Some? && c.settled.value.Failed?)
  }

  ghost predicate ChildrenOk(f: Fleet)
  {
    && |f.children| == |f.whole.files| == |f.whole.finished|
    && (!f.whole.childrenStarted ==> f.children == [])
    && (f.whole.childrenStarted ==> f.whole.manifestArrived)
    && (forall i :: 0 <= i < |f.children| ==> f.children[i] < |f.gate.transfers|)
  }

  ghost predicate DoneOk(f: Fleet)
    requires ChildrenOk(f)
  {
    && (forall i :: 0 <= i < |f.children| && f.whole.files[i].done ==> DidComplete(f.gate, f.children[i]))
    && (f.whole.settled == Some(Completed) ==> Whole.AllDone(f.whole.files))
  }

  /** What ties a collection to the transfers it started. */
  ghost predicate Linked(f: Fleet)
  {
    ChildrenOk(f) && DoneOk(f) && (Failing(f.whole) ==> AllDoomed(f.gate, f.children))
  }

  ghost predicate FleetInv(f: Fleet)
  {
    GateOk(f.gate) && Linked(f)
  }

  lemma LaterKeepsLinked(f: Fleet, g: Gate)
    requires Linked(f) && AllLater(f.gate, g)
    ensures Linked(f.(gate := g))
  {
    if Failing(f.whole) {
      DoomLasts(f.gate, g, f.children);
    }
    forall i | 0 <= i < |f.children| && f.whole.files[i].done
      ensures DidComplete(g, f.children[i])
    {
      assert DidComplete(f.gate, f.children[i]) && LaterAt(f.gate, g, f.children[i]);
    }
  }

  /** What an event other than the manifest's arrival does to the collection itself. */
  lemma WholeChange(c: Whole.Collection, h: Whole.Happening)
    requires Whole.Then(c, h).Some? && !h.Manifest?
    ensures var c' := Whole.Then(c, h).value;
      && c'.childrenStarted == c.childrenStarted && (c.manifestArrived ==> c'.manifestArrived)
      && |c'.files| == |c.files| && |c'.finished| == |c.finished|
      && (forall k :: 0 <= k < |c.files| ==> c'.files[k].done == (c.files[k].done || h == Whole.ChildDone(k)))
      && (Failing(c') ==> Failing(c) || Whole.CancelsChildren(c, h) || !c.manifestArrived)
      && (c'.settled == Some(Completed) ==> c.settled == Some(Completed) || Whole.AllDone(c'.files))
  {
  }

  lemma ChangeKeepsLinked(f: Fleet, h: Whole.Happening)
    requires Linked(f) && Whole.Then(f.whole, h).Some? && !h.Manifest?
    requires h.ChildDone? && h.child < |f.children| ==> DidComplete(f.gate, f.children[h.child])
    requires Whole.CancelsChildren(f.whole, h) ==> AllDoomed(f.gate, f.children)
    ensures Linked(f.(whole := Whole.Then(f.whole, h).value))
  {
    WholeChange(f.whole, h);
    var f' := f.(whole := Whole.Then(f.whole, h).value);
    assert ChildrenOk(f');
    if f.whole.settled == Some(Completed) {
      assert Whole.AllDone(f'.whole.files);
    }
  }

  lemma ManifestKeepsLinked(f: Fleet, g: Gate, count: nat)
    requires Linked(f) && AllLater(f.gate, g) && Whole.Then(f.whole, Whole.Manifest(count)).Some?
    requires !f.whole.cancelRequested && f.whole.settled.None? && |g.transfers| == |f.gate.transfers| + count
    ensures Linked(Fleet(Whole.Then(f.whole, Whole.Manifest(count)).value, g,
                         Numbered(|f.gate.transfers|, count)))
  {
  }

  /** What the queue has done by the end of an event. */
  lemma QueueMoves(f: Fleet, e: FleetEvent)
    requires GateOk(f.gate) && FleetStep(f, e).Some?
    ensures var g := FleetStep(f, e).value.gate; GateOk(g) && AllLater(f.gate, g)
  {
    GateAfterKeeps(f.gate, Moves(f, e));
  }

  lemma CancellingDooms(f: Fleet, e: FleetEvent)
    requires Linked(f) && FleetStep(f, e).Some?
    requires Heard(f, e) != [] && Whole.CancelsChildren(f.whole, Heard(f, e)[0])
    ensures AllDoomed(FleetStep(f, e).value.gate, f.children)
  {
    CancelMovesDoom(f.gate, f.children);
  }

  /** The parts of a step that starts no children. */
  lemma StepParts(f: Fleet, e: FleetEvent)
    requires Linked(f) && FleetStep(f, e).Some? && !e.Manifest?
    ensures FleetStep(f, e).value.children == f.children
    ensures Heard(f, e) == [] ==> FleetStep(f, e).value.whole == f.whole
    ensures Heard(f, e) != [] ==>
      var h := Heard(f, e)[0];
      && !h.Manifest? && Whole.Then(f.whole, h) == Some(FleetStep(f, e).value.whole)
      && (h.ChildDone? ==> h.child < |f.children| && DidComplete(f.gate, f.children[h.child]))
  {
  }

  lemma HearingKeepsLinked(f: Fleet, g: Gate, h: Whole.Happening)
    requires Linked(f) && AllLater(f.gate, g) && Whole.Then(f.whole, h).Some? && !h.Manifest?
    requires h.ChildDone? ==> h.child < |f.children| && DidComplete(f.gate, f.children[h.child])
    requires Whole.CancelsChildren(f.whole, h) ==> AllDoomed(g, f.children)
    ensures Linked(Fleet(Whole.Then(f.whole, h).value, g, f.children))
  {
    LaterKeepsLinked(f, g);
    if h.ChildDone? {
      assert LaterAt(f.gate, g, f.children[h.child]);
    }
    ChangeKeepsLinked(f.(gate := g), h);
  }

  lemma EventKeepsLinked(f: Fleet, e: FleetEvent)
    requires Linked(f) && FleetStep(f, e).Some? && !e.Manifest?
    requires AllLater(f.gate, FleetStep(f, e).value.gate)
    ensures Linked(FleetStep(f, e).value)
  {
    StepParts(f, e);
    var f' := FleetStep(f, e).value;
    if Heard(f, e) == [] {
      LaterKeepsLinked(f, f'.gate);
      assert f' == f.(gate := f'.gate);
    } else {
      var h := Heard(f, e)[0];
      if Whole.CancelsChildren(f.whole, h) {
        CancellingDooms(f, e);
      }
      HearingKeepsLinked(f, f'.gate, h);
      assert f' == Fleet(Whole.Then(f.whole, h).value, f'.gate, f.children);
    }
  }

  lemma ManifestKeepsFleet(f: Fleet, startFails: seq<Option<IrohError>>)
    requires FleetInv(f) && FleetStep(f, Manifest(startFails)).Some?
    ensures Linked(FleetStep(f, Manifest(startFails)).value)
  {
    if !f.whole.cancelRequested && f.whole.settled.None? {
      StartMovesArePossible(f.gate, |f.gate.transfers|, startFails);
      GateAfterKeeps(f.gate, StartMoves(|f.gate.transfers|, startFails));
      ManifestKeepsLinked(f, FleetStep(f, Manifest(startFails)).value.gate, |startFails|);
    }
  }

  lemma StepKeepsFleet(f: Fleet, e: FleetEvent)
    requires FleetInv(f) && FleetStep(f, e).Some?
    ensures FleetInv(FleetStep(f, e).value)
  {
    QueueMoves(f, e);
    if e.Manifest? {
      ManifestKeepsFleet(f, e.startFails);
    } else {
      EventKeepsLinked(f, e);
    }
  }

  lemma {:induction false} FleetRunKeepsInv(requested: RequestedMax, events: seq<FleetEvent>)
    requires FleetRun(requested, events).Some?
    ensures FleetInv(FleetRun(requested, events).value)
  {
    if events == [] {
      NewGateInv(requested);
    } else {
      var init, last := events[..|events| - 1], events[|events| - 1];
      FleetRunKeepsInv(requested, init);
      StepKeepsFleet(FleetRun(requested, init).value, last);
    }
  }

  // ---------------------------------------------------------------- what every run guarantees

  /** No download is orphaned: in every reachable state of a collection that has failed or was
      cancelled, the cancellation has taken hold of each child that has not ended by itself. */
  lemma NoOrphanedDownloads(requested: RequestedMax, events: seq<FleetEvent>, i: nat)
    requires FleetRun(requested, events).Some?
    requires var f := FleetRun(requested, events).value; Failing(f.whole) && i < |f.children|
    ensures var f := FleetRun(requested, events).value; CancelTakesHold(f.gate, f.children[i])
  {
    FleetRunKeepsInv(requested, events);
    var f := FleetRun(requested, events).value;
    assert Doomed(f.gate, f.children[i]);
    DoomedTakesHold(f.gate, f.children[i]);
  }

  function FleetAfter(f: Fleet, later: seq<FleetEvent>): Option<Fleet>
  {
    if later == [] then Some(f)
    else
      var before := FleetAfter(f, later[..|later| - 1]);
      if before.None? then None else FleetStep(before.value, later[|later| - 1])
  }

  lemma {:induction false} FleetAfterKeeps(f: Fleet, later: seq<FleetEvent>)
    requires FleetInv(f) && FleetAfter(f, later).Some?
    ensures FleetInv(FleetAfter(f, later).value) && AllLater(f.gate, FleetAfter(f, later).value.gate)
  {
    if later != [] {
      var init, last := later[..|later| - 1], later[|later| - 1];
      FleetAfterKeeps(f, init);
      var f' := FleetAfter(f, init).value;
      QueueMoves(f', last);
      StepKeepsFleet(f', last);
      AllLaterTransitive(f.gate, f'.gate, FleetStep(f', last).value.gate);
    }
  }

  /** The failing child settles the collection with its own error. */
  lemma FailureIsPassedOn(f: Fleet, i: nat)
    requires Linked(f) && FleetStep(f, ChildSettles(i)).Some?
    requires f.whole.settled.None? && f.gate.transfers[f.children[i]].settled.value.Failed?
    ensures var f' := FleetStep(f, ChildSettles(i)).value;
      && f'.whole.settled == f.gate.transfers[f.children[i]].settled
      && f'.children == f.children && AllDoomed(f'.gate, f.children)
  {
    CancellingDooms(f, ChildSettles(i));
  }

  /** For good: over every continuation, a cancelled transfer that had not started never does,
      and every other one is over or still has its cancellation, which native hears of. */
  lemma DoomIsFinal(f: Fleet, later: seq<FleetEvent>, k: nat)
    requires FleetInv(f) && FleetAfter(f, later).Some? && Doomed(f.gate, k)
    ensures var g := FleetAfter(f, later).value.gate;
      CancelTakesHold(g, k) && g.transfers[k].started == f.gate.transfers[k].started
  {
    FleetAfterKeeps(f, later);
    var g := FleetAfter(f, later).value.gate;
    assert LaterAt(f.gate, g, k);
    DoomedTakesHold(f.gate, k);
    DoomedTakesHold(g, k);
  }

  /** A child whose failure fails the collection takes every sibling with it, over every later
      run: a sibling still in the queue never starts and fails as cancelled, and a running one
      has its native cancel issued as soon as its id is known. */
  lemma ChildErrorCancelsEveryone(requested: RequestedMax, events: seq<FleetEvent>, i: nat, later: seq<FleetEvent>, j: nat)
    requires FleetRun(requested, events).Some?
    requires var f := FleetRun(requested, events).value;
      && f.whole.settled.None? && j < |f.children| && FleetStep(f, ChildSettles(i)).Some?
      && f.gate.transfers[f.children[i]].settled.value.Failed?
      && FleetAfter(FleetStep(f, ChildSettles(i)).value, later).Some?
    ensures var f := FleetRun(requested, events).value;
      var f1 := FleetStep(f, ChildSettles(i)).value;
      var g := FleetAfter(f1, later).value.gate;
      && f1.whole.settled == f.gate.transfers[f.children[i]].settled
      && f1.children == f.children && f.children[j] < |f1.gate.transfers|
      && CancelTakesHold(g, f.children[j])
      && g.transfers[f.children[j]].started == f1.gate.transfers[f.children[j]].started
  {
    var f := FleetRun(requested, events).value;
    FleetRunKeepsInv(requested, events);
    StepKeepsFleet(f, ChildSettles(i));
    FailureIsPassedOn(f, i);
    var f1 := FleetStep(f, ChildSettles(i)).value;
    assert Doomed(f1.gate, f.children[j]);
    DoomIsFinal(f1, later, f.children[j]);
  }

  /** A collection resolves only when every child's own transfer completed. */
  lemma ResolvedMeansEveryChildCompleted(requested: RequestedMax, events: seq<FleetEvent>, i: nat)
    requires FleetRun(requested, events).Some?
    requires var f := FleetRun(requested, events).value;
      f.whole.settled == Some(Completed) && i < |f.children|
    ensures var f := FleetRun(requested, events).value;
      && f.children[i] < |f.gate.transfers|
      && f.gate.transfers[f.children[i]].settled == Some(Completed)
  {
    FleetRunKeepsInv(requested, events);
  }

  // ---------------------------------------------------------------- the children are the entries

  /** What the queue was made to do, event by event. */
  function AllMoves(requested: RequestedMax, events: seq<FleetEvent>): seq<GateEvent>
    requires FleetRun(requested, events).Some?
  {
    if events == [] then []
    else
      var init := events[..|events| - 1];
      AllMoves(requested, init) + Moves(FleetRun(requested, init).value, events[|events| - 1])
  }

  lemma {:induction false} MovesRunOn(requested: RequestedMax, before: seq<GateEvent>, moves: seq<GateEvent>)
    requires GateRun(requested, before).Some? && GateAfter(GateRun(requested, before).value, moves).Some?
    ensures GateRun(requested, before + moves) == GateAfter(GateRun(requested, before).value, moves)
  {
    if moves == [] {
      assert before + moves == before;
    } else {
      MovesRunOn(requested, before, moves[..|moves| - 1]);
      assert (before + moves)[..|before + moves| - 1] == before + moves[..|moves| - 1];
    }
  }

  /** The queue a collection downloads through is a run of the endpoint's queue, so everything
      proved of those holds of it: each child settles as its own download went. */
  lemma {:induction false} TheQueueIsAGateRun(requested: RequestedMax, events: seq<FleetEvent>)
    requires FleetRun(requested, events).Some?
    ensures GateRun(requested, AllMoves(requested, events)) == Some(FleetRun(requested, events).value.gate)
  {
    if events != [] {
      var init, last := events[..|events| - 1], events[|events| - 1];
      TheQueueIsAGateRun(requested, init);
      MovesRunOn(requested, AllMoves(requested, init), Moves(FleetRun(requested, init).value, last));
    }
  }

  /** The entry's own transfer, created for it and put in the queue. */
  predicate StartedFor(g: Gate, k: nat, startFails: Option<IrohError>)
  {
    k < |g.transfers| && g.transfers[k].startFails == startFails && k in g.enqueued
  }

  lemma StartedForStays(g: Gate, g': Gate, k: nat, startFails: Option<IrohError>)
    requires AllLater(g, g') && StartedFor(g, k, startFails)
    ensures StartedFor(g', k, startFails)
  {
    assert LaterAt(g, g', k);
    var i :| 0 <= i < |g.enqueued| && g.enqueued[i] == k;
    assert g'.enqueued[i] == k;
  }

  lemma StartOneStarts(g: Gate, startFails: Option<IrohError>)
    requires EnqueuedExist(g)
    ensures var g1 := GateStep(g, Create(startFails)).value;
      var g2 := GateStep(g1, Enqueue(|g.transfers|));
      g2.Some? && AllLater(g, g2.value) && StartedFor(g2.value, |g.transfers|, startFails)
  {
    var n := |g.transfers|;
    var g1 := GateStep(g, Create(startFails)).value;
    var g2 := g1.(queue := g1.queue + [n], enqueued := g1.enqueued + [n]);
    assert g2.enqueued[|g.enqueued|] == n;
    PumpIsLater(g2);
    assert LaterAt(g2, Pump(g2), n);
    AllLaterTransitive(g, g2, Pump(g2));
    PumpKeepsEnqueued(g2);
  }

  lemma StartAnotherStarts(g: Gate, moves: seq<GateEvent>, count: nat, startFails: Option<IrohError>)
    requires LeadsTo(g, moves, count)
    ensures var all := moves + [Create(startFails)] + [Enqueue(count)];
      && GateAfter(g, all).Some?
      && AllLater(GateAfter(g, moves).value, GateAfter(g, all).value)
      && StartedFor(GateAfter(g, all).value, count, startFails)
  {
    StartOneStarts(GateAfter(g, moves).value, startFails);
    GateSnoc(g, moves, Create(startFails));
    GateSnoc(g, moves + [Create(startFails)], Enqueue(count));
  }

  ghost predicate EachStarted(g: Gate, base: nat, entries: seq<Option<IrohError>>)
  {
    forall i: nat :: i < |entries| ==> StartedFor(g, base + i, entries[i])
  }

  lemma EachStartedOn(g: Gate, g': Gate, base: nat, init: seq<Option<IrohError>>, last: Option<IrohError>)
    requires AllLater(g, g') && EachStarted(g, base, init) && StartedFor(g', base + |init|, last)
    ensures EachStarted(g', base, init + [last])
  {
    forall i: nat | i < |init + [last]|
      ensures StartedFor(g', base + i, (init + [last])[i])
    {
      if i < |init| {
        StartedForStays(g, g', base + i, init[i]);
      }
    }
  }

  lemma {:induction false} EachEntryIsStarted(g: Gate, base: nat, entries: seq<Option<IrohError>>)
    requires EnqueuedExist(g) && base == |g.transfers|
    ensures LeadsTo(g, StartMoves(base, entries), base + |entries|)
    ensures EachStarted(GateAfter(g, StartMoves(base, entries)).value, base, entries)
  {
    StartMovesArePossible(g, base, entries);
    if entries != [] {
      var init, last := entries[..|entries| - 1], entries[|entries| - 1];
      EachEntryIsStarted(g, base, init);
      StartAnotherStarts(g, StartMoves(base, init), base + |init|, last);
      assert entries == init + [last];
      EachStartedOn(GateAfter(g, StartMoves(base, init)).value, GateAfter(g, StartMoves(base, entries)).value, base, init, last);
    }
  }

  /** The manifest that was acted on. */
  function Entries(requested: RequestedMax, events: seq<FleetEvent>): seq<Option<IrohError>>
    requires FleetRun(requested, events).Some?
  {
    if events == [] then []
    else
      var init, last := events[..|events| - 1], events[|events| - 1];
      var c := FleetRun(requested, init).value.whole;
      if last.Manifest? && !c.cancelRequested && c.settled.None? then last.startFails else Entries(requested, init)
  }

  ghost predicate ChildrenFor(f: Fleet, entries: seq<Option<IrohError>>)
  {
    && |f.children| == |entries| && NoDup(f.children)
    && forall i: nat :: i < |entries| ==> StartedFor(f.gate, f.children[i], entries[i])
  }

  lemma ManifestMoves(f: Fleet, entries: seq<Option<IrohError>>)
    requires !f.whole.cancelRequested && f.whole.settled.None?
    ensures Moves(f, Manifest(entries)) == StartMoves(|f.gate.transfers|, entries)
  {
  }

  lemma GateOfStep(f: Fleet, e: FleetEvent, moves: seq<GateEvent>)
    requires FleetStep(f, e).Some? && Moves(f, e) == moves
    ensures GateAfter(f.gate, moves) == Some(FleetStep(f, e).value.gate)
  {
  }

  lemma ChildrenOfStep(f: Fleet, entries: seq<Option<IrohError>>)
    requires FleetStep(f, Manifest(entries)).Some? && !f.whole.cancelRequested && f.whole.settled.None?
    ensures FleetStep(f, Manifest(entries)).value.children == Numbered(|f.gate.transfers|, |entries|)
  {
  }

  lemma NumberedAreFor(base: nat, g: Gate, entries: seq<Option<IrohError>>, f: Fleet)
    requires f.children == Numbered(base, |entries|) && f.gate == g && EachStarted(g, base, entries)
    ensures ChildrenFor(f, entries)
  {
    forall i: nat | i < |entries|
      ensures StartedFor(g, f.children[i], entries[i])
    {
      assert StartedFor(g, base + i, entries[i]);
    }
  }

  lemma ManifestStartsChildren(f: Fleet, entries: seq<Option<IrohError>>)
    requires EnqueuedExist(f.gate)
    requires FleetStep(f, Manifest(entries)).Some? && !f.whole.cancelRequested && f.whole.settled.None?
    ensures ChildrenFor(FleetStep(f, Manifest(entries)).value, entries)
  {
    ManifestMoves(f, entries);
    GateOfStep(f, Manifest(entries), StartMoves(|f.gate.transfers|, entries));
    ChildrenOfStep(f, entries);
    EachEntryIsStarted(f.gate, |f.gate.transfers|, entries);
    var f' := FleetStep(f, Manifest(entries)).value;
    NumberedAreFor(|f.gate.transfers|, f'.gate, entries, f');
  }

  lemma OtherEventsKeepChildren(f: Fleet, f': Fleet, entries: seq<Option<IrohError>>)
    requires ChildrenFor(f, entries) && AllLater(f.gate, f'.gate) && f'.children == f.children
    ensures ChildrenFor(f', entries)
  {
    forall i: nat | i < |entries|
      ensures StartedFor(f'.gate, f'.children[i], entries[i])
    {
      StartedForStays(f.gate, f'.gate, f.children[i], entries[i]);
    }
  }

  lemma ChildrenStay(f: Fleet, e: FleetEvent)
    requires Linked(f) && FleetStep(f, e).Some?
    requires !(e.Manifest? && !f.whole.cancelRequested && f.whole.settled.None?)
    ensures FleetStep(f, e).value.children == f.children
  {
  }

  /** The children of a collection are its manifest's entries, one each and in order: over every
      run child `i` is a transfer of its own, created for entry `i`, and it has joined the queue. */
  lemma {:induction false} ChildrenAreTheEntries(requested: RequestedMax, events: seq<FleetEvent>)
    requires FleetRun(requested, events).Some?
    ensures ChildrenFor(FleetRun(requested, events).value, Entries(requested, events))
  {
    if events != [] {
      var init, last := events[..|events| - 1], events[|events| - 1];
      ChildrenAreTheEntries(requested, init);
      FleetRunKeepsInv(requested, init);
      var f := FleetRun(requested, init).value;
      if last.Manifest? && !f.whole.cancelRequested && f.whole.settled.None? {
        ManifestStartsChildren(f, last.startFails);
      } else {
        QueueMoves(f, last);
        ChildrenStay(f, last);
        OtherEventsKeepChildren(f, FleetStep(f, last).value, Entries(requested, init));
      }
    }
  }

  /** A resolved collection has downloaded every entry: each entry's own download was started
      without an error and native code said that it completed. */
  lemma ResolvedMeansEveryEntryDownloaded(requested: RequestedMax, events: seq<FleetEvent>, i: nat)
    requires FleetRun(requested, events).Some?
    requires FleetRun(requested, events).value.whole.settled == Some(Completed) && i < |Entries(requested, events)|
    ensures var f := FleetRun(requested, events).value;
      && i < |f.children| && Entries(requested, events)[i] == None
      && NativeVerdict(AllMoves(requested, events), f.children[i]) == Some(Completed)
  {
    var f := FleetRun(requested, events).value;
    var moves := AllMoves(requested, events);
    ChildrenAreTheEntries(requested, events);
    ResolvedMeansEveryChildCompleted(requested, events, i);
    TheQueueIsAGateRun(requested, events);
    EventsNameOnlyCreated(requested, moves, f.children[i]);
    TransferSettlesAsItWent(requested, moves, f.children[i]);
    assert StartedFor(f.gate, f.children[i], Entries(requested, events)[i]);
  }

  /** The events as the collection sees them. */
  function Happenings(requested: RequestedMax, events: seq<FleetEvent>): seq<Whole.Happening>
    requires FleetRun(requested, events).Some?
  {
    if events == [] then []
    else
      var init := events[..|events| - 1];
      Happenings(requested, init) + Heard(FleetRun(requested, init).value, events[|events| - 1])
  }

  lemma WholeSnoc(happenings: seq<Whole.Happening>, h: Whole.Happening)
    requires Whole.After(happenings).Some?
    ensures Whole.After(happenings + [h]) == Whole.Then(Whole.After(happenings).value, h)
  {
    assert (happenings + [h])[..|happenings + [h]| - 1] == happenings;
  }

  /** An event is at most one happening to the collection, which takes exactly that step. */
  lemma StepIsHeard(f: Fleet, e: FleetEvent, before: seq<Whole.Happening>)
    requires FleetStep(f, e).Some? && Whole.After(before) == Some(f.whole)
    ensures Whole.After(before + Heard(f, e)) == Some(FleetStep(f, e).value.whole)
  {
    var heard := Heard(f, e);
    if heard == [] {
      assert before + heard == before;
    } else {
      assert heard == [heard[0]];
      WholeSnoc(before, heard[0]);
    }
  }

  /** So everything proved of every run of a collection holds of it here, where its children
      settle as their transfers do. */
  lemma {:induction false} FleetIsACollectionRun(requested: RequestedMax, events: seq<FleetEvent>)
    requires FleetRun(requested, events).Some?
    ensures Whole.After(Happenings(requested, events)) == Some(FleetRun(requested, events).value.whole)
  {
    if events != [] {
      var init, last := events[..|events| - 1], events[|events| - 1];
      FleetIsACollectionRun(requested, init);
      StepIsHeard(FleetRun(requested, init).value, last, Happenings(requested, init));
    }
  }
}
