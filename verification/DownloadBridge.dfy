/** One `download_blob` call as JavaScript sees it (`rust/iroh-rn-core/src/hybrid_iroh.rs`): the
    native transfer, the progress limiter and the single-use completer, interleaved. */
module DownloadBridge {
  import opened Base
  import Native = NativeTransfers
  import Limit = Coalescers

  datatype JsEvent = OnStart | Progress(bytes: nat) | Settled(outcome: Native.Outcome)

  /** `call` says what the native call returned. `promise` is the guarded option holding the
      completer, `offers` the progress the inner task reported, `heard` what JavaScript got. */
  datatype Call = Pending | Refused | Accepted

  datatype Bridge = Bridge(
    call: Call,
    startReported: bool,
    transfer: Native.Transfer,
    limiter: Limit.State,
    promise: bool,
    offers: seq<nat>,
    heard: seq<JsEvent>)

  datatype Event =
    | Refuse(message: string)                 // bad ticket or destination
    | Accept
    | ReportStart                             // `on_start`, after the driver was spawned
    | CancelSends
    | Offer(bytes: nat, now: nat)             // the inner task reports progress
    | Transfer(step: Native.Event, now: nat)  // the driver or the inner task moves

  function NewCall(): Bridge
  {
    Bridge(Pending, false, Native.NewTransfer(), Limit.Idle(), true, [], [])
  }

  function ProgressOf(e: Limit.Emission): seq<JsEvent>
  {
    [Progress(e.value)]
  }

  function Heard(out: seq<Limit.Emission>): seq<JsEvent>
  {
    FlatMap(ProgressOf, out)
  }

  /** Whichever path finds the completer consumes it. */
  function Settle(b: Bridge, outcome: Native.Outcome): Bridge
  {
    if b.promise then b.(promise := false, heard := b.heard + [Settled(outcome)]) else b
  }

  function Limited(b: Bridge, e: Limit.Event): Bridge
  {
    var (limiter, out) := Limit.Step(b.limiter, Limit.PROGRESS_MIN_INTERVAL, e);
    b.(limiter := limiter, heard := b.heard + Heard(out))
  }

  /** The inner task can report progress from the moment it runs until it has ended; one that was
      aborted may still be in the middle of a report. */
  predicate MayReport(t: Native.Transfer)
  {
    !t.driver.Unspawned? && !t.work.Joined?
  }

  function Happen(b: Bridge, e: Event): Option<Bridge>
  {
    match e
    case Refuse(message) =>
      if b.call != Pending then None else Some(Settle(b.(call := Refused), Native.Failure(message)))
    case Accept => if b.call != Pending then None else Some(b.(call := Accepted))
    case ReportStart =>
      if b.call != Accepted || b.startReported then None
      else Some(b.(startReported := true, heard := b.heard + [OnStart]))
    case CancelSends =>
      if b.call != Accepted || !b.transfer.sender.Held? then None
      else Some(b.(transfer := b.transfer.(sender := Native.Sent, asked := true)))
    case Offer(bytes, now) =>
      if b.call != Accepted || !MayReport(b.transfer) then None
      else Some(Limited(b.(offers := b.offers + [bytes]), Limit.Offer(bytes, now)))
    case Transfer(step, now) =>
      if b.call != Accepted then None
      else
        var moved := Native.Advance(b.transfer, step);
        if moved.None? then None
        else if step.Complete? then
          Some(Settle(Limited(b.(transfer := moved.value), Limit.Flush(now)), moved.value.driver.outcome))
        else Some(b.(transfer := moved.value))
  }

  function After(events: seq<Event>): Option<Bridge>
  {
    if events == [] then Some(NewCall())
    else
      var before := After(events[..|events| - 1]);
      if before.None? then None else Happen(before.value, events[|events| - 1])
  }

  // ---------------------------------------------------------------- reading what was heard

  function SettlementOf(e: JsEvent): seq<Native.Outcome>
  {
    if e.Settled? then [e.outcome] else []
  }

  function BytesOf(e: JsEvent): seq<nat>
  {
    if e.Progress? then [e.bytes] else []
  }

  function Settlements(heard: seq<JsEvent>): seq<Native.Outcome> { FlatMap(SettlementOf, heard) }
  function Bytes(heard: seq<JsEvent>): seq<nat> { FlatMap(BytesOf, heard) }

  lemma {:induction false} HeardProjects(out: seq<Limit.Emission>)
    ensures Settlements(Heard(out)) == [] && Bytes(Heard(out)) == Limit.Values(out)
  {
    if out != [] {
      var init, last := out[..|out| - 1], out[|out| - 1];
      HeardProjects(init);
      FlatMapAppend(SettlementOf, Heard(init), [Progress(last.value)]);
      FlatMapAppend(BytesOf, Heard(init), [Progress(last.value)]);
      FlatMapOne(SettlementOf, Progress(last.value));
      FlatMapOne(BytesOf, Progress(last.value));
    }
  }

  lemma HeardMore(heard: seq<JsEvent>, more: seq<JsEvent>)
    ensures Settlements(heard + more) == Settlements(heard) + Settlements(more)
    ensures Bytes(heard + more) == Bytes(heard) + Bytes(more)
  {
    FlatMapAppend(SettlementOf, heard, more);
    FlatMapAppend(BytesOf, heard, more);
  }

  lemma HeardOne(e: JsEvent)
    ensures Settlements([e]) == SettlementOf(e) && Bytes([e]) == BytesOf(e)
  {
    FlatMapOne(SettlementOf, e);
    FlatMapOne(BytesOf, e);
  }

  // ---------------------------------------------------------------- the invariant

  /** Who has the promise, and what it has been settled with. */
  ghost predicate PromiseOk(b: Bridge)
  {
    && Native.TransferOk(b.transfer)
    && (b.promise <==> !b.call.Refused? && !b.transfer.driver.Finished?)
    && (!b.call.Accepted? ==> b.transfer == Native.NewTransfer() && b.offers == [])
    && (b.promise ==> Settlements(b.heard) == [])
    && (!b.promise ==> |Settlements(b.heard)| == 1)
    && (b.call.Accepted? && !b.promise ==> Settlements(b.heard) == b.transfer.completions)
    && (b.transfer.driver.Finished? && !b.transfer.driver.outcome.Cancelled? ==> b.limiter.pending.None?)
  }

  ghost predicate LimiterOk(b: Bridge)
  {
    Limit.Faithful(b.limiter, b.offers, Bytes(b.heard))
  }

  ghost predicate BridgeInv(b: Bridge)
  {
    PromiseOk(b) && LimiterOk(b)
  }

  lemma LimitedKeeps(b: Bridge, e: Limit.Event)
    requires Limit.Faithful(b.limiter, b.offers, Bytes(b.heard))
    ensures var b' := Limited(b, e);
      && Limit.Faithful(b'.limiter, b.offers + Limit.OfferOf(e), Bytes(b'.heard))
      && Settlements(b'.heard) == Settlements(b.heard)
      && (e.Flush? ==> b'.limiter.pending.None?)
  {
    var out := Limit.Step(b.limiter, Limit.PROGRESS_MIN_INTERVAL, e).1;
    HeardProjects(out);
    HeardMore(b.heard, Heard(out));
    Limit.StepKeepsFaithful(b.limiter, Limit.PROGRESS_MIN_INTERVAL, e, b.offers, Bytes(b.heard));
  }

  lemma SettleOnce(b: Bridge, outcome: Native.Outcome)
    requires b.promise && Settlements(b.heard) == []
    ensures Settlements(Settle(b, outcome).heard) == [outcome]
    ensures Bytes(Settle(b, outcome).heard) == Bytes(b.heard)
  {
    HeardMore(b.heard, [Settled(outcome)]);
    HeardOne(Settled(outcome));
  }

  lemma StartIsSilent(heard: seq<JsEvent>)
    ensures Settlements(heard + [OnStart]) == Settlements(heard) && Bytes(heard + [OnStart]) == Bytes(heard)
  {
    HeardMore(heard, [OnStart]);
    HeardOne(OnStart);
    assert Settlements(heard) + [] == Settlements(heard) && Bytes(heard) + [] == Bytes(heard);
  }

  lemma SettlingIsNoProgress(b: Bridge, outcome: Native.Outcome)
    ensures Bytes(Settle(b, outcome).heard) == Bytes(b.heard)
  {
    HeardMore(b.heard, [Settled(outcome)]);
    HeardOne(Settled(outcome));
    assert Bytes(b.heard) + [] == Bytes(b.heard);
  }

  lemma LimitedSettlesNothing(b: Bridge, e: Limit.Event)
    ensures Settlements(Limited(b, e).heard) == Settlements(b.heard)
  {
    var out := Limit.Step(b.limiter, Limit.PROGRESS_MIN_INTERVAL, e).1;
    HeardProjects(out);
    HeardMore(b.heard, Heard(out));
  }

  lemma EndKeepsPromise(b: Bridge, b': Bridge, step: Native.Event)
    requires PromiseOk(b) && b.call.Accepted? && step.Complete? && Native.Advance(b.transfer, step) == Some(b'.transfer)
    requires b'.call == b.call && b'.offers == b.offers && b'.limiter.pending.None? && !b'.promise
    requires Settlements(b'.heard) == [b'.transfer.driver.outcome]
    ensures PromiseOk(b')
  {
    Native.AdvanceKeepsOk(b.transfer, step);
  }

  lemma EndSettles(b: Bridge, step: Native.Event, now: nat)
    requires PromiseOk(b) && Happen(b, Transfer(step, now)).Some? && step.Complete?
    ensures var b' := Happen(b, Transfer(step, now)).value;
      && b'.transfer.driver.Finished?
      && Settlements(b'.heard) == [b'.transfer.driver.outcome] && !b'.promise
      && b'.call == b.call && b'.offers == b.offers && b'.limiter.pending.None?
  {
    var b1 := b.(transfer := Native.Advance(b.transfer, step).value);
    LimitedSettlesNothing(b1, Limit.Flush(now));
    SettleOnce(Limited(b1, Limit.Flush(now)), b1.transfer.driver.outcome);
  }

  lemma EndKeepsLimiter(b: Bridge, step: Native.Event, now: nat)
    requires LimiterOk(b) && Happen(b, Transfer(step, now)).Some? && step.Complete?
    ensures LimiterOk(Happen(b, Transfer(step, now)).value)
  {
    var b1 := b.(transfer := Native.Advance(b.transfer, step).value);
    assert b1.offers + Limit.OfferOf(Limit.Flush(now)) == b1.offers;
    LimitedKeeps(b1, Limit.Flush(now));
    SettlingIsNoProgress(Limited(b1, Limit.Flush(now)), b1.transfer.driver.outcome);
  }

  lemma OtherMoveKeepsPromise(b: Bridge, step: Native.Event, now: nat)
    requires PromiseOk(b) && Happen(b, Transfer(step, now)).Some? && !step.Complete?
    ensures PromiseOk(Happen(b, Transfer(step, now)).value)
  {
    Native.AdvanceKeepsOk(b.transfer, step);
  }

  lemma MoveKeepsInv(b: Bridge, step: Native.Event, now: nat)
    requires BridgeInv(b) && Happen(b, Transfer(step, now)).Some?
    ensures BridgeInv(Happen(b, Transfer(step, now)).value)
  {
    if step.Complete? {
      EndSettles(b, step, now);
      EndKeepsPromise(b, Happen(b, Transfer(step, now)).value, step);
      EndKeepsLimiter(b, step, now);
    } else {
      OtherMoveKeepsPromise(b, step, now);
    }
  }

  lemma RefuseKeepsInv(b: Bridge, message: string)
    requires BridgeInv(b) && Happen(b, Refuse(message)).Some?
    ensures BridgeInv(Happen(b, Refuse(message)).value)
  {
    SettleOnce(b.(call := Refused), Native.Failure(message));
  }

  lemma ReportStartKeepsInv(b: Bridge)
    requires BridgeInv(b) && Happen(b, ReportStart).Some?
    ensures BridgeInv(Happen(b, ReportStart).value)
  {
    StartIsSilent(b.heard);
  }

  lemma OfferKeepsInv(b: Bridge, bytes: nat, now: nat)
    requires BridgeInv(b) && Happen(b, Offer(bytes, now)).Some?
    ensures BridgeInv(Happen(b, Offer(bytes, now)).value)
  {
    LimitedKeeps(b, Limit.Offer(bytes, now));
    assert Limited(b.(offers := b.offers + [bytes]), Limit.Offer(bytes, now)) ==
           Limited(b, Limit.Offer(bytes, now)).(offers := b.offers + [bytes]);
  }

  lemma HappenKeepsInv(b: Bridge, e: Event)
    requires BridgeInv(b) && Happen(b, e).Some?
    ensures BridgeInv(Happen(b, e).value)
  {
    match e {
      case Refuse(message) => RefuseKeepsInv(b, message);
      case Accept =>
      case ReportStart => ReportStartKeepsInv(b);
      case CancelSends =>
      case Offer(bytes, now) => OfferKeepsInv(b, bytes, now);
      case Transfer(step, now) => MoveKeepsInv(b, step, now);
    }
  }

  lemma {:induction false} RunKeepsInv(events: seq<Event>)
    requires After(events).Some?
    ensures BridgeInv(After(events).value)
  {
    if events != [] {
      RunKeepsInv(events[..|events| - 1]);
      HappenKeepsInv(After(events[..|events| - 1]).value, events[|events| - 1]);
    }
  }

  /** The promise is settled by exactly one of the two paths and at most once: by the refusal, or
      by the native completion with that completion's own result. */
  lemma PromiseSettlesOnce(events: seq<Event>)
    requires After(events).Some?
    ensures var b := After(events).value;
      && |Settlements(b.heard)| <= 1
      && (|Settlements(b.heard)| == 1 <==> b.call.Refused? || b.transfer.driver.Finished?)
      && (b.call.Accepted? && Settlements(b.heard) != [] ==> Settlements(b.heard) == b.transfer.completions)
      && (b.call.Refused? ==> b.transfer.completions == [])
  {
    RunKeepsInv(events);
  }

  ghost predicate NewestHeard(b: Bridge)
  {
    && Subsequence(Bytes(b.heard), b.offers)
    && (b.offers != [] ==>
          Bytes(b.heard) != [] && Bytes(b.heard)[|Bytes(b.heard)| - 1] == b.offers[|b.offers| - 1])
  }

  predicate HeardLast(heard: seq<JsEvent>, e: JsEvent)
  {
    heard != [] && heard[|heard| - 1] == e
  }

  lemma NothingPendingIsNewest(b: Bridge)
    requires Limit.Faithful(b.limiter, b.offers, Bytes(b.heard)) && b.limiter.pending.None?
    ensures NewestHeard(b)
  {
  }

  lemma SettlingComesLast(b: Bridge, outcome: Native.Outcome)
    requires b.promise && NewestHeard(b)
    ensures var b' := Settle(b, outcome);
      NewestHeard(b') && HeardLast(b'.heard, Settled(outcome)) && !b'.promise && b'.offers == b.offers
  {
    HeardMore(b.heard, [Settled(outcome)]);
    HeardOne(Settled(outcome));
    assert Bytes(b.heard) + [] == Bytes(b.heard);
  }

  lemma FlushingIsNewest(b: Bridge, now: nat)
    requires Limit.Faithful(b.limiter, b.offers, Bytes(b.heard))
    ensures var b' := Limited(b, Limit.Flush(now)); NewestHeard(b') && b'.offers == b.offers && b'.promise == b.promise
  {
    LimitedKeeps(b, Limit.Flush(now));
    assert b.offers + Limit.OfferOf(Limit.Flush(now)) == b.offers;
    NothingPendingIsNewest(Limited(b, Limit.Flush(now)));
  }

  /** At the very moment the promise settles, cancelled or not, JavaScript has heard the last
      progress reported so far, and the settlement is what it hears next. */
  lemma LastProgressIsHeard(b: Bridge, h: nat, now: nat)
    requires BridgeInv(b) && Happen(b, Transfer(Native.Complete(h), now)).Some?
    ensures b.transfer.driver.Completing?
    ensures var b' := Happen(b, Transfer(Native.Complete(h), now)).value;
      && b'.offers == b.offers && NewestHeard(b')
      && HeardLast(b'.heard, Settled(b.transfer.driver.outcome)) && !b'.promise
  {
    var b1 := b.(transfer := Native.Advance(b.transfer, Native.Complete(h)).value);
    FlushingIsNewest(b1, now);
    SettlingComesLast(Limited(b1, Limit.Flush(now)), b.transfer.driver.outcome);
  }

  /** It stays the last progress heard exactly as long as the download was not cancelled: for a
      settled download, something can still change what was heard if and only if it was. */
  lemma ProgressEndsIffNotCancelled(b: Bridge)
    requires BridgeInv(b) && b.call.Accepted? && b.transfer.driver.Finished?
    ensures (exists e :: Happen(b, e).Some? && Bytes(Happen(b, e).value.heard) != Bytes(b.heard)) <==>
            b.transfer.driver.outcome == Native.Outcome.Cancelled
    ensures b.transfer.driver.outcome != Native.Outcome.Cancelled ==> NewestHeard(b)
  {
    if b.transfer.driver.outcome.Cancelled? {
      var now := if b.limiter.lastEmit.Some? then b.limiter.lastEmit.value + Limit.PROGRESS_MIN_INTERVAL else 0;
      CancelledMayReportLate(b, 0, now);
      HeardMore(b.heard, [Progress(0)]);
      HeardOne(Progress(0));
      var e := Offer(0, now);
      assert Bytes(Happen(b, e).value.heard) != Bytes(b.heard);
    } else {
      forall e | Happen(b, e).Some? ensures Bytes(Happen(b, e).value.heard) == Bytes(b.heard) {
        NoProgressAfterSettlement(b, e);
      }
    }
  }

  lemma FinishedTransferRests(t: Native.Transfer, step: Native.Event)
    requires Native.TransferOk(t) && t.driver.Finished? && !t.driver.outcome.Cancelled?
    ensures Native.Advance(t, step).None? && !MayReport(t)
  {
  }

  /** After an uncancelled download settled, what can still happen is the late report of the start
      and a cancel that comes too late. */
  lemma {:induction false} NoProgressAfterSettlement(b: Bridge, e: Event)
    requires BridgeInv(b) && Happen(b, e).Some?
    requires b.transfer.driver.Finished? && !b.transfer.driver.outcome.Cancelled?
    ensures e.ReportStart? || e.CancelSends?
    ensures Bytes(Happen(b, e).value.heard) == Bytes(b.heard)
    ensures Happen(b, e).value.transfer.driver == b.transfer.driver
  {
    FinishedTransferRests(b.transfer, if e.Transfer? then e.step else Native.Reserve);
    if e.ReportStart? {
      StartIsSilent(b.heard);
    }
  }

  /** After a cancel the promise does not speak last: the aborted task may still be reporting, and
      a value that is due crosses after the settlement. */
  lemma CancelledMayReportLate(b: Bridge, bytes: nat, now: nat)
    requires BridgeInv(b) && b.call.Accepted?
    requires b.transfer.driver.Finished? && b.transfer.driver.outcome == Native.Outcome.Cancelled
    requires Limit.Due(b.limiter, Limit.PROGRESS_MIN_INTERVAL, now)
    ensures Settlements(b.heard) == [Native.Outcome.Cancelled]
    ensures Happen(b, Offer(bytes, now)).Some?
    ensures Happen(b, Offer(bytes, now)).value.heard == b.heard + [Progress(bytes)]
  {
    var out := Limit.Step(b.limiter, Limit.PROGRESS_MIN_INTERVAL, Limit.Offer(bytes, now)).1;
    FlatMapOne(ProgressOf, out[0]);
  }

  lemma AfterSnoc(events: seq<Event>, e: Event)
    requires After(events).Some?
    ensures After(events + [e]) == Happen(After(events).value, e)
  {
    assert (events + [e])[..|events + [e]| - 1] == events;
  }

  function CancelSentRun(): seq<Event>
  {
    [] + [Accept] + [Transfer(Native.Spawn(1), 0)] + [CancelSends]
  }

  function CancelWonRun(): seq<Event>
  {
    CancelSentRun() + [Transfer(Native.SelectCancel(1), 0)] + [Transfer(Native.RemoveHandle(1), 0)]
  }

  /** A download of handle 1, cancelled at once, up to the settlement of its promise. */
  function CancelledRun(): seq<Event>
  {
    CancelWonRun() + [Transfer(Native.Complete(1), 0)]
  }

  function CancelledTransfer(driver: Native.Driver, work: Native.Work): Native.Transfer
  {
    Native.NewTransfer().(driver := driver, sender := Native.Sent, asked := true, work := work)
  }

  lemma CancelSentRunSelects()
    ensures After(CancelSentRun()) == Some(NewCall().(call := Accepted,
      transfer := CancelledTransfer(Native.Selecting, Native.Running)))
  {
    var r1 := [] + [Accept];
    AfterSnoc([], Accept);
    AfterSnoc(r1, Transfer(Native.Spawn(1), 0));
    AfterSnoc(r1 + [Transfer(Native.Spawn(1), 0)], CancelSends);
  }

  lemma CancelWonRunConcludes()
    ensures After(CancelWonRun()) == Some(NewCall().(call := Accepted,
      transfer := CancelledTransfer(Native.Completing(Native.Outcome.Cancelled), Native.Aborted)))
  {
    CancelSentRunSelects();
    AfterSnoc(CancelSentRun(), Transfer(Native.SelectCancel(1), 0));
    AfterSnoc(CancelSentRun() + [Transfer(Native.SelectCancel(1), 0)], Transfer(Native.RemoveHandle(1), 0));
  }

  lemma CancelledRunSettles()
    ensures After(CancelledRun()).Some?
    ensures var b := After(CancelledRun()).value;
      && b.call.Accepted? && b.transfer.driver == Native.Finished(Native.Outcome.Cancelled)
      && b.limiter == Limit.Idle() && b.heard == [Settled(Native.Outcome.Cancelled)]
  {
    CancelWonRunConcludes();
    AfterSnoc(CancelWonRun(), Transfer(Native.Complete(1), 0));
  }

  /** The witness, a whole run: progress is heard after the promise has rejected. */
  lemma ProgressAfterRejection()
    ensures var run := CancelledRun() + [Offer(7, 0)];
      After(run).Some? && After(run).value.heard == [Settled(Native.Outcome.Cancelled), Progress(7)]
  {
    CancelledRunSettles();
    RunKeepsInv(CancelledRun());
    CancelledMayReportLate(After(CancelledRun()).value, 7, 0);
    AfterSnoc(CancelledRun(), Offer(7, 0));
  }

  // ---------------------------------------------------------------- what the events say

  function RefusalOf(e: Event): seq<Native.Outcome>
  {
    if e.Refuse? then [Native.Failure(e.message)] else []
  }

  function Refusals(events: seq<Event>): seq<Native.Outcome> { FlatMap(RefusalOf, events) }

  /** What one event has the limiter do: the inner task's reports, and the flush at the end. */
  function LimiterUse(e: Event): seq<Limit.Event>
  {
    match e
    case Offer(bytes, now) => [Limit.Offer(bytes, now)]
    case Transfer(step, now) => if step.Complete? then [Limit.Flush(now)] else []
    case _ => []
  }

  function LimiterUses(events: seq<Event>): seq<Limit.Event> { FlatMap(LimiterUse, events) }

  function StartOf(e: Event): seq<JsEvent>
  {
    if e.ReportStart? then [OnStart] else []
  }

  function StartHeard(e: JsEvent): seq<JsEvent>
  {
    if e.OnStart? then [OnStart] else []
  }

  /** What one event settles the promise with. */
  ghost predicate Settling(b: Bridge, b': Bridge, said: seq<Native.Outcome>)
  {
    Settlements(b'.heard) == Settlements(b.heard) + said
  }

  lemma RefusingSettles(b: Bridge, message: string)
    requires PromiseOk(b) && b.call.Pending?
    ensures var b' := Settle(b.(call := Refused), Native.Failure(message));
      Settling(b, b', [Native.Failure(message)]) && b'.transfer == b.transfer
  {
    SettleOnce(b.(call := Refused), Native.Failure(message));
  }

  lemma CompletingSettles(b: Bridge, step: Native.Event, now: nat)
    requires PromiseOk(b) && Happen(b, Transfer(step, now)).Some? && step.Complete?
    ensures var b' := Happen(b, Transfer(step, now)).value;
      && b.transfer.completions == [] && Settlements(b.heard) == []
      && Settlements(b'.heard) == b'.transfer.completions
  {
    EndSettles(b, step, now);
  }

  lemma QuietlyOn(b: Bridge, e: Event)
    requires Happen(b, e).Some? && !e.Refuse? && !(e.Transfer? && e.step.Complete?)
    ensures Settling(b, Happen(b, e).value, []) && Happen(b, e).value.transfer.completions == b.transfer.completions
  {
    if e.ReportStart? {
      StartIsSilent(b.heard);
    } else if e.Offer? {
      LimitedSettlesNothing(b.(offers := b.offers + [e.bytes]), Limit.Offer(e.bytes, e.now));
    }
  }

  lemma StepSettles(b: Bridge, e: Event, refusals: seq<Native.Outcome>)
    requires PromiseOk(b) && Happen(b, e).Some?
    requires Settlements(b.heard) == refusals + b.transfer.completions
    ensures var b' := Happen(b, e).value;
      Settlements(b'.heard) == (refusals + RefusalOf(e)) + b'.transfer.completions
  {
    if e.Refuse? {
      RefusingSettles(b, e.message);
    } else if e.Transfer? && e.step.Complete? {
      CompletingSettles(b, e.step, e.now);
    } else {
      QuietlyOn(b, e);
    }
  }

  /** What the promise settles with: the refusal's own message, or the native completion. */
  lemma {:induction false} SettledAsRefusedOrCompleted(events: seq<Event>)
    requires After(events).Some?
    ensures var b := After(events).value;
      && Settlements(b.heard) == Refusals(events) + b.transfer.completions
      && |Refusals(events)| + |b.transfer.completions| <= 1
  {
    if events != [] {
      var init, last := events[..|events| - 1], events[|events| - 1];
      SettledAsRefusedOrCompleted(init);
      RunKeepsInv(init);
      StepSettles(After(init).value, last, Refusals(init));
    }
    RunKeepsInv(events);
  }

  ghost predicate LimitedSo(b: Bridge, uses: seq<Limit.Event>)
  {
    && b.limiter == Limit.Run(Limit.PROGRESS_MIN_INTERVAL, uses).0
    && Bytes(b.heard) == Limit.Values(Limit.Run(Limit.PROGRESS_MIN_INTERVAL, uses).1)
    && b.offers == Limit.Offers(uses)
  }

  lemma LimiterMoves(b: Bridge, e: Limit.Event, uses: seq<Limit.Event>)
    requires LimitedSo(b, uses)
    ensures LimitedSo(Limited(b.(offers := b.offers + Limit.OfferOf(e)), e), uses + [e])
  {
    var interval := Limit.PROGRESS_MIN_INTERVAL;
    var more := Limit.Step(b.limiter, interval, e).1;
    assert (uses + [e])[..|uses + [e]| - 1] == uses;
    FlatMapAppend(Limit.ValueOf, Limit.Run(interval, uses).1, more);
    HeardProjects(more);
    HeardMore(b.heard, Heard(more));
  }

  lemma StepLimits(b: Bridge, e: Event, uses: seq<Limit.Event>)
    requires Happen(b, e).Some? && LimitedSo(b, uses)
    ensures LimitedSo(Happen(b, e).value, uses + LimiterUse(e))
  {
    if LimiterUse(e) == [] {
      assert uses + LimiterUse(e) == uses;
    }
    match e {
      case Refuse(message) => SettlingIsNoProgress(b.(call := Refused), Native.Failure(message));
      case ReportStart => StartIsSilent(b.heard);
      case Offer(bytes, now) => LimiterMoves(b, Limit.Offer(bytes, now), uses);
      case Transfer(step, now) =>
        if step.Complete? {
          CompletingLimits(b, step, now, uses);
        }
      case _ =>
    }
  }

  lemma CompletingLimits(b: Bridge, step: Native.Event, now: nat, uses: seq<Limit.Event>)
    requires Happen(b, Transfer(step, now)).Some? && step.Complete? && LimitedSo(b, uses)
    ensures LimitedSo(Happen(b, Transfer(step, now)).value, uses + [Limit.Flush(now)])
  {
    var b1 := b.(transfer := Native.Advance(b.transfer, step).value);
    assert b1.(offers := b1.offers + Limit.OfferOf(Limit.Flush(now))) == b1;
    LimiterMoves(b1, Limit.Flush(now), uses);
    SettlingIsNoProgress(Limited(b1, Limit.Flush(now)), b1.transfer.driver.outcome);
  }

  /** The progress JavaScript hears is what the rate limiter lets out of the inner task's own
      reports, at their own instants, and of one flush at the end; so everything proved of every run
      of a limiter holds of it. */
  lemma {:induction false} ProgressIsALimiterRun(events: seq<Event>)
    requires After(events).Some?
    ensures LimitedSo(After(events).value, LimiterUses(events))
  {
    if events != [] {
      var init, last := events[..|events| - 1], events[|events| - 1];
      ProgressIsALimiterRun(init);
      StepLimits(After(init).value, last, LimiterUses(init));
    }
  }

  lemma {:induction false} ProgressStartsNothing(out: seq<Limit.Emission>)
    ensures FlatMap(StartHeard, Heard(out)) == []
  {
    if out != [] {
      var init, last := out[..|out| - 1], out[|out| - 1];
      ProgressStartsNothing(init);
      FlatMapSnoc(StartHeard, Heard(init), Progress(last.value));
      assert Heard(out) == Heard(init) + [Progress(last.value)];
    }
  }

  lemma StepStarts(b: Bridge, e: Event)
    requires Happen(b, e).Some?
    ensures FlatMap(StartHeard, Happen(b, e).value.heard) == FlatMap(StartHeard, b.heard) + StartOf(e)
  {
    match e {
      case Refuse(message) => FlatMapAppend(StartHeard, b.heard, Happen(b, e).value.heard[|b.heard|..]);
      case ReportStart => FlatMapSnoc(StartHeard, b.heard, OnStart);
      case Offer(bytes, now) => LimitedStarts(b, Limit.Offer(bytes, now));
      case Transfer(step, now) =>
        if step.Complete? {
          var b1 := Limited(b.(transfer := Native.Advance(b.transfer, step).value), Limit.Flush(now));
          LimitedStarts(b, Limit.Flush(now));
          if b1.promise {
            FlatMapSnoc(StartHeard, b1.heard, Settled(b1.transfer.driver.outcome));
          }
        }
      case _ =>
    }
  }

  lemma LimitedStarts(b: Bridge, e: Limit.Event)
    ensures FlatMap(StartHeard, Limited(b, e).heard) == FlatMap(StartHeard, b.heard)
  {
    var out := Limit.Step(b.limiter, Limit.PROGRESS_MIN_INTERVAL, e).1;
    ProgressStartsNothing(out);
    FlatMapAppend(StartHeard, b.heard, Heard(out));
  }

  lemma StepReports(b: Bridge, e: Event)
    requires Happen(b, e).Some?
    ensures Happen(b, e).value.startReported == (b.startReported || e.ReportStart?)
    ensures e.ReportStart? ==> !b.startReported
  {
  }

  /** The start is heard exactly as often as it is reported, and that is at most once. */
  lemma {:induction false} StartIsHeardOnce(events: seq<Event>)
    requires After(events).Some?
    ensures FlatMap(StartHeard, After(events).value.heard) == FlatMap(StartOf, events)
    ensures |FlatMap(StartOf, events)| == if After(events).value.startReported then 1 else 0
  {
    if events != [] {
      var init, last := events[..|events| - 1], events[|events| - 1];
      StartIsHeardOnce(init);
      StepStarts(After(init).value, last);
      StepReports(After(init).value, last);
    }
  }

  /** What the inner download ended with, and whether a cancel got through. */
  function WorkSaid(events: seq<Event>): Option<Native.Outcome>
  {
    if events == [] then None
    else
      var earlier, last := WorkSaid(events[..|events| - 1]), events[|events| - 1];
      if earlier.Some? then earlier
      else if last.Transfer? && last.step.WorkEnds? then Some(last.step.outcome) else None
  }

  predicate CancelSent(events: seq<Event>)
  {
    events != [] && (CancelSent(events[..|events| - 1]) || events[|events| - 1].CancelSends?)
  }

  ghost predicate TransferAsTold(t: Native.Transfer, said: Option<Native.Outcome>, cancelled: bool)
  {
    && (t.asked <==> cancelled)
    && (t.work.Joined? ==> said == Some(t.work.outcome))
    && (t.work.Running? ==> said.None?)
  }

  lemma MovedAsTold(t: Native.Transfer, step: Native.Event, said: Option<Native.Outcome>, cancelled: bool)
    requires Native.TransferOk(t) && Native.Advance(t, step).Some? && TransferAsTold(t, said, cancelled)
    ensures TransferAsTold(Native.Advance(t, step).value,
                           if said.None? && step.WorkEnds? then Some(step.outcome) else said, cancelled)
  {
    Native.AdvanceKeepsOk(t, step);
  }

  lemma StepAsTold(b: Bridge, e: Event, said: Option<Native.Outcome>, cancelled: bool)
    requires Native.TransferOk(b.transfer) && Happen(b, e).Some? && TransferAsTold(b.transfer, said, cancelled)
    ensures TransferAsTold(Happen(b, e).value.transfer,
                           if said.None? && e.Transfer? && e.step.WorkEnds? then Some(e.step.outcome) else said,
                           cancelled || e.CancelSends?)
  {
    if e.Transfer? {
      MovedAsTold(b.transfer, e.step, said, cancelled);
    }
  }

  lemma {:induction false} RunAsTold(events: seq<Event>)
    requires After(events).Some?
    ensures TransferAsTold(After(events).value.transfer, WorkSaid(events), CancelSent(events))
  {
    if events != [] {
      var init, last := events[..|events| - 1], events[|events| - 1];
      RunAsTold(init);
      RunKeepsInv(init);
      StepAsTold(After(init).value, last, WorkSaid(init), CancelSent(init));
    }
  }

  /** The promise of an accepted download settles with what its inner download ended with, or with
      the cancellation, and then a cancel did get through. */
  lemma SettledWithItsOwnResult(events: seq<Event>)
    requires After(events).Some? && After(events).value.call.Accepted?
    ensures var settled := Settlements(After(events).value.heard);
      settled != [] ==>
        if settled[0] == Native.Outcome.Cancelled then CancelSent(events) else WorkSaid(events) == Some(settled[0])
  {
    RunKeepsInv(events);
    RunAsTold(events);
    PromiseSettlesOnce(events);
  }

  // ---------------------------------------------------------------- the class

  /** The closures of one call: they share the limiter and the guarded completer. */
  class DownloadCall {
    const coalescer: Limit.Coalescer
    var promise: bool
    var heard: seq<JsEvent>

    constructor ()
      ensures fresh(coalescer) && coalescer.View() == Limit.Idle() && promise && heard == []
      ensures coalescer.minInterval == Limit.PROGRESS_MIN_INTERVAL
    {
      coalescer := new Limit.Coalescer(Limit.PROGRESS_MIN_INTERVAL);
      promise, heard := true, [];
    }

    /** The part of the bridge state these closures hold. */
    ghost function Shown(b: Bridge): Bridge
      reads this, coalescer
    {
      b.(limiter := coalescer.View(), promise := promise, heard := heard)
    }

    method TakePromise(outcome: Native.Outcome)
      modifies this
      ensures forall b :: Shown(b) == Settle(old(Shown(b)), outcome)
    {
      if promise {
        promise := false;
        heard := heard + [Settled(outcome)];
      }
    }

    method OnProgress(bytes: nat, now: nat)
      requires coalescer.minInterval == Limit.PROGRESS_MIN_INTERVAL
      modifies this, coalescer
      ensures forall b :: Shown(b) == Limited(old(Shown(b)), Limit.Offer(bytes, now))
    {
      var out := coalescer.OfferAt(bytes, now);
      heard := heard + Heard(out);
    }

    /** The completion closure: flush first, then settle. */
    method OnComplete(outcome: Native.Outcome, now: nat)
      requires coalescer.minInterval == Limit.PROGRESS_MIN_INTERVAL
      modifies this, coalescer
      ensures forall b :: Shown(b) == Settle(Limited(old(Shown(b)), Limit.Flush(now)), outcome)
    {
      var out := coalescer.FlushAt(now);
      heard := heard + Heard(out);
      TakePromise(outcome);
    }
  }
}
