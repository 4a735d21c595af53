/** A collection transfer (`CollectionTransferController` in `src/transfer.ts`): one manifest,
    many children, one settlement. */
module Collections {
  import opened Base
  import opened Errors
  import opened Downloads

  datatype File = File(bytes: nat, done: bool)

  /** `finished` says of each child whether its promise has been observed to settle; `dispatched`
      lists the totals sent out. What becomes of the children is the business of the download
      queue they run in. */
  datatype Collection = Collection(
    files: seq<File>,
    childrenStarted: bool,
    cancelRequested: bool,
    manifestArrived: bool,
    finished: seq<bool>,
    settled: Option<Settlement>,
    dispatched: seq<nat>)

  datatype Happening =
    | Manifest(count: nat)
    | ManifestFails(error: IrohError)
    | Progress(child: nat, bytes: nat)
    | ChildDone(child: nat)
    | ChildFails(child: nat, error: IrohError)
    | CancelAll

  const CANCELLED_BEFORE_START := IrohError(3003, "collection download cancelled before it started")

  function NewCollection(): Collection
  {
    Collection([], false, false, false, [], None, [])
  }

  function Total(files: seq<File>): nat
  {
    if files == [] then 0 else Total(files[..|files| - 1]) + files[|files| - 1].bytes
  }

  function Recomputed(c: Collection): Collection
  {
    if c.settled.Some? then c else c.(dispatched := c.dispatched + [Total(c.files)])
  }

  predicate AllDone(files: seq<File>)
  {
    forall i :: 0 <= i < |files| ==> files[i].done
  }

  function CheckedAllDone(c: Collection): Collection
  {
    if c.settled.None? && c.childrenStarted && AllDone(c.files) then c.(settled := Some(Completed)) else c
  }

  /** Whether an event makes the collection call `cancel()` on each of its children. */
  predicate CancelsChildren(c: Collection, h: Happening)
  {
    c.settled.None? && (h.CancelAll? || h.ChildFails?)
  }

  /** The state after an event, or `None` when it cannot happen: the manifest request answers
      once, each child settles once, and a settled child reports no more progress. */
  function Then(c: Collection, h: Happening): Option<Collection>
  {
    match h
    case Manifest(count) =>
      if c.manifestArrived then None
      else if c.cancelRequested || c.settled.Some? then Some(c.(manifestArrived := true))
      else
        Some(CheckedAllDone(c.(manifestArrived := true, childrenStarted := true,
                               files := seq(count, i => File(0, false)),
                               finished := seq(count, i => false))))
    case ManifestFails(error) =>
      if c.manifestArrived then None
      else Some(c.(manifestArrived := true,
                   settled := if c.settled.Some? then c.settled else Some(Failed(error))))
    case Progress(i, bytes) =>
      if i < |c.files| && i < |c.finished| && !c.finished[i] then
        Some(Recomputed(c.(files := c.files[i := c.files[i].(bytes := bytes)])))
      else None
    case ChildDone(i) =>
      if i < |c.files| && i < |c.finished| && !c.finished[i] then
        Some(CheckedAllDone(Recomputed(
          c.(finished := c.finished[i := true], files := c.files[i := c.files[i].(done := true)]))))
      else None
    case ChildFails(i, error) =>
      if i < |c.files| && i < |c.finished| && !c.finished[i] then
        var c' := c.(finished := c.finished[i := true]);
        Some(if c.settled.Some? then c'
             else c'.(settled := Some(Failed(error))))
      else None
    case CancelAll =>
      if c.settled.Some? then Some(c)
      else
        var c' := c.(cancelRequested := true);
        Some(if c.childrenStarted then c' else c'.(settled := Some(Failed(CANCELLED_BEFORE_START))))
  }

  function After(happenings: seq<Happening>): Option<Collection>
  {
    if happenings == [] then Some(NewCollection())
    else
      match After(happenings[..|happenings| - 1])
      case None => None
      case Some(c) => Then(c, happenings[|happenings| - 1])
  }

  // ---------------------------------------------------------------- the verdict, read off the events

  /** The size announced by the manifest, once it has arrived. */
  function Announced(happenings: seq<Happening>): Option<nat>
  {
    if happenings == [] then None
    else
      var last := happenings[|happenings| - 1];
      if last.Manifest? then Some(last.count) else Announced(happenings[..|happenings| - 1])
  }

  predicate DoneIn(happenings: seq<Happening>, i: nat)
  {
    ChildDone(i) in happenings
  }

  /** The manifest is there and every child it announced has succeeded. */
  predicate AllArrived(happenings: seq<Happening>)
  {
    Announced(happenings).Some? && forall i: nat :: i < Announced(happenings).value ==> DoneIn(happenings, i)
  }

  /** The error an event would fail the collection with, given what came before it. */
  function Failure(before: seq<Happening>, h: Happening): Option<IrohError>
  {
    match h
    case ManifestFails(error) => Some(error)
    case ChildFails(_, error) => Some(error)
    case CancelAll => if Announced(before).None? then Some(CANCELLED_BEFORE_START) else None
    case _ => None
  }

  ghost predicate Clean(happenings: seq<Happening>)
  {
    forall k :: 0 <= k < |happenings| ==> Failure(happenings[..k], happenings[k]) == None
  }

  ghost predicate Succeeds(happenings: seq<Happening>)
  {
    exists k :: 0 <= k <= |happenings| && Clean(happenings[..k]) && AllArrived(happenings[..k])
  }

  ghost predicate FailsWith(happenings: seq<Happening>, error: IrohError)
  {
    exists k :: 0 <= k < |happenings| && Clean(happenings[..k]) && !AllArrived(happenings[..k]) &&
                Failure(happenings[..k], happenings[k]) == Some(error)
  }

  /** The newest byte count a child has reported. */
  function Latest(happenings: seq<Happening>, i: nat): nat
  {
    if happenings == [] then 0
    else
      var last := happenings[|happenings| - 1];
      if last.Progress? && last.child == i then last.bytes else Latest(happenings[..|happenings| - 1], i)
  }

  /** While the collection is undecided its state mirrors the events. */
  ghost predicate Mirrors(c: Collection, happenings: seq<Happening>)
  {
    && (c.childrenStarted <==> Announced(happenings).Some?)
    && (!c.childrenStarted ==> c.files == [] && !c.cancelRequested)
    && (c.childrenStarted ==> c.manifestArrived && |c.files| == Announced(happenings).value)
    && (forall i :: 0 <= i < |c.files| ==>
          (c.files[i].done <==> DoneIn(happenings, i)) && c.files[i].bytes == Latest(happenings, i))
    && (forall i: nat :: i >= |c.files| ==> !DoneIn(happenings, i) && Latest(happenings, i) == 0)
  }

  lemma CleanSnoc(happenings: seq<Happening>, h: Happening)
    ensures Clean(happenings + [h]) <==> Clean(happenings) && Failure(happenings, h) == None
  {
    var all := happenings + [h];
    assert all[..|happenings|] == happenings;
    forall k | 0 <= k < |happenings|
      ensures all[..k] == happenings[..k] && all[k] == happenings[k]
    {
    }
    if Clean(all) {
      assert Failure(all[..|happenings|], all[|happenings|]) == None;
      forall k | 0 <= k < |happenings|
        ensures Failure(happenings[..k], happenings[k]) == None
      {
        assert Failure(all[..k], all[k]) == None;
      }
    }
  }

  lemma SucceedsSnoc(happenings: seq<Happening>, h: Happening)
    ensures Succeeds(happenings + [h]) <==>
      Succeeds(happenings) || (Clean(happenings + [h]) && AllArrived(happenings + [h]))
  {
    var all := happenings + [h];
    assert all[..|all|] == all;
    forall k | 0 <= k <= |happenings|
      ensures all[..k] == happenings[..k]
    {
    }
    if Succeeds(happenings) {
      var k :| 0 <= k <= |happenings| && Clean(happenings[..k]) && AllArrived(happenings[..k]);
      assert Clean(all[..k]) && AllArrived(all[..k]);
    }
    if Succeeds(all) {
      var k :| 0 <= k <= |all| && Clean(all[..k]) && AllArrived(all[..k]);
      assert k <= |happenings| ==> Clean(happenings[..k]) && AllArrived(happenings[..k]);
    }
  }

  lemma FailsWithSnoc(happenings: seq<Happening>, h: Happening, error: IrohError)
    ensures FailsWith(happenings + [h], error) <==>
      FailsWith(happenings, error) ||
      (Clean(happenings) && !AllArrived(happenings) && Failure(happenings, h) == Some(error))
  {
    var all := happenings + [h];
    assert all[..|happenings|] == happenings;
    forall k | 0 <= k <= |happenings|
      ensures all[..k] == happenings[..k] && (k < |happenings| ==> all[k] == happenings[k])
    {
    }
    if FailsWith(happenings, error) {
      var k :| 0 <= k < |happenings| && Clean(happenings[..k]) && !AllArrived(happenings[..k]) &&
               Failure(happenings[..k], happenings[k]) == Some(error);
      assert Failure(all[..k], all[k]) == Some(error);
    }
    if FailsWith(all, error) {
      var k :| 0 <= k < |all| && Clean(all[..k]) && !AllArrived(all[..k]) &&
               Failure(all[..k], all[k]) == Some(error);
      assert k < |happenings| ==> Failure(happenings[..k], happenings[k]) == Some(error);
    }
  }

  ghost predicate Decided(c: Collection, happenings: seq<Happening>)
  {
    && (Announced(happenings).Some? ==> c.manifestArrived)
    && (c.settled.None? <==> Clean(happenings) && !AllArrived(happenings))
    && (c.settled == Some(Completed) <==> Succeeds(happenings))
    && (forall error :: c.settled == Some(Failed(error)) <==> FailsWith(happenings, error))
  }

  lemma ArrivedSnoc(happenings: seq<Happening>, h: Happening)
    ensures Announced(happenings + [h]) == if h.Manifest? then Some(h.count) else Announced(happenings)
    ensures forall i: nat :: DoneIn(happenings + [h], i) <==> DoneIn(happenings, i) || h == ChildDone(i)
    ensures forall i: nat ::
      Latest(happenings + [h], i) == (if h.Progress? && h.child == i then h.bytes else Latest(happenings, i))
  {
    assert (happenings + [h])[..|happenings + [h]| - 1] == happenings;
  }

  lemma FailureBreaksClean(happenings: seq<Happening>, error: IrohError)
    ensures FailsWith(happenings, error) ==> !Clean(happenings)
  {
  }

  /** A settled collection stays as it is, and so does the verdict of the events. */
  lemma SettledStaysDecided(c: Collection, happenings: seq<Happening>, h: Happening)
    requires Decided(c, happenings) && c.settled.Some? && Then(c, h).Some?
    ensures Decided(Then(c, h).value, happenings + [h]) && Then(c, h).value.settled == c.settled
  {
    var c' := Then(c, h).value;
    CleanSnoc(happenings, h);
    ArrivedSnoc(happenings, h);
    SucceedsSnoc(happenings, h);
    if c.settled.value.Failed? {
      FailureBreaksClean(happenings, c.settled.value.error);
    }
    forall error
      ensures c'.settled == Some(Failed(error)) <==> FailsWith(happenings + [h], error)
    {
      FailsWithSnoc(happenings, h, error);
    }
  }

  /** The first decisive event decides the collection, exactly as the events say. */
  lemma OpenStepDecides(c: Collection, happenings: seq<Happening>, h: Happening)
    requires Decided(c, happenings) && c.settled.None? && Mirrors(c, happenings) && Then(c, h).Some?
    ensures Then(c, h).value.settled ==
            if Failure(happenings, h).Some? then Some(Failed(Failure(happenings, h).value))
            else if AllArrived(happenings + [h]) then Some(Completed)
            else None
    ensures Then(c, h).value.settled.None? ==> Mirrors(Then(c, h).value, happenings + [h])
    ensures Announced(happenings + [h]).Some? ==> Then(c, h).value.manifestArrived
  {
    var c' := Then(c, h).value;
    ArrivedSnoc(happenings, h);
    if h.Manifest? {
      assert !DoneIn(happenings + [h], 0);
      assert h.count > 0 ==> !File(0, false).done && !AllDone(seq(h.count, i => File(0, false))) by {
        assert h.count > 0 ==> seq(h.count, i => File(0, false))[0] == File(0, false);
      }
    } else if Announced(happenings).Some? {
      assert |c'.files| == Announced(happenings).value;
      assert forall i :: 0 <= i < |c'.files| ==> (c'.files[i].done <==> DoneIn(happenings + [h], i));
      assert AllDone(c'.files) <==> AllArrived(happenings + [h]);
    }
  }

  lemma OpenStaysDecided(c: Collection, happenings: seq<Happening>, h: Happening)
    requires Decided(c, happenings) && c.settled.None? && Mirrors(c, happenings) && Then(c, h).Some?
    ensures Decided(Then(c, h).value, happenings + [h])
  {
    OpenStepDecides(c, happenings, h);
    CleanSnoc(happenings, h);
    SucceedsSnoc(happenings, h);
    forall error
      ensures Then(c, h).value.settled == Some(Failed(error)) <==> FailsWith(happenings + [h], error)
    {
      FailsWithSnoc(happenings, h, error);
    }
  }

  lemma {:induction false} EveryRunIsDecided(happenings: seq<Happening>)
    requires After(happenings).Some?
    ensures Decided(After(happenings).value, happenings)
    ensures After(happenings).value.settled.None? ==> Mirrors(After(happenings).value, happenings)
  {
    if happenings == [] {
      assert Clean([]) && !AllArrived([]);
    } else {
      var init, last := happenings[..|happenings| - 1], happenings[|happenings| - 1];
      EveryRunIsDecided(init);
      assert happenings == init + [last];
      var c := After(init).value;
      if c.settled.Some? {
        SettledStaysDecided(c, init, last);
      } else {
        OpenStepDecides(c, init, last);
        OpenStaysDecided(c, init, last);
      }
    }
  }

  // ---------------------------------------------------------------- what every run guarantees

  /** A collection resolves exactly when, with nothing failing first, the manifest arrived and
      every child in it succeeded (an empty collection at once); it rejects with exactly the
      error of the first event that failed it: the manifest's, a child's, or a cancellation that
      came before the manifest. It settles once, and not before one of these. */
  lemma CollectionSettlesAsTheEventsSay(happenings: seq<Happening>, error: IrohError)
    requires After(happenings).Some?
    ensures var settled := After(happenings).value.settled;
      && (settled == Some(Completed) <==> Succeeds(happenings))
      && (settled == Some(Failed(error)) <==> FailsWith(happenings, error))
      && (settled.None? <==> Clean(happenings) && !AllArrived(happenings))
  {
    EveryRunIsDecided(happenings);
  }

  /** Once settled, always settled the same way. */
  lemma {:induction false} SettlementIsFinal(happenings: seq<Happening>, h: Happening)
    requires After(happenings + [h]).Some? && After(happenings).Some?
    requires After(happenings).value.settled.Some?
    ensures After(happenings + [h]).value.settled == After(happenings).value.settled
  {
    assert (happenings + [h])[..|happenings + [h]| - 1] == happenings;
    EveryRunIsDecided(happenings);
    SettledStaysDecided(After(happenings).value, happenings, h);
  }

  // ---------------------------------------------------------------- the aggregate

  /** No child ever reports less than it reported before. */
  predicate ChildrenGrow(happenings: seq<Happening>)
  {
    forall k :: 0 <= k < |happenings| && happenings[k].Progress? ==>
      Latest(happenings[..k], happenings[k].child) <= happenings[k].bytes
  }

  predicate NonDecreasing(totals: seq<nat>)
  {
    forall i, j :: 0 <= i < j < |totals| ==> totals[i] <= totals[j]
  }

  lemma {:induction false} TotalUpdate(files: seq<File>, i: nat, f: File)
    requires i < |files|
    ensures Total(files[i := f]) + files[i].bytes == Total(files) + f.bytes
  {
    var init := files[..|files| - 1];
    if i < |init| {
      TotalUpdate(init, i, f);
      assert files[i := f][..|files| - 1] == init[i := f];
    } else {
      assert files[i := f][..|files| - 1] == init;
    }
  }

  /** The sum of the newest value of each of the first `n` children. */
  function LatestSum(happenings: seq<Happening>, n: nat): nat
  {
    if n == 0 then 0 else LatestSum(happenings, n - 1) + Latest(happenings, n - 1)
  }

  lemma {:induction false} TotalIsLatestSum(files: seq<File>, happenings: seq<Happening>)
    requires forall i :: 0 <= i < |files| ==> files[i].bytes == Latest(happenings, i)
    ensures Total(files) == LatestSum(happenings, |files|)
  {
    if files != [] {
      TotalIsLatestSum(files[..|files| - 1], happenings);
    }
  }

  /** Every total sent out is the sum of the newest value of every child, counting the event
      that caused it. */
  lemma DispatchIsTheSumOfTheLatest(happenings: seq<Happening>, h: Happening)
    requires After(happenings + [h]).Some? && After(happenings).Some?
    requires After(happenings).value.settled.None? && (h.Progress? || h.ChildDone?)
    ensures Announced(happenings).Some?
    ensures After(happenings + [h]).value.dispatched ==
            After(happenings).value.dispatched + [LatestSum(happenings + [h], Announced(happenings).value)]
  {
    assert (happenings + [h])[..|happenings + [h]| - 1] == happenings;
    EveryRunIsDecided(happenings);
    ArrivedSnoc(happenings, h);
    var c := After(happenings).value;
    var files := if h.Progress? then c.files[h.child := c.files[h.child].(bytes := h.bytes)]
                 else c.files[h.child := c.files[h.child].(done := true)];
    TotalIsLatestSum(files, happenings + [h]);
  }

  /** The totals due: one for each progress report and each finished child that comes before
      anything decides the collection. */
  ghost function TotalsDue(happenings: seq<Happening>): seq<nat>
  {
    if happenings == [] then []
    else
      var init, last := happenings[..|happenings| - 1], happenings[|happenings| - 1];
      TotalsDue(init) +
        if (last.Progress? || last.ChildDone?) && Announced(init).Some? && Clean(init) && !AllArrived(init)
        then [LatestSum(happenings, Announced(init).value)] else []
  }

  lemma OthersSendNothing(c: Collection, h: Happening)
    requires Then(c, h).Some? && (c.settled.Some? || !(h.Progress? || h.ChildDone?))
    ensures Then(c, h).value.dispatched == c.dispatched
  {
  }

  /** Over every run exactly the totals due are sent, in order. */
  lemma {:induction false} ExactlyTheTotalsDueAreSent(happenings: seq<Happening>)
    requires After(happenings).Some?
    ensures After(happenings).value.dispatched == TotalsDue(happenings)
  {
    if happenings != [] {
      var init, last := happenings[..|happenings| - 1], happenings[|happenings| - 1];
      ExactlyTheTotalsDueAreSent(init);
      EveryRunIsDecided(init);
      assert happenings == init + [last];
      if After(init).value.settled.None? && (last.Progress? || last.ChildDone?) {
        DispatchIsTheSumOfTheLatest(init, last);
      } else {
        OthersSendNothing(After(init).value, last);
      }
    }
  }

  ghost predicate Growing(c: Collection)
  {
    && NonDecreasing(c.dispatched)
    && (c.settled.None? && c.dispatched != [] ==> c.dispatched[|c.dispatched| - 1] <= Total(c.files))
    && (!c.childrenStarted ==> c.dispatched == [])
  }

  lemma StepKeepsGrowing(c: Collection, h: Happening)
    requires Growing(c) && Then(c, h).Some?
    requires !c.childrenStarted ==> c.files == []
    requires h.Progress? && h.child < |c.files| && c.settled.None? ==> c.files[h.child].bytes <= h.bytes
    requires h.Manifest? ==> !c.childrenStarted
    ensures Growing(Then(c, h).value)
  {
    if h.Progress? {
      TotalUpdate(c.files, h.child, c.files[h.child].(bytes := h.bytes));
    } else if h.ChildDone? {
      TotalUpdate(c.files, h.child, c.files[h.child].(done := true));
    }
  }

  lemma {:induction false} ChildrenNeedManifest(happenings: seq<Happening>)
    requires After(happenings).Some?
    ensures var c := After(happenings).value;
      (!c.childrenStarted ==> c.files == []) && (c.childrenStarted ==> c.manifestArrived)
  {
    if happenings != [] {
      ChildrenNeedManifest(happenings[..|happenings| - 1]);
    }
  }

  lemma ChildrenGrowInit(happenings: seq<Happening>)
    requires happenings != [] && ChildrenGrow(happenings)
    ensures ChildrenGrow(happenings[..|happenings| - 1])
  {
    var init := happenings[..|happenings| - 1];
    forall k | 0 <= k < |init|
      ensures init[..k] == happenings[..k] && init[k] == happenings[k]
    {
    }
  }

  lemma {:induction false} RunKeepsGrowing(happenings: seq<Happening>)
    requires After(happenings).Some? && ChildrenGrow(happenings)
    ensures Growing(After(happenings).value)
  {
    if happenings != [] {
      var init, last := happenings[..|happenings| - 1], happenings[|happenings| - 1];
      ChildrenGrowInit(happenings);
      RunKeepsGrowing(init);
      ChildrenNeedManifest(init);
      EveryRunIsDecided(init);
      assert last.Progress? ==> Latest(init, last.child) <= last.bytes;
      StepKeepsGrowing(After(init).value, last);
    }
  }

  /** The aggregate never goes backwards when no child does. */
  lemma AggregateNeverFalls(happenings: seq<Happening>)
    requires After(happenings).Some? && ChildrenGrow(happenings)
    ensures NonDecreasing(After(happenings).value.dispatched)
  {
    RunKeepsGrowing(happenings);
  }

  // ---------------------------------------------------------------- what the events say

  /** The manifest came before anything had decided the collection, so its children were started:
      how many. */
  ghost function Launched(happenings: seq<Happening>): Option<nat>
  {
    if happenings == [] then None
    else
      var init, last := happenings[..|happenings| - 1], happenings[|happenings| - 1];
      if last.Manifest? && Clean(init) && !AllArrived(init) then Some(last.count) else Launched(init)
  }

  predicate Answered(happenings: seq<Happening>)
  {
    happenings != [] &&
    (Answered(happenings[..|happenings| - 1]) ||
     happenings[|happenings| - 1].Manifest? || happenings[|happenings| - 1].ManifestFails?)
  }

  /** Child `i` has been heard of for the last time. */
  predicate ChildEnded(happenings: seq<Happening>, i: nat)
  {
    happenings != [] &&
    var last := happenings[|happenings| - 1];
    ChildEnded(happenings[..|happenings| - 1], i) || (last.ChildDone? && last.child == i) || (last.ChildFails? && last.child == i)
  }

  ghost predicate AsTold(c: Collection, launched: Option<nat>, answered: bool)
  {
    && (c.childrenStarted <==> launched.Some?)
    && |c.files| == |c.finished| == (if launched.Some? then launched.value else 0)
    && (c.manifestArrived <==> answered)
    && (c.childrenStarted ==> c.manifestArrived)
    && (c.cancelRequested && c.settled.None? ==> c.childrenStarted)
  }

  lemma StepAsTold(c: Collection, h: Happening, launched: Option<nat>, answered: bool)
    requires AsTold(c, launched, answered) && Then(c, h).Some?
    ensures AsTold(Then(c, h).value, if h.Manifest? && c.settled.None? then Some(h.count) else launched,
                   answered || h.Manifest? || h.ManifestFails?)
  {
  }

  /** Children are started exactly when the manifest arrives before anything has failed or cancelled
      the collection, one for each entry; and the manifest request is answered once. */
  lemma {:induction false} ChildrenStartAsTold(happenings: seq<Happening>)
    requires After(happenings).Some?
    ensures AsTold(After(happenings).value, Launched(happenings), Answered(happenings))
  {
    if happenings != [] {
      var init, last := happenings[..|happenings| - 1], happenings[|happenings| - 1];
      ChildrenStartAsTold(init);
      EveryRunIsDecided(init);
      StepAsTold(After(init).value, last, Launched(init), Answered(init));
    }
  }

  lemma StepEndsChild(c: Collection, h: Happening, i: nat, ended: bool)
    requires Then(c, h).Some? && |c.files| == |c.finished|
    requires i < |c.finished| ==> c.finished[i] == ended
    requires i >= |c.finished| ==> !ended
    requires h.Manifest? ==> c.finished == []
    ensures var c' := Then(c, h).value;
      var ended' := ended || (h.ChildDone? && h.child == i) || (h.ChildFails? && h.child == i);
      && (i < |c'.finished| ==> c'.finished[i] == ended')
      && (i >= |c'.finished| ==> !ended')
  {
  }

  /** Each child ends once: it is known to have ended exactly after its one completion or failure. */
  lemma {:induction false} ChildrenEndAsTold(happenings: seq<Happening>, i: nat)
    requires After(happenings).Some?
    ensures var c := After(happenings).value;
      && (i < |c.finished| ==> c.finished[i] == ChildEnded(happenings, i))
      && (i >= |c.finished| ==> !ChildEnded(happenings, i))
  {
    if happenings != [] {
      var init, last := happenings[..|happenings| - 1], happenings[|happenings| - 1];
      ChildrenEndAsTold(init, i);
      ChildrenStartAsTold(init);
      StepEndsChild(After(init).value, last, i, ChildEnded(init, i));
    }
  }

  // ---------------------------------------------------------------- the class

  /** The native cancels that cancelling each of these transfers issues at once. */
  function CancelCalls(children: seq<Transfer>): seq<NativeCall>
  {
    FlatMap(CancelCall, children)
  }

  class CollectionTransferController {
    var files: seq<File>
    var children: seq<TransferController>
    var childrenStarted: bool
    var cancelRequested: bool
    var manifestArrived: bool
    var finished: seq<bool>
    var settled: Option<Settlement>
    var dispatched: seq<nat>

    constructor ()
      ensures State() == NewCollection() && children == []
    {
      files, children, childrenStarted, cancelRequested, manifestArrived := [], [], false, false, false;
      finished, settled, dispatched := [], None, [];
    }

    function State(): Collection
      reads this
    {
      Collection(files, childrenStarted, cancelRequested, manifestArrived, finished, settled, dispatched)
    }

    /** The children's own states. */
    ghost function Children(): (r: seq<Transfer>)
      reads this, children
      ensures |r| == |children| && forall i :: 0 <= i < |r| ==> r[i] == children[i].State()
    {
      seq(|children|, i requires 0 <= i < |children| reads this, children => children[i].State())
    }

    /** Every child is cancelled: settled if still queued, told natively if its id is known. */
    method CancelChildren() returns (calls: seq<NativeCall>)
      requires NoDup(children)
      modifies children
      ensures forall i :: 0 <= i < |children| ==> Children()[i] == Cancelled(old(Children())[i])
      ensures calls == CancelCalls(old(Children()))
    {
      calls := [];
      ghost var before := Children();
      for i := 0 to |children|
        invariant forall k :: 0 <= k < i ==> children[k].State() == Cancelled(before[k])
        invariant forall k :: i <= k < |children| ==> children[k].State() == before[k]
        invariant calls == CancelCalls(before[..i])
      {
        assert before[..i + 1][..i] == before[..i];
        var call := children[i].Cancel();
        calls := calls + call;
      }
      assert before[..|children|] == before;
    }

    method Cancel() returns (calls: seq<NativeCall>)
      requires NoDup(children)
      modifies this`cancelRequested, this`settled, children
      ensures Some(State()) == Then(old(State()), CancelAll)
      ensures if CancelsChildren(old(State()), CancelAll) then
                calls == CancelCalls(old(Children())) &&
                forall i :: 0 <= i < |children| ==> Children()[i] == Cancelled(old(Children())[i])
              else calls == [] && Children() == old(Children())
    {
      if settled.Some? {
        return [];
      }
      ghost var before := Children();
      cancelRequested := true;
      assert Children() == before;
      calls := CancelChildren();
      if !childrenStarted {
        settled := Some(Failed(CANCELLED_BEFORE_START));
      }
    }

    /** `started` are the transfers that starting each entry gave. */
    method OnManifest(started: seq<TransferController>)
      requires !manifestArrived
      modifies this
      ensures Some(State()) == Then(old(State()), Manifest(|started|))
      ensures children == if old(cancelRequested) || old(settled).Some? then old(children) else started
    {
      manifestArrived := true;
      if cancelRequested || settled.Some? {
        return;
      }
      children := started;
      files := seq(|started|, i => File(0, false));
      finished := seq(|started|, i => false);
      childrenStarted := true;
      CheckAllDone();
    }

    method OnChildProgress(child: nat, bytes: nat)
      requires child < |files| && child < |finished| && !finished[child]
      modifies this`files, this`dispatched
      ensures Some(State()) == Then(old(State()), Progress(child, bytes))
    {
      files := files[child := files[child].(bytes := bytes)];
      RecomputeAggregate();
    }

    method OnChildDone(child: nat)
      requires child < |files| && child < |finished| && !finished[child]
      modifies this`files, this`finished, this`dispatched, this`settled
      ensures Some(State()) == Then(old(State()), ChildDone(child))
    {
      finished := finished[child := true];
      files := files[child := files[child].(done := true)];
      RecomputeAggregate();
      CheckAllDone();
    }

    method OnChildError(child: nat, error: IrohError) returns (calls: seq<NativeCall>)
      requires child < |files| && child < |finished| && !finished[child] && NoDup(children)
      modifies this`finished, this`settled, children
      ensures Some(State()) == Then(old(State()), ChildFails(child, error))
      ensures if CancelsChildren(old(State()), ChildFails(child, error)) then
                calls == CancelCalls(old(Children())) &&
                forall i :: 0 <= i < |children| ==> Children()[i] == Cancelled(old(Children())[i])
              else calls == [] && Children() == old(Children())
    {
      ghost var before := Children();
      finished := finished[child := true];
      assert Children() == before;
      if settled.Some? {
        return [];
      }
      calls := CancelChildren();
      settled := Some(Failed(error));
    }

    method RecomputeAggregate()
      modifies this`dispatched
      ensures State() == Recomputed(old(State()))
    {
      if settled.Some? {
        return;
      }
      var total := 0;
      for i := 0 to |files|
        invariant total == Total(files[..i])
      {
        assert files[..i + 1][..i] == files[..i];
        total := total + files[i].bytes;
      }
      assert files[..|files|] == files;
      dispatched := dispatched + [total];
    }

    method CheckAllDone()
      modifies this`settled
      ensures State() == CheckedAllDone(old(State()))
    {
      if settled.Some? || !childrenStarted {
        return;
      }
      var every := true;
      for i := 0 to |files|
        invariant every <==> forall k :: 0 <= k < i ==> files[k].done
      {
        every := every && files[i].done;
      }
      if every {
        settled := Some(Completed);
      }
    }
  }
}
