/** The native life of a download (`blob_download`, `blob_download_cancel` in
    `rust/iroh-rn-core/src/blobs.rs`): a driver task, the inner download task and any number of
    cancelling threads, interleaved between their atomic steps. */
module NativeTransfers {
  import opened Base
  import opened Registries

  /** The inner task never reports `Cancelled` itself. */
  datatype Outcome = Success | Failure(message: string) | Cancelled

  /** Where the oneshot sender is: in the transfer's guarded option, in the hands of a cancelling
      thread, used, or dropped together with the transfer state. */
  datatype Sender = Held | Taken(thread: nat) | Sent | Dropped

  datatype Work = Running | Joined(outcome: Outcome) | Aborted

  datatype Driver =
    | Unspawned
    | Selecting
    | Decided(outcome: Outcome)     // out of the select, handle still registered
    | Completing(outcome: Outcome)  // handle removed, callback not called yet
    | Finished(outcome: Outcome)

  /** `holders` are the threads that have looked the transfer up and not yet let go of it;
      `completions` the calls of `on_complete`; `asked` whether any cancel found the handle. */
  datatype Transfer = Transfer(
    sender: Sender,
    holders: set<nat>,
    work: Work,
    driver: Driver,
    completions: seq<Outcome>,
    asked: bool)

  datatype CancelAnswer = CancelOk | CancelInvalid

  /** `lookups` maps a thread inside `blob_download_cancel` to its handle; `answers` records what
      each such call returned. */
  datatype System = System(
    registry: Shared<()>,
    transfers: map<nat, Transfer>,
    lookups: map<nat, nat>,
    answers: map<nat, CancelAnswer>)

  datatype Event =
    | Reserve
    | Insert(handle: nat)
    | Spawn(handle: nat)
    | WorkEnds(handle: nat, outcome: Outcome)
    | SelectCancel(handle: nat)
    | SelectJoined(handle: nat)
    | RemoveHandle(handle: nat)
    | Complete(handle: nat)
    | LookUp(thread: nat, handle: nat)
    | TakeSender(thread: nat)
    | LetGo(thread: nat)            // send if this thread took the sender, and return

  function Start(): System
  {
    System(Registries.Fresh(), map[], map[], map[])
  }

  function NewTransfer(): Transfer
  {
    Transfer(Held, {}, Running, Unspawned, [], false)
  }

  // ---------------------------------------------------------------- one transfer's steps

  predicate CancelArrived(t: Transfer)
  {
    t.sender.Sent? || t.sender.Dropped?
  }

  /** The driver's and the inner task's steps. */
  function Advance(t: Transfer, e: Event): Option<Transfer>
  {
    match e
    case Spawn(_) => if t.driver.Unspawned? then Some(t.(driver := Selecting)) else None
    case WorkEnds(_, outcome) =>
      if t.driver.Unspawned? || !t.work.Running? || outcome.Cancelled? then None
      else Some(t.(work := Joined(outcome)))
    case SelectCancel(_) =>
      if !t.driver.Selecting? || !CancelArrived(t) then None
      else Some(t.(driver := Decided(Outcome.Cancelled), work := Aborted))
    case SelectJoined(_) =>
      if !t.driver.Selecting? || !t.work.Joined? then None
      else Some(t.(driver := Decided(t.work.outcome)))
    case RemoveHandle(_) =>
      if !t.driver.Decided? then None
      else Some(t.(driver := Completing(t.driver.outcome),
                   sender := if t.sender.Held? && t.holders == {} then Dropped else t.sender))
    case Complete(_) =>
      if !t.driver.Completing? then None
      else Some(t.(driver := Finished(t.driver.outcome), completions := t.completions + [t.driver.outcome]))
    case _ => None
  }

  function Grabbed(t: Transfer, thread: nat): Transfer
  {
    t.(holders := t.holders + {thread}, asked := true)
  }

  function SenderTaken(t: Transfer, thread: nat): Transfer
  {
    if t.sender.Held? then t.(sender := Taken(thread)) else t
  }

  function Released(t: Transfer, thread: nat): Transfer
  {
    t.(sender := if t.sender == Taken(thread) then Sent
                 else if t.sender.Held? && t.holders == {thread} && !Registered(t) then Dropped
                 else t.sender,
       holders := t.holders - {thread})
  }

  /** The driver keeps the handle registered until it has left the select. */
  predicate Registered(t: Transfer)
  {
    t.driver.Unspawned? || t.driver.Selecting? || t.driver.Decided?
  }

  // ---------------------------------------------------------------- the system's steps

  function Happen(s: System, e: Event): Option<System>
  {
    match e
    case Reserve => Some(s.(registry := Step(s.registry, Allocate).value.0))
    case Insert(h) =>
      var step := Step(s.registry, Store(h, ()));
      if step.None? then None
      else Some(s.(registry := step.value.0, transfers := s.transfers[h := NewTransfer()]))
    case LookUp(thread, h) =>
      if thread in s.lookups || thread in s.answers then None
      else if Looked(s.registry, h).Found? && h in s.transfers then
        Some(s.(lookups := s.lookups[thread := h], transfers := s.transfers[h := Grabbed(s.transfers[h], thread)]))
      else Some(s.(answers := s.answers[thread := CancelInvalid]))
    case TakeSender(thread) =>
      if thread !in s.lookups || s.lookups[thread] !in s.transfers then None
      else
        var h := s.lookups[thread];
        Some(s.(transfers := s.transfers[h := SenderTaken(s.transfers[h], thread)]))
    case LetGo(thread) =>
      if thread !in s.lookups || s.lookups[thread] !in s.transfers ||
         s.transfers[s.lookups[thread]].sender.Held? then None   // `take` comes first
      else
        var h := s.lookups[thread];
        Some(s.(transfers := s.transfers[h := Released(s.transfers[h], thread)],
                lookups := s.lookups - {thread},
                answers := s.answers[thread := CancelOk]))
    case RemoveHandle(h) =>
      var moved := Moved(s, h, e);
      if moved.None? then None
      else Some(moved.value.(registry := Step(s.registry, Registries.Remove(h)).value.0))
    case Spawn(h) => Moved(s, h, e)
    case WorkEnds(h, _) => Moved(s, h, e)
    case SelectCancel(h) => Moved(s, h, e)
    case SelectJoined(h) => Moved(s, h, e)
    case Complete(h) => Moved(s, h, e)
  }

  /** A step of the driver or the inner task of one transfer. */
  function Moved(s: System, h: nat, e: Event): Option<System>
  {
    if h !in s.transfers || Advance(s.transfers[h], e).None? then None
    else Some(s.(transfers := s.transfers[h := Advance(s.transfers[h], e).value]))
  }

  function After(s: System, events: seq<Event>): Option<System>
  {
    if events == [] then Some(s)
    else
      var before := After(s, events[..|events| - 1]);
      if before.None? then None else Happen(before.value, events[|events| - 1])
  }

  // ---------------------------------------------------------------- the invariant

  predicate HasOutcome(d: Driver)
  {
    d.Decided? || d.Completing? || d.Finished?
  }

  ghost predicate TransferOk(t: Transfer)
  {
    && (t.sender.Dropped? ==> !Registered(t) && t.holders == {})
    && (t.sender.Taken? ==> t.sender.thread in t.holders)
    && (t.sender.Taken? || t.sender.Sent? || t.holders != {} ==> t.asked)
    && (t.work.Joined? ==> !t.work.outcome.Cancelled?)
    && (HasOutcome(t.driver) ==>
          if t.driver.outcome.Cancelled? then t.sender.Sent? && t.work.Aborted?
          else t.work == Joined(t.driver.outcome))
    && (t.work.Aborted? ==> HasOutcome(t.driver) && t.driver.outcome.Cancelled?)
    && t.completions == (if t.driver.Finished? then [t.driver.outcome] else [])
  }

  ghost predicate HandleOk(s: System, h: nat)
    requires h in s.transfers
  {
    && TransferOk(s.transfers[h])
    && (h in s.registry.items <==> Registered(s.transfers[h]))
    && h < s.registry.next && h !in s.registry.reserved
    && (forall k :: k in s.transfers[h].holders <==> k in s.lookups && s.lookups[k] == h)
  }

  ghost predicate SystemInv(s: System)
  {
    && RegistryInv(s.registry)
    && (forall h {:trigger HandleOk(s, h)} :: h in s.transfers ==> HandleOk(s, h))
    && (forall h :: h in s.registry.items ==> h in s.transfers)
    && (forall k :: k in s.lookups ==> s.lookups[k] in s.transfers && k !in s.answers)
  }

  lemma AdvanceKeepsOk(t: Transfer, e: Event)
    requires TransferOk(t) && Advance(t, e).Some?
    ensures TransferOk(Advance(t, e).value)
    ensures Registered(Advance(t, e).value) <==> Registered(t) && !e.RemoveHandle?
    ensures Advance(t, e).value.holders == t.holders
    ensures Advance(t, e).value.asked == t.asked
  {
  }

  lemma AdvanceKeepsInv(s: System, e: Event)
    requires SystemInv(s) && Happen(s, e).Some?
    requires !e.Reserve? && !e.Insert? && !e.LookUp? && !e.TakeSender? && !e.LetGo?
    ensures SystemInv(Happen(s, e).value)
  {
    var s' := Happen(s, e).value;
    assert HandleOk(s, e.handle);
    AdvanceKeepsOk(s.transfers[e.handle], e);
    forall h | h in s'.transfers ensures HandleOk(s', h) {
      assert HandleOk(s, h);
    }
  }

  lemma StartKeepsInv(s: System, e: Event)
    requires SystemInv(s) && Happen(s, e).Some? && (e.Reserve? || e.Insert?)
    ensures SystemInv(Happen(s, e).value)
  {
    var s' := Happen(s, e).value;
    forall h | h in s.transfers ensures h !in s.registry.reserved { assert HandleOk(s, h); }
    forall h | h in s'.transfers ensures HandleOk(s', h) {
      if h in s.transfers { assert HandleOk(s, h); }
    }
  }

  lemma LookUpKeepsInv(s: System, thread: nat, handle: nat)
    requires SystemInv(s) && Happen(s, LookUp(thread, handle)).Some?
    ensures SystemInv(Happen(s, LookUp(thread, handle)).value)
  {
    var s' := Happen(s, LookUp(thread, handle)).value;
    forall h | h in s'.transfers ensures HandleOk(s', h) {
      assert HandleOk(s, h);
    }
  }

  lemma TakeKeepsInv(s: System, thread: nat)
    requires SystemInv(s) && Happen(s, TakeSender(thread)).Some?
    ensures SystemInv(Happen(s, TakeSender(thread)).value)
  {
    var s' := Happen(s, TakeSender(thread)).value;
    forall h | h in s'.transfers ensures HandleOk(s', h) {
      assert HandleOk(s, h);
    }
  }

  lemma LetGoKeepsInv(s: System, thread: nat)
    requires SystemInv(s) && Happen(s, LetGo(thread)).Some?
    ensures SystemInv(Happen(s, LetGo(thread)).value)
  {
    var s' := Happen(s, LetGo(thread)).value;
    forall h | h in s'.transfers ensures HandleOk(s', h) {
      assert HandleOk(s, h);
    }
  }

  lemma HappenKeepsInv(s: System, e: Event)
    requires SystemInv(s) && Happen(s, e).Some?
    ensures SystemInv(Happen(s, e).value)
  {
    match e {
      case Reserve | Insert(_) => StartKeepsInv(s, e);
      case LookUp(thread, h) => LookUpKeepsInv(s, thread, h);
      case TakeSender(thread) => TakeKeepsInv(s, thread);
      case LetGo(thread) => LetGoKeepsInv(s, thread);
      case _ => AdvanceKeepsInv(s, e);
    }
  }

  lemma {:induction false} EveryRunKeepsInv(events: seq<Event>)
    requires After(Start(), events).Some?
    ensures SystemInv(After(Start(), events).value)
  {
    if events != [] {
      EveryRunKeepsInv(events[..|events| - 1]);
      HappenKeepsInv(After(Start(), events[..|events| - 1]).value, events[|events| - 1]);
    }
  }

  // ---------------------------------------------------------------- one terminal event

  /** In every reachable state a started download has completed at most once, and exactly when its
      driver is done; by then its handle is retired. `Cancelled` was reported only if some cancel
      found the handle, and any other result is the inner task's own. */
  lemma CompletesOnceAndTruthfully(events: seq<Event>, h: nat)
    requires After(Start(), events).Some? && h in After(Start(), events).value.transfers
    ensures var s := After(Start(), events).value; var t := s.transfers[h];
      && |t.completions| <= 1 && (|t.completions| == 1 <==> t.driver.Finished?)
      && (t.completions != [] ==> Retired(s.registry, h) && Looked(s.registry, h) == InvalidHandle(h))
      && (t.completions == [Outcome.Cancelled] ==> t.asked && t.sender.Sent? && t.work.Aborted?)
      && (t.completions != [] && t.completions != [Outcome.Cancelled] ==> t.work == Joined(t.completions[0]))
  {
    EveryRunKeepsInv(events);
    assert HandleOk(After(Start(), events).value, h);
  }

  /** The select never sees a sender dropped unsent: what wakes it is a cancel. */
  lemma SelectWakesOnlyForCancel(events: seq<Event>, h: nat)
    requires After(Start(), events).Some? && h in After(Start(), events).value.transfers
    requires After(Start(), events).value.transfers[h].driver.Selecting?
    ensures var t := After(Start(), events).value.transfers[h];
      !t.sender.Dropped? && (CancelArrived(t) <==> t.sender.Sent?)
  {
    EveryRunKeepsInv(events);
    assert HandleOk(After(Start(), events).value, h);
  }

  /** ... and a cancel is a call of `blob_download_cancel` with this very handle. */
  lemma {:induction false} CancelWasCalled(events: seq<Event>, h: nat)
    requires After(Start(), events).Some? && h in After(Start(), events).value.transfers
    requires After(Start(), events).value.transfers[h].asked
    ensures exists i :: 0 <= i < |events| && events[i].LookUp? && events[i].handle == h
  {
    var init, last := events[..|events| - 1], events[|events| - 1];
    var s := After(Start(), init).value;
    EveryRunKeepsInv(init);
    if h in s.transfers && s.transfers[h].asked {
      CancelWasCalled(init, h);
      var i :| 0 <= i < |init| && init[i].LookUp? && init[i].handle == h;
      assert events[i].LookUp? && events[i].handle == h;
    } else {
      AskedByLookUp(s, last, h);
      assert events[|events| - 1].LookUp?;
    }
  }

  lemma AskedByLookUp(s: System, e: Event, h: nat)
    requires SystemInv(s) && Happen(s, e).Some? && h in Happen(s, e).value.transfers
    requires Happen(s, e).value.transfers[h].asked && (h in s.transfers ==> !s.transfers[h].asked)
    ensures e.LookUp? && e.handle == h
  {
    if e.Spawn? || e.WorkEnds? || e.SelectCancel? || e.SelectJoined? || e.RemoveHandle? || e.Complete? {
      assert HandleOk(s, e.handle);
      AdvanceKeepsOk(s.transfers[e.handle], e);
    }
  }

  lemma StepKeepsFinished(s: System, e: Event, h: nat)
    requires SystemInv(s) && Happen(s, e).Some?
    requires h in s.transfers && s.transfers[h].driver.Finished?
    ensures var s' := Happen(s, e).value;
      h in s'.transfers && s'.transfers[h].driver == s.transfers[h].driver
  {
    assert HandleOk(s, h);
  }

  /** Once completed, a download's result never changes or repeats, and every later cancel of its
      handle finds nothing (which the bridge reports as success). */
  lemma {:induction false} FinishedForGood(s: System, later: seq<Event>, h: nat)
    requires SystemInv(s) && h in s.transfers && s.transfers[h].driver.Finished?
    requires After(s, later).Some?
    ensures var s' := After(s, later).value;
      && SystemInv(s')
      && h in s'.transfers && s'.transfers[h].completions == s.transfers[h].completions
      && s'.transfers[h].driver.Finished?
      && Looked(s'.registry, h) == InvalidHandle(h)
  {
    if later == [] {
      assert HandleOk(s, h);
    } else {
      var init := later[..|later| - 1];
      FinishedForGood(s, init, h);
      HappenKeepsInv(After(s, init).value, later[|later| - 1]);
      StepKeepsFinished(After(s, init).value, later[|later| - 1], h);
      assert HandleOk(After(s, init).value, h);
      assert HandleOk(After(s, later).value, h);
    }
  }

  // ---------------------------------------------------------------- what the events say

  /** The handle was put in the registry and has not been taken out. */
  predicate Live(events: seq<Event>, h: nat)
  {
    events != [] &&
    var last := events[|events| - 1];
    last == Insert(h) || (Live(events[..|events| - 1], h) && last != RemoveHandle(h))
  }

  /** What the inner download of `h` ended with. */
  function WorkVerdict(events: seq<Event>, h: nat): Option<Outcome>
  {
    if events == [] then None
    else
      var earlier, last := WorkVerdict(events[..|events| - 1], h), events[|events| - 1];
      if earlier.Some? then earlier
      else if last.WorkEnds? && last.handle == h then Some(last.outcome) else None
  }

  /** Some cancel found the handle registered. */
  predicate AskedIn(events: seq<Event>, h: nat)
  {
    events != [] &&
    var init, last := events[..|events| - 1], events[|events| - 1];
    AskedIn(init, h) || (last.LookUp? && last.handle == h && Live(init, h))
  }

  /** What the cancelling call of a thread returned: success once it lets go of a transfer it found,
      an error at once if there was none. */
  function AnswerIn(events: seq<Event>, thread: nat): Option<CancelAnswer>
  {
    if events == [] then None
    else
      var init, last := events[..|events| - 1], events[|events| - 1];
      if last.LookUp? && last.thread == thread && !Live(init, last.handle) then Some(CancelInvalid)
      else if last == LetGo(thread) then Some(CancelOk)
      else AnswerIn(init, thread)
  }

  ghost predicate TransferAsTold(s: System, h: nat, live: bool, verdict: Option<Outcome>, asked: bool)
  {
    && (h in s.registry.items <==> live)
    && (h !in s.transfers ==> verdict.None? && !asked)
    && (h in s.transfers ==>
          var t := s.transfers[h];
          && (t.asked <==> asked)
          && (t.work.Joined? ==> verdict == Some(t.work.outcome))
          && (t.work.Running? ==> verdict.None?))
  }

  lemma OwnStepAsTold(s: System, e: Event, h: nat, live: bool, verdict: Option<Outcome>, asked: bool)
    requires SystemInv(s) && Happen(s, e).Some? && TransferAsTold(s, h, live, verdict, asked)
    requires !e.Reserve? && !e.Insert? && !e.LookUp? && !e.TakeSender? && !e.LetGo?
    ensures TransferAsTold(Happen(s, e).value, h, live && e != RemoveHandle(h),
                           if verdict.None? && e.WorkEnds? && e.handle == h then Some(e.outcome) else verdict, asked)
  {
    assert HandleOk(s, e.handle);
    AdvanceKeepsOk(s.transfers[e.handle], e);
  }

  lemma OtherStepAsTold(s: System, e: Event, h: nat, live: bool, verdict: Option<Outcome>, asked: bool)
    requires SystemInv(s) && Happen(s, e).Some? && TransferAsTold(s, h, live, verdict, asked)
    requires e.Reserve? || e.Insert? || e.LookUp? || e.TakeSender? || e.LetGo?
    ensures TransferAsTold(Happen(s, e).value, h, live || e == Insert(h), verdict,
                           asked || (e.LookUp? && e.handle == h && live))
  {
    if h in s.transfers {
      assert HandleOk(s, h);
    }
  }

  lemma ToldSnoc(events: seq<Event>, e: Event, h: nat)
    ensures Live(events + [e], h) <==> e == Insert(h) || (Live(events, h) && e != RemoveHandle(h))
    ensures WorkVerdict(events + [e], h) ==
      if WorkVerdict(events, h).None? && e.WorkEnds? && e.handle == h then Some(e.outcome) else WorkVerdict(events, h)
    ensures AskedIn(events + [e], h) <==> AskedIn(events, h) || (e.LookUp? && e.handle == h && Live(events, h))
  {
    assert (events + [e])[..|events + [e]| - 1] == events;
  }

  /** Over every run a handle is registered, its transfer asked to cancel, and its inner download's
      result known, exactly as the events say. */
  lemma {:induction false} TransfersAreAsTold(events: seq<Event>, h: nat)
    requires After(Start(), events).Some?
    ensures TransferAsTold(After(Start(), events).value, h, Live(events, h), WorkVerdict(events, h), AskedIn(events, h))
  {
    if events != [] {
      var init, last := events[..|events| - 1], events[|events| - 1];
      var s := After(Start(), init).value;
      TransfersAreAsTold(init, h);
      EveryRunKeepsInv(init);
      assert events == init + [last];
      ToldSnoc(init, last, h);
      if last.Reserve? || last.Insert? || last.LookUp? || last.TakeSender? || last.LetGo? {
        OtherStepAsTold(s, last, h, Live(init, h), WorkVerdict(init, h), AskedIn(init, h));
      } else {
        OwnStepAsTold(s, last, h, Live(init, h), WorkVerdict(init, h), AskedIn(init, h));
      }
    }
  }

  /** What a download completes with: the cancellation only if some cancel found it registered, and
      otherwise the first and only thing its inner download ended with. */
  lemma ResultIsTheDownloadsOwn(events: seq<Event>, h: nat)
    requires After(Start(), events).Some? && h in After(Start(), events).value.transfers
    ensures var completions := After(Start(), events).value.transfers[h].completions;
      && (completions == [Outcome.Cancelled] ==> AskedIn(events, h))
      && (completions != [] && completions != [Outcome.Cancelled] ==>
            WorkVerdict(events, h) == Some(completions[0]) && completions == [WorkVerdict(events, h).value])
  {
    CompletesOnceAndTruthfully(events, h);
    TransfersAreAsTold(events, h);
  }

  lemma StepAnswers(s: System, e: Event, thread: nat, answer: Option<CancelAnswer>)
    requires SystemInv(s) && Happen(s, e).Some?
    requires answer == if thread in s.answers then Some(s.answers[thread]) else None
    ensures var s' := Happen(s, e).value;
      (if thread in s'.answers then Some(s'.answers[thread]) else None) ==
      (if e.LookUp? && e.thread == thread && e.handle !in s.registry.items then Some(CancelInvalid)
       else if e == LetGo(thread) then Some(CancelOk) else answer)
  {
  }

  /** A cancelling call reports an invalid handle if and only if the handle was not registered when
      it looked, and success when it returns otherwise. */
  lemma {:induction false} CancelsAreAnsweredAsFound(events: seq<Event>, thread: nat)
    requires After(Start(), events).Some?
    ensures var s := After(Start(), events).value;
      AnswerIn(events, thread) == if thread in s.answers then Some(s.answers[thread]) else None
  {
    if events != [] {
      var init, last := events[..|events| - 1], events[|events| - 1];
      var s := After(Start(), init).value;
      CancelsAreAnsweredAsFound(init, thread);
      EveryRunKeepsInv(init);
      if last.LookUp? {
        TransfersAreAsTold(init, last.handle);
      }
      StepAnswers(s, last, thread, AnswerIn(init, thread));
    }
  }

  // ---------------------------------------------------------------- what a cancel achieves

  /** When a cancel returns, the message is sent or another cancelling thread is about to send it;
      nobody can lose it. So a lone cancel that returns before the select ended can end it. */
  lemma CancelIsNotLost(s: System, thread: nat)
    requires SystemInv(s) && Happen(s, LetGo(thread)).Some?
    ensures var h := s.lookups[thread]; var t := Happen(s, LetGo(thread)).value.transfers[h];
      && (t.sender.Sent? || (t.sender.Taken? && t.sender.thread != thread && t.sender.thread in t.holders))
      && (s.transfers[h].holders == {thread} && t.driver.Selecting? ==>
            Happen(Happen(s, LetGo(thread)).value, SelectCancel(h)).Some?)
  {
    var h := s.lookups[thread];
    assert HandleOk(s, h);
    LetGoKeepsInv(s, thread);
    assert HandleOk(Happen(s, LetGo(thread)).value, h);
  }

  /** The steps the driver still has to take. */
  function DriverRank(t: Transfer): nat
  {
    match t.driver
    case Unspawned => 4
    case Selecting => 3
    case Decided(_) => 2
    case Completing(_) => 1
    case Finished(_) => 0
  }

  function DriverStep(t: Transfer, h: nat): Event
  {
    match t.driver
    case Unspawned => Spawn(h)
    case Selecting => if t.work.Joined? then SelectJoined(h) else SelectCancel(h)
    case Decided(_) => RemoveHandle(h)
    case _ => Complete(h)
  }

  /** Whatever else happens, no step moves a driver backwards, and each of its own moves it on. */
  lemma DriverNeverGoesBack(s: System, e: Event, h: nat)
    requires SystemInv(s) && Happen(s, e).Some? && h in s.transfers
    ensures h in Happen(s, e).value.transfers
    ensures DriverRank(Happen(s, e).value.transfers[h]) ==
      DriverRank(s.transfers[h]) -
      (if (e.Spawn? || e.SelectCancel? || e.SelectJoined? || e.RemoveHandle? || e.Complete?) && e.handle == h then 1 else 0)
  {
    assert HandleOk(s, h);
  }

  /** A driver that has work to report, or a cancel to obey, is never stuck: it completes by its
      own steps alone, as many as its rank says. */
  lemma {:induction false} CompletionIsReached(s: System, h: nat) returns (steps: seq<Event>)
    requires SystemInv(s) && h in s.transfers
    requires s.transfers[h].sender.Sent? || s.transfers[h].work.Joined? || DriverRank(s.transfers[h]) < 3
    ensures |steps| == DriverRank(s.transfers[h])
    ensures After(s, steps).Some? && h in After(s, steps).value.transfers
    ensures |After(s, steps).value.transfers[h].completions| == 1
    decreases DriverRank(s.transfers[h])
  {
    assert HandleOk(s, h);
    if s.transfers[h].driver.Finished? {
      steps := [];
    } else {
      var e := DriverStep(s.transfers[h], h);
      var s' := Happen(s, e).value;
      HappenKeepsInv(s, e);
      DriverNeverGoesBack(s, e, h);
      var rest := CompletionIsReached(s', h);
      AfterCons(s, e, rest);
      steps := [e] + rest;
    }
  }

  lemma {:induction false} AfterCons(s: System, e: Event, rest: seq<Event>)
    requires Happen(s, e).Some?
    ensures After(s, [e] + rest) == After(Happen(s, e).value, rest)
  {
    if rest == [] {
      assert [e] + rest == [e];
      assert [e][..0] == [];
    } else {
      AfterCons(s, e, rest[..|rest| - 1]);
      assert ([e] + rest)[..|[e] + rest| - 1] == [e] + rest[..|rest| - 1];
    }
  }

  lemma {:induction false} AfterAppend(s: System, a: seq<Event>, b: seq<Event>)
    requires After(s, a).Some?
    ensures After(s, a + b) == After(After(s, a).value, b)
  {
    if b == [] {
      assert a + b == a;
    } else {
      AfterAppend(s, a, b[..|b| - 1]);
      assert (a + b)[..|a + b| - 1] == a + b[..|b| - 1];
    }
  }

  function WholeCancel(thread: nat, h: nat): seq<Event>
  {
    [LookUp(thread, h)] + ([TakeSender(thread)] + [LetGo(thread)])
  }

  /** A cancel that nobody interferes with sends the message. */
  lemma LoneCancelSends(s: System, h: nat, thread: nat)
    requires SystemInv(s) && h in s.transfers && thread !in s.lookups && thread !in s.answers
    requires s.transfers[h].sender.Held? && s.transfers[h].driver.Selecting? && s.transfers[h].holders == {}
    ensures After(s, WholeCancel(thread, h)).Some?
    ensures var s' := After(s, WholeCancel(thread, h)).value;
      && h in s'.transfers && s'.transfers[h] == s.transfers[h].(sender := Sent, asked := true)
      && thread in s'.answers && s'.answers[thread] == CancelOk
  {
    assert HandleOk(s, h);
    var s1 := Happen(s, LookUp(thread, h)).value;
    var s2 := Happen(s1, TakeSender(thread)).value;
    AfterCons(s2, LetGo(thread), []);
    assert [LetGo(thread)] + [] == [LetGo(thread)];
    AfterCons(s1, TakeSender(thread), [LetGo(thread)]);
    AfterCons(s, LookUp(thread, h), [TakeSender(thread)] + [LetGo(thread)]);
    assert {thread} - {thread} == {};
  }

  /** The inner task's own result, from its end to the callback. */
  function WholeJoin(h: nat): seq<Event>
  {
    [WorkEnds(h, Success)] + ([SelectJoined(h)] + ([RemoveHandle(h)] + [Complete(h)]))
  }

  lemma LoneJoinSucceeds(s: System, h: nat)
    requires h in s.transfers && s.transfers[h].driver.Selecting? && s.transfers[h].work.Running?
    requires s.transfers[h].completions == []
    ensures After(s, WholeJoin(h)).Some? && h in After(s, WholeJoin(h)).value.transfers
    ensures After(s, WholeJoin(h)).value.transfers[h].completions == [Success]
    ensures After(s, WholeJoin(h)).value.answers == s.answers
  {
    var s1 := Happen(s, WorkEnds(h, Success)).value;
    var s2 := Happen(s1, SelectJoined(h)).value;
    var s3 := Happen(s2, RemoveHandle(h)).value;
    AfterCons(s3, Complete(h), []);
    assert [Complete(h)] + [] == [Complete(h)];
    AfterCons(s2, RemoveHandle(h), [Complete(h)]);
    AfterCons(s1, SelectJoined(h), [RemoveHandle(h)] + [Complete(h)]);
    AfterCons(s, WorkEnds(h, Success), [SelectJoined(h)] + ([RemoveHandle(h)] + [Complete(h)]));
  }

  /** From the very start: one download, registered, spawned and selecting. */
  function FirstDownload(): seq<Event>
  {
    [Reserve] + ([Insert(1)] + [Spawn(1)])
  }

  lemma FirstDownloadSelects()
    ensures After(Start(), FirstDownload()).Some?
    ensures var s := After(Start(), FirstDownload()).value;
      && 1 in s.transfers && s.transfers[1] == NewTransfer().(driver := Selecting)
      && s.lookups == map[] && s.answers == map[]
  {
    var s1 := Happen(Start(), Reserve).value;
    var s2 := Happen(s1, Insert(1)).value;
    AfterCons(s2, Spawn(1), []);
    assert [Spawn(1)] + [] == [Spawn(1)];
    AfterCons(s1, Insert(1), [Spawn(1)]);
    AfterCons(Start(), Reserve, [Insert(1)] + [Spawn(1)]);
  }

  /** The witness, a whole run from the start: a cancel returns success and the download still
      succeeds, because the inner task ends after the message was sent and before the driver looks
      at the select again. */
  lemma CompletionMayBeatCancel()
    ensures var run := FirstDownload() + (WholeCancel(0, 1) + WholeJoin(1));
      && After(Start(), run).Some?
      && 1 in After(Start(), run).value.transfers && 0 in After(Start(), run).value.answers
      && After(Start(), run).value.answers[0] == CancelOk
      && After(Start(), run).value.transfers[1].completions == [Success]
  {
    FirstDownloadSelects();
    EveryRunKeepsInv(FirstDownload());
    var s := After(Start(), FirstDownload()).value;
    LoneCancelSends(s, 1, 0);
    LoneJoinSucceeds(After(s, WholeCancel(0, 1)).value, 1);
    AfterAppend(s, WholeCancel(0, 1), WholeJoin(1));
    AfterAppend(Start(), FirstDownload(), WholeCancel(0, 1) + WholeJoin(1));
  }

  /** What the select decides: without a sent cancel the inner task's own result, with the inner
      task still running `Cancelled`. */
  lemma SelectDecides(s: System, e: Event, h: nat)
    requires SystemInv(s) && h in s.transfers && s.transfers[h].driver.Selecting?
    requires Happen(s, e).Some? && Happen(s, e).value.transfers[h].driver.Decided?
    ensures var outcome := Happen(s, e).value.transfers[h].driver.outcome;
      && (!s.transfers[h].work.Joined? ==> outcome == Outcome.Cancelled)
      && (!s.transfers[h].sender.Sent? ==> s.transfers[h].work == Joined(outcome))
  {
    assert HandleOk(s, h);
  }

  /** Every step that ends the select of this download ends it as cancelled. */
  ghost predicate MustCancel(s: System, h: nat)
  {
    forall e ::
      Happen(s, e).Some? && h in Happen(s, e).value.transfers &&
      Happen(s, e).value.transfers[h].driver.Decided? ==>
      Happen(s, e).value.transfers[h].driver.outcome == Outcome.Cancelled
  }

  /** Once the message is sent, the select is bound to report the cancellation if and only if the
      inner task has not ended. */
  lemma SentCancelWinsIffStillRunning(s: System, h: nat)
    requires SystemInv(s) && h in s.transfers
    requires s.transfers[h].driver.Selecting? && s.transfers[h].sender.Sent?
    ensures MustCancel(s, h) <==> !s.transfers[h].work.Joined?
  {
    assert HandleOk(s, h);
    if s.transfers[h].work.Joined? {
      assert Happen(s, SelectJoined(h)).value.transfers[h].driver.outcome != Outcome.Cancelled;
    } else {
      forall e | Happen(s, e).Some? && h in Happen(s, e).value.transfers && Happen(s, e).value.transfers[h].driver.Decided?
        ensures Happen(s, e).value.transfers[h].driver.outcome == Outcome.Cancelled
      {
        SelectDecides(s, e, h);
      }
    }
  }

  /** In every continuation, a completion of this download is `Cancelled`. */
  ghost predicate BoundToCancel(s: System, h: nat)
  {
    forall later ::
      After(s, later).Some? && h in After(s, later).value.transfers &&
      After(s, later).value.transfers[h].driver.Finished? ==>
      After(s, later).value.transfers[h].completions == [Outcome.Cancelled]
  }

  predicate LeftAsCancelled(t: Transfer)
  {
    HasOutcome(t.driver) && t.driver.outcome.Cancelled?
  }

  lemma StepKeepsOutcome(s: System, e: Event, h: nat)
    requires SystemInv(s) && h in s.transfers && HasOutcome(s.transfers[h].driver) && Happen(s, e).Some?
    ensures var s' := Happen(s, e).value;
      h in s'.transfers && HasOutcome(s'.transfers[h].driver)
      && s'.transfers[h].driver.outcome == s.transfers[h].driver.outcome
  {
    assert HandleOk(s, h);
  }

  lemma {:induction false} OutcomeIsKept(s: System, later: seq<Event>, h: nat)
    requires SystemInv(s) && h in s.transfers && HasOutcome(s.transfers[h].driver) && After(s, later).Some?
    ensures var s' := After(s, later).value;
      SystemInv(s') && h in s'.transfers && HasOutcome(s'.transfers[h].driver)
      && s'.transfers[h].driver.outcome == s.transfers[h].driver.outcome
  {
    if later != [] {
      var init, last := later[..|later| - 1], later[|later| - 1];
      OutcomeIsKept(s, init, h);
      HappenKeepsInv(After(s, init).value, last);
      StepKeepsOutcome(After(s, init).value, last, h);
    }
  }

  /** A download whose driver has not left the select by the cancel branch can still complete with
      something else. */
  lemma CanStillComplete(s: System, h: nat) returns (later: seq<Event>)
    requires SystemInv(s) && h in s.transfers && !LeftAsCancelled(s.transfers[h])
    ensures After(s, later).Some? && h in After(s, later).value.transfers
    ensures After(s, later).value.transfers[h].driver.Finished?
    ensures After(s, later).value.transfers[h].completions != [Outcome.Cancelled]
    decreases DriverRank(s.transfers[h]), if s.transfers[h].work.Running? then 1 else 0
  {
    assert HandleOk(s, h);
    var t := s.transfers[h];
    if t.driver.Finished? {
      later := [];
    } else {
      var e := if t.driver.Selecting? && t.work.Running? then WorkEnds(h, Success)
               else if t.driver.Selecting? then SelectJoined(h)
               else DriverStep(t, h);
      var s' := Happen(s, e).value;
      HappenKeepsInv(s, e);
      DriverNeverGoesBack(s, e, h);
      assert !LeftAsCancelled(s'.transfers[h]);
      var rest := CanStillComplete(s', h);
      AfterCons(s, e, rest);
      later := [e] + rest;
    }
  }

  /** The exact condition for "a cancelled transfer completes as cancelled", over everything that
      can still happen: it is certain if and only if the driver has already left the select by the
      cancel branch. */
  lemma CancelledForCertainIffSelectLeft(s: System, h: nat)
    requires SystemInv(s) && h in s.transfers
    ensures BoundToCancel(s, h) <==> LeftAsCancelled(s.transfers[h])
  {
    if LeftAsCancelled(s.transfers[h]) {
      forall later | After(s, later).Some? && h in After(s, later).value.transfers &&
                     After(s, later).value.transfers[h].driver.Finished?
        ensures After(s, later).value.transfers[h].completions == [Outcome.Cancelled]
      {
        OutcomeIsKept(s, later, h);
        assert HandleOk(After(s, later).value, h);
      }
    } else {
      var later := CanStillComplete(s, h);
    }
  }

  // ---------------------------------------------------------------- the class

  /** A cancel that nobody interrupts, whatever became of the sender before. */
  function CancelledWhole(s: System, thread: nat, h: nat): System
    requires h in s.transfers
  {
    var t := s.transfers[h];
    s.(transfers := s.transfers[h := t.(asked := true, sender := if t.sender.Held? then Sent else t.sender)],
       answers := s.answers[thread := CancelOk])
  }

  lemma UninterruptedCancel(s: System, thread: nat, h: nat)
    requires SystemInv(s) && h in s.transfers && h in s.registry.items
    requires thread !in s.lookups && thread !in s.answers
    ensures SystemInv(CancelledWhole(s, thread, h))
  {
    assert HandleOk(s, h);
    var t := s.transfers[h];
    var s1 := Happen(s, LookUp(thread, h)).value;
    var s2 := Happen(s1, TakeSender(thread)).value;
    var s3 := Happen(s2, LetGo(thread)).value;
    var s' := CancelledWhole(s, thread, h);
    assert s3.transfers[h] == s'.transfers[h] by { assert t.holders + {thread} - {thread} == t.holders; }
    assert s3.transfers == s'.transfers;
    assert s3.lookups == s'.lookups;
    assert s3 == s';
    HappenKeepsInv(s, LookUp(thread, h));
    HappenKeepsInv(s1, TakeSender(thread));
    HappenKeepsInv(s2, LetGo(thread));
  }

  /** The `TRANSFERS` registry with the transfers' cancel cells; each method is one call that
      nobody interrupts. */
  class BlobTransfers {
    var registry: Shared<()>
    var transfers: map<nat, Transfer>
    var lookups: map<nat, nat>
    var answers: map<nat, CancelAnswer>

    constructor ()
      ensures State() == Start()
    {
      registry, transfers, lookups, answers := Registries.Fresh(), map[], map[], map[];
    }

    function State(): System
      reads this
    {
      System(registry, transfers, lookups, answers)
    }

    /** A bad ticket or destination is refused before anything is registered. */
    method BlobDownload(accepted: bool) returns (handle: Option<nat>)
      requires SystemInv(State())
      modifies this`registry, this`transfers
      ensures SystemInv(State())
      ensures handle.Some? <==> accepted
      ensures handle.None? ==> State() == old(State())
      ensures handle.Some? ==>
        && handle.value == old(registry).next && handle.value !in old(transfers)
        && transfers == old(transfers)[handle.value := NewTransfer().(driver := Selecting)]
        && handle.value in registry.items
    {
      if !accepted {
        return None;
      }
      ghost var s := State();
      var h := registry.next;
      assert forall t :: t in transfers ==> t < h by {
        forall t | t in transfers ensures t < h { assert HandleOk(s, t); }
      }
      registry := registry.(next := h + 1, reserved := registry.reserved + {h});
      HappenKeepsInv(s, Reserve);
      ghost var s1 := State();
      registry := registry.(items := registry.items[h := ()], reserved := registry.reserved - {h});
      transfers := transfers[h := NewTransfer()];
      HappenKeepsInv(s1, Insert(h));
      ghost var s2 := State();
      transfers := transfers[h := transfers[h].(driver := Selecting)];
      HappenKeepsInv(s2, Spawn(h));
      return Some(h);
    }

    method BlobDownloadCancel(thread: nat, handle: nat) returns (answer: CancelAnswer)
      requires SystemInv(State()) && thread !in lookups && thread !in answers
      modifies this
      ensures SystemInv(State()) && registry == old(registry) && lookups == old(lookups)
      ensures answer == if handle in old(registry).items then CancelOk else CancelInvalid
      ensures answers == old(answers)[thread := answer]
      ensures transfers ==
        if handle !in old(transfers) || handle !in old(registry).items then old(transfers)
        else
          var t := old(transfers)[handle];
          old(transfers)[handle := t.(asked := true, sender := if t.sender.Held? then Sent else t.sender)]
    {
      ghost var s := State();
      HappenKeepsInv(s, LookUp(thread, handle));
      if handle !in registry.items {
        answers := answers[thread := CancelInvalid];
        return CancelInvalid;
      }
      UninterruptedCancel(s, thread, handle);
      var state := Grabbed(transfers[handle], thread);
      state := SenderTaken(state, thread);
      state := Released(state, thread);
      assert HandleOk(s, handle);
      assert state == CancelledWhole(s, thread, handle).transfers[handle] by {
        assert s.transfers[handle].holders + {thread} - {thread} == s.transfers[handle].holders;
      }
      transfers := transfers[handle := state];
      answers := answers[thread := CancelOk];
      return CancelOk;
    }

    /** The driver's tail: out of the select with a result, unregister, report. */
    method Conclude(handle: nat)
      requires SystemInv(State()) && handle in transfers && transfers[handle].driver.Decided?
      modifies this`registry, this`transfers
      ensures SystemInv(State())
      ensures transfers.Keys == old(transfers).Keys
      ensures transfers[handle].completions == [old(transfers)[handle].driver.outcome]
      ensures registry.items == old(registry).items - {handle}
      ensures forall h :: h in transfers && h != handle ==> transfers[h] == old(transfers)[h]
    {
      ghost var s := State();
      assert HandleOk(s, handle);
      HappenKeepsInv(s, RemoveHandle(handle));
      registry := registry.(items := registry.items - {handle});
      transfers := transfers[handle := Advance(transfers[handle], RemoveHandle(handle)).value];
      ghost var s1 := State();
      HappenKeepsInv(s1, Complete(handle));
      transfers := transfers[handle := Advance(transfers[handle], Complete(handle)).value];
    }
  }
}
