/** Concurrent senders on one stream (`stream_send`, `stream_close` in
    `rust/iroh-rn-core/src/streams.rs`): every spawned task is interleaved with every other
    at each lock operation and each partial write. */
module SendLock {
  import opened Base
  import opened Framing

  datatype Mode = Framed | Raw

  function Verbatim(data: seq<Byte>): seq<Byte>
  {
    data
  }

  function Encoder(mode: Mode): seq<Byte> -> seq<Byte>
  {
    match mode
    case Framed => Frame
    case Raw => Verbatim
  }

  /** The bytes one send puts on the wire when it succeeds. */
  function Encoding(mode: Mode, data: seq<Byte>): seq<Byte>
  {
    Encoder(mode)(data)
  }

  function Encodings(mode: Mode, payloads: seq<seq<Byte>>): seq<Byte>
  {
    FlatMap(Encoder(mode), payloads)
  }

  /** One spawned send. `written` counts the bytes of its encoding already on the wire. */
  datatype Task =
    | Queued(data: seq<Byte>)
    | Writing(data: seq<Byte>, written: nat)
    | Sent(data: seq<Byte>)
    | Errored(data: seq<Byte>, written: nat)

  datatype Closing = Open | CloseQueued | CloseDone

  /** The send half. `order` lists the sends in the order they took the lock, `done` those that
      reported success, and `torn` the send whose write failed half way, if there is one. */
  datatype SendHalf = SendHalf(
    mode: Mode,
    tasks: seq<Task>,
    holder: Option<nat>,
    closing: Closing,
    finished: bool,
    dead: bool,
    wire: seq<Byte>,
    order: seq<nat>,
    done: seq<nat>,
    torn: Option<nat>)

  datatype Step =
    | Submit(data: seq<Byte>)   // stream_send is called
    | Acquire(task: nat)        // a waiting send gets the mutex
    | Write(count: nat)         // QUIC takes some more bytes from the holder
    | WriteFails                // the holder's write_all returns an error
    | Release                   // the holder wrote everything and drops the guard
    | Close                     // stream_close is called
    | Finish                    // the close task gets the mutex and finishes the stream
    | PeerGone                  // the peer stops the stream or the connection is lost

  function Fresh(mode: Mode): SendHalf
  {
    SendHalf(mode, [], None, Open, false, false, [], [], [], None)
  }

  /** The state after `step`, or `None` when the step is not possible in `s`. */
  function Apply(s: SendHalf, step: Step): Option<SendHalf>
  {
    match step
    case Submit(data) =>
      // After stream_close the registry lookup fails; an oversized frame is refused up front.
      // Either way the call completes with an error and nothing is spawned.
      if s.closing != Open || (s.mode == Framed && |data| > MAX_FRAME_SIZE) then Some(s)
      else Some(s.(tasks := s.tasks + [Queued(data)]))
    case Acquire(task) =>
      if s.holder == None && task < |s.tasks| && s.tasks[task].Queued? then
        Some(s.(holder := Some(task), order := s.order + [task],
                tasks := s.tasks[task := Writing(s.tasks[task].data, 0)]))
      else None
    case Write(count) =>
      if s.holder.Some? && s.holder.value < |s.tasks| && s.tasks[s.holder.value].Writing? then
        var Writing(data, written) := s.tasks[s.holder.value];
        var whole := Encoding(s.mode, data);
        if !s.dead && !s.finished && 0 < count && written + count <= |whole| then
          Some(s.(wire := s.wire + whole[written..written + count],
                  tasks := s.tasks[s.holder.value := Writing(data, written + count)]))
        else None
      else None
    case WriteFails =>
      if s.holder.Some? && s.holder.value < |s.tasks| && s.tasks[s.holder.value].Writing? then
        var Writing(data, written) := s.tasks[s.holder.value];
        var whole := Encoding(s.mode, data);
        if written < |whole| then
          // A failed write is final: every later write on the stream fails as well.
          Some(s.(holder := None, dead := s.dead || !s.finished,
                  torn := if written > 0 then s.holder else s.torn,
                  tasks := s.tasks[s.holder.value := Errored(data, written)]))
        else None
      else None
    case Release =>
      if s.holder.Some? && s.holder.value < |s.tasks| && s.tasks[s.holder.value].Writing? then
        var Writing(data, written) := s.tasks[s.holder.value];
        if written == |Encoding(s.mode, data)| then
          Some(s.(holder := None, done := s.done + [s.holder.value],
                  tasks := s.tasks[s.holder.value := Sent(data)]))
        else None
      else None
    case Close =>
      Some(if s.closing == Open then s.(closing := CloseQueued) else s)
    case Finish =>
      if s.holder == None && s.closing == CloseQueued then
        Some(s.(closing := CloseDone, finished := !s.dead))
      else None
    case PeerGone =>
      Some(s.(dead := true))
  }

  /** The state after a run of steps, or `None` if one of them was not possible. */
  function Run(mode: Mode, steps: seq<Step>): Option<SendHalf>
  {
    if steps == [] then Some(Fresh(mode))
    else
      match Run(mode, steps[..|steps| - 1])
      case None => None
      case Some(s) => Apply(s, steps[|steps| - 1])
  }

  // ---------------------------------------------------------------- what the steps say

  /** What was submitted, in call order: every payload that came before `stream_close` and, on a
      framed stream, is within the frame limit. */
  function Submitted(mode: Mode, steps: seq<Step>): seq<seq<Byte>>
  {
    if steps == [] then []
    else
      var init, last := steps[..|steps| - 1], steps[|steps| - 1];
      Submitted(mode, init) +
        if last.Submit? && !EverClosed(init) && (mode.Framed? ==> |last.data| <= MAX_FRAME_SIZE)
        then [last.data] else []
  }

  predicate EverClosed(steps: seq<Step>)
  {
    steps != [] && (EverClosed(steps[..|steps| - 1]) || steps[|steps| - 1].Close?)
  }

  /** Which submissions got the lock, in that order. */
  function Acquired(steps: seq<Step>): seq<nat>
  {
    if steps == [] then []
    else
      var last := steps[|steps| - 1];
      Acquired(steps[..|steps| - 1]) + if last.Acquire? then [last.task] else []
  }

  /** Who has the lock. */
  function Locker(steps: seq<Step>): Option<nat>
  {
    if steps == [] then None
    else
      match steps[|steps| - 1]
      case Acquire(task) => Some(task)
      case Release | WriteFails => None
      case _ => Locker(steps[..|steps| - 1])
  }

  /** Which submissions were written whole, in lock order. */
  function Released(steps: seq<Step>): seq<nat>
  {
    if steps == [] then []
    else
      var init := steps[..|steps| - 1];
      Released(init) + if steps[|steps| - 1].Release? && Locker(init).Some? then [Locker(init).value] else []
  }

  predicate Faulty(steps: seq<Step>)
  {
    steps != [] &&
    (Faulty(steps[..|steps| - 1]) || steps[|steps| - 1].PeerGone? || steps[|steps| - 1].WriteFails?)
  }

  /** The close got its turn before anything had gone wrong. */
  predicate FinishedCleanly(steps: seq<Step>)
  {
    steps != [] &&
    var init := steps[..|steps| - 1];
    FinishedCleanly(init) || (steps[|steps| - 1].Finish? && !Faulty(init))
  }

  function Picked<T>(all: seq<T>, ids: seq<nat>): seq<T>
  {
    if ids == [] then []
    else
      var last := ids[|ids| - 1];
      Picked(all, ids[..|ids| - 1]) + if last < |all| then [all[last]] else []
  }

  /** The payloads that were sent whole, in lock order. */
  function Sends(mode: Mode, steps: seq<Step>): seq<seq<Byte>>
  {
    Picked(Submitted(mode, steps), Released(steps))
  }

  /** At most one more payload: one that got the lock and was not written whole. */
  ghost predicate StillOpen(mode: Mode, steps: seq<Step>, more: seq<seq<Byte>>)
  {
    more == [] ||
    exists i :: i in Acquired(steps) && i !in Released(steps) && i < |Submitted(mode, steps)| &&
                more == [Submitted(mode, steps)[i]]
  }

  // ---------------------------------------------------------------- reading a state

  /** The payloads of the sends that reported success, in lock order. */
  function Completed(s: SendHalf): seq<seq<Byte>>
    requires InRange(s)
  {
    seq(|s.done|, k requires 0 <= k < |s.done| => s.tasks[s.done[k]].data)
  }

  predicate InRange(s: SendHalf)
  {
    && (forall k :: 0 <= k < |s.done| ==> s.done[k] < |s.tasks|)
    && (forall k :: 0 <= k < |s.order| ==> s.order[k] < |s.tasks|)
    && (s.holder.Some? ==> s.holder.value < |s.tasks|)
    && (s.torn.Some? ==> s.torn.value < |s.tasks|)
  }

  /** What one send has put on the wire while it is, or was left, incomplete. */
  function Written(mode: Mode, task: Task): seq<Byte>
  {
    if (task.Writing? || task.Errored?) && task.written <= |Encoding(mode, task.data)|
    then Encoding(mode, task.data)[..task.written]
    else []
  }

  /** What the lock holder has put on the wire so far. */
  function Partial(s: SendHalf): seq<Byte>
    requires InRange(s)
  {
    if s.holder.Some? then Written(s.mode, s.tasks[s.holder.value]) else []
  }

  /** What a failed write left behind. */
  function Remains(s: SendHalf): seq<Byte>
    requires InRange(s)
  {
    if s.torn.Some? then Written(s.mode, s.tasks[s.torn.value]) else []
  }

  /** The one send, if any, that may be on the wire in part. */
  function InFlight(s: SendHalf): seq<seq<Byte>>
    requires InRange(s)
  {
    if Partial(s) != [] then [s.tasks[s.holder.value].data]
    else if Remains(s) != [] then [s.tasks[s.torn.value].data]
    else []
  }

  ghost predicate LockInv(s: SendHalf)
  {
    && InRange(s)
    && (forall i :: 0 <= i < |s.tasks| ==>
          (s.tasks[i].Queued? <==> i !in s.order) &&
          (s.tasks[i].Sent? <==> i in s.done) &&
          (s.tasks[i].Writing? <==> s.holder == Some(i)) &&
          (s.mode == Framed ==> |s.tasks[i].data| <= MAX_FRAME_SIZE))
    && NoDup(s.order)
    && Subsequence(s.done, s.order)
    && (s.holder.Some? ==>
          s.tasks[s.holder.value].written <= |Encoding(s.mode, s.tasks[s.holder.value].data)| &&
          s.order != [] && s.order[|s.order| - 1] == s.holder.value &&
          Subsequence(s.done, s.order[..|s.order| - 1]))
    && (s.finished ==> s.closing == CloseDone)
  }

  ghost predicate WireInv(s: SendHalf)
    requires InRange(s)
  {
    && s.wire == Encodings(s.mode, Completed(s)) + Partial(s) + Remains(s)
    && (s.torn.Some? ==> s.tasks[s.torn.value].Errored? && s.dead && !s.finished && Partial(s) == [])
    && (s.finished ==> Partial(s) == [])
  }

  lemma AcquireKeepsLock(s: SendHalf, task: nat)
    requires LockInv(s) && Apply(s, Acquire(task)).Some?
    ensures LockInv(Apply(s, Acquire(task)).value)
  {
    var s' := Apply(s, Acquire(task)).value;
    assert s'.order[..|s'.order| - 1] == s.order;
    SubsequenceSkip(s.done, s.order, task);
    assert task !in s.order && task !in s.done;
  }

  lemma OtherStepsKeepLock(s: SendHalf, step: Step)
    requires LockInv(s) && Apply(s, step).Some?
    requires step.Submit? || step.Close? || step.Finish? || step.PeerGone?
    ensures LockInv(Apply(s, step).value)
  {
    assert |s.tasks| !in s.order && |s.tasks| !in s.done;
  }

  /** Steps that put nothing on the wire and complete no send. */
  lemma QuietStepsKeepWire(s: SendHalf, step: Step)
    requires InRange(s) && WireInv(s) && Apply(s, step).Some?
    requires step.Acquire? || step.Submit? || step.Close? || step.Finish? || step.PeerGone?
    requires step.Acquire? ==> forall k :: 0 <= k < |s.done| ==> s.done[k] != step.task
    requires InRange(Apply(s, step).value)
    ensures WireInv(Apply(s, step).value)
  {
    var s' := Apply(s, step).value;
    assert Completed(s') == Completed(s);
    assert Partial(s') == Partial(s);
    assert Remains(s') == Remains(s);
  }

  lemma WriteKeepsLock(s: SendHalf, count: nat)
    requires LockInv(s) && Apply(s, Write(count)).Some?
    ensures LockInv(Apply(s, Write(count)).value)
  {
  }

  lemma WriteFailsKeepsLock(s: SendHalf)
    requires LockInv(s) && Apply(s, WriteFails).Some?
    ensures LockInv(Apply(s, WriteFails).value)
  {
    assert s.holder.value in s.order;
  }

  lemma WriteKeepsWire(s: SendHalf, count: nat)
    requires InRange(s) && WireInv(s) && Apply(s, Write(count)).Some?
    ensures WireInv(Apply(s, Write(count)).value)
  {
    var s' := Apply(s, Write(count)).value;
    var Writing(data, written) := s.tasks[s.holder.value];
    var whole := Encoding(s.mode, data);
    assert Completed(s') == Completed(s);
    assert s.torn == None;
    assert Partial(s) == whole[..written];
    assert Partial(s') == whole[..written + count];
    assert whole[..written] + whole[written..written + count] == whole[..written + count];
  }

  lemma WriteFailsKeepsWire(s: SendHalf)
    requires InRange(s) && WireInv(s) && Apply(s, WriteFails).Some?
    ensures WireInv(Apply(s, WriteFails).value)
  {
    var s' := Apply(s, WriteFails).value;
    assert Completed(s') == Completed(s);
    assert Partial(s') == [];
    assert Remains(s') == Partial(s) + Remains(s);
  }

  lemma ReleaseKeepsLock(s: SendHalf)
    requires LockInv(s) && Apply(s, Release).Some?
    ensures LockInv(Apply(s, Release).value)
  {
    var s' := Apply(s, Release).value;
    var i := s.holder.value;
    SubsequenceTake(s.done, s.order[..|s.order| - 1], i);
    assert s.order == s.order[..|s.order| - 1] + [i];
    assert i in s.order;
    forall j | 0 <= j < |s'.tasks|
      ensures s'.tasks[j].Queued? <==> j !in s'.order
      ensures s'.tasks[j].Sent? <==> j in s'.done
    {
      assert j in s'.done <==> j in s.done || j == i;
    }
  }

  lemma ReleaseKeepsWire(s: SendHalf)
    requires InRange(s) && WireInv(s) && Apply(s, Release).Some?
    requires InRange(Apply(s, Release).value)
    ensures WireInv(Apply(s, Release).value)
  {
    var s' := Apply(s, Release).value;
    var i := s.holder.value;
    var data := s.tasks[i].data;
    var whole := Encoding(s.mode, data);
    FlatMapSnoc(Encoder(s.mode), Completed(s), data);
    assert Completed(s') == Completed(s) + [data];
    assert Encodings(s.mode, Completed(s')) == Encodings(s.mode, Completed(s)) + whole;
    assert Partial(s) == whole by {
      assert whole[..|whole|] == whole;
    }
    assert Partial(s') == [];
  }

  lemma StepKeepsLock(s: SendHalf, step: Step)
    requires LockInv(s) && Apply(s, step).Some?
    ensures LockInv(Apply(s, step).value)
  {
    match step
    case Acquire(task) => AcquireKeepsLock(s, task);
    case Write(count) => WriteKeepsLock(s, count);
    case WriteFails => WriteFailsKeepsLock(s);
    case Release => ReleaseKeepsLock(s);
    case _ => OtherStepsKeepLock(s, step);
  }

  lemma StepKeepsWire(s: SendHalf, step: Step)
    requires LockInv(s) && WireInv(s) && Apply(s, step).Some?
    requires InRange(Apply(s, step).value)
    ensures WireInv(Apply(s, step).value) && Apply(s, step).value.mode == s.mode
  {
    match step
    case Write(count) => WriteKeepsWire(s, count);
    case WriteFails => WriteFailsKeepsWire(s);
    case Release => ReleaseKeepsWire(s);
    case _ => QuietStepsKeepWire(s, step);
  }

  lemma {:induction false} RunKeepsInv(mode: Mode, steps: seq<Step>)
    requires Run(mode, steps).Some?
    ensures LockInv(Run(mode, steps).value) && WireInv(Run(mode, steps).value)
    ensures Run(mode, steps).value.mode == mode
  {
    if steps != [] {
      var before := steps[..|steps| - 1];
      RunKeepsInv(mode, before);
      StepKeepsLock(Run(mode, before).value, steps[|steps| - 1]);
      StepKeepsWire(Run(mode, before).value, steps[|steps| - 1]);
    }
  }

  // ---------------------------------------------------------------- a state is what its steps say

  ghost predicate HoldsSubmissions(tasks: seq<Task>, submitted: seq<seq<Byte>>)
  {
    |tasks| == |submitted| && forall i :: 0 <= i < |tasks| ==> tasks[i].data == submitted[i]
  }

  ghost predicate Mirrors(s: SendHalf, steps: seq<Step>)
  {
    && s.order == Acquired(steps) && s.holder == Locker(steps) && s.done == Released(steps)
    && (s.closing == Open <==> !EverClosed(steps))
    && (s.finished <==> FinishedCleanly(steps))
    && (!s.finished ==> (s.dead <==> Faulty(steps)))
  }

  lemma StepMirrors(s: SendHalf, steps: seq<Step>, step: Step)
    requires LockInv(s) && Mirrors(s, steps) && Apply(s, step).Some?
    ensures Mirrors(Apply(s, step).value, steps + [step])
  {
    assert (steps + [step])[..|steps + [step]| - 1] == steps;
  }

  lemma StepKeepsSubmissions(s: SendHalf, steps: seq<Step>, step: Step)
    requires Mirrors(s, steps) && HoldsSubmissions(s.tasks, Submitted(s.mode, steps)) && Apply(s, step).Some?
    ensures HoldsSubmissions(Apply(s, step).value.tasks, Submitted(s.mode, steps + [step]))
  {
    assert (steps + [step])[..|steps + [step]| - 1] == steps;
  }

  /** Every task is a submission, with its own payload, and the lock, the successes and the close
      are as the steps say. */
  lemma {:induction false} StateIsWhatTheStepsSay(mode: Mode, steps: seq<Step>)
    requires Run(mode, steps).Some?
    ensures var s := Run(mode, steps).value;
      HoldsSubmissions(s.tasks, Submitted(mode, steps)) && Mirrors(s, steps)
  {
    if steps != [] {
      var init, last := steps[..|steps| - 1], steps[|steps| - 1];
      StateIsWhatTheStepsSay(mode, init);
      RunKeepsInv(mode, init);
      assert steps == init + [last];
      StepMirrors(Run(mode, init).value, init, last);
      StepKeepsSubmissions(Run(mode, init).value, init, last);
    }
  }

  lemma {:induction false} PickedAre<T>(all: seq<T>, ids: seq<nat>)
    requires forall k :: 0 <= k < |ids| ==> ids[k] < |all|
    ensures |Picked(all, ids)| == |ids|
    ensures forall k :: 0 <= k < |ids| ==> Picked(all, ids)[k] == all[ids[k]]
  {
    if ids != [] {
      PickedAre(all, ids[..|ids| - 1]);
    }
  }

  lemma CompletedAreTheSends(mode: Mode, steps: seq<Step>)
    requires Run(mode, steps).Some?
    ensures InRange(Run(mode, steps).value)
    ensures Completed(Run(mode, steps).value) == Sends(mode, steps)
    ensures forall i :: i in Released(steps) ==> i < |Submitted(mode, steps)|
  {
    RunKeepsInv(mode, steps);
    StateIsWhatTheStepsSay(mode, steps);
    PickedAre(Submitted(mode, steps), Released(steps));
  }

  lemma OpenSendIsNotReleased(mode: Mode, steps: seq<Step>)
    requires Run(mode, steps).Some?
    ensures InRange(Run(mode, steps).value)
    ensures StillOpen(mode, steps, InFlight(Run(mode, steps).value))
  {
    RunKeepsInv(mode, steps);
    StateIsWhatTheStepsSay(mode, steps);
    var s := Run(mode, steps).value;
    if InFlight(s) != [] {
      var i := if Partial(s) != [] then s.holder.value else s.torn.value;
      assert i in s.order && i !in s.done;
    }
  }

  // ---------------------------------------------------------------- what every run guarantees

  /** On any run the wire is the whole encodings of the submitted payloads that were sent, in lock
      order, then a proper part of one more: the holder's, or the one whose failure killed the
      stream. */
  lemma WireIsWholeSends(mode: Mode, steps: seq<Step>)
    requires Run(mode, steps).Some?
    ensures var s := Run(mode, steps).value;
      && InRange(s)
      && Subsequence(Released(steps), Acquired(steps)) && NoDup(Acquired(steps))
      && (forall i :: i in Acquired(steps) ==> i < |Submitted(mode, steps)|)
      && (forall i :: 0 <= i < |s.tasks| ==> (s.tasks[i].Sent? <==> i in Released(steps)))
      && s.wire == Encodings(mode, Sends(mode, steps)) + Partial(s) + Remains(s)
      && (Partial(s) == [] || Remains(s) == [])
  {
    RunKeepsInv(mode, steps);
    StateIsWhatTheStepsSay(mode, steps);
    CompletedAreTheSends(mode, steps);
  }

  lemma SendsFit(s: SendHalf)
    requires LockInv(s) && s.mode == Framed
    ensures Sendable(Completed(s)) && Sendable(Completed(s) + InFlight(s))
  {
    forall k | 0 <= k < |Completed(s)|
      ensures |Completed(s)[k]| <= MAX_FRAME_SIZE
    {
      assert Completed(s)[k] == s.tasks[s.done[k]].data;
    }
  }

  /** `stream_close` takes the same lock, so a framed stream that was finished locally ends on a
      frame boundary: its reader delivers exactly the payloads that were submitted and sent, in
      lock order, and reports an orderly end, however the network splits the bytes. */
  lemma FinishedStreamReadsBack(steps: seq<Step>, delivered: seq<seq<Byte>>, reason: Option<CloseReason>)
    requires Run(Framed, steps).Some? && FinishedCleanly(steps)
    ensures ReadsAs(Run(Framed, steps).value.wire, Fin, delivered, reason) <==>
      delivered == Sends(Framed, steps) && reason == None
  {
    RunKeepsInv(Framed, steps);
    StateIsWhatTheStepsSay(Framed, steps);
    CompletedAreTheSends(Framed, steps);
    var s := Run(Framed, steps).value;
    SendsFit(s);
    assert s.wire == Frames(Completed(s));
    RoundTrip(s.wire, Completed(s));
  }

  lemma RunSnoc(mode: Mode, steps: seq<Step>, step: Step)
    requires Run(mode, steps).Some?
    ensures Run(mode, steps + [step]) == Apply(Run(mode, steps).value, step)
  {
    assert (steps + [step])[..|steps + [step]| - 1] == steps;
  }

  /** A waiting send is never stuck: on a stream that is whole and whose lock is free it can take the
      lock, write everything and release, and then it is the next one sent. */
  lemma WaitingSendCanGoThrough(mode: Mode, steps: seq<Step>, i: nat)
    requires Run(mode, steps).Some? && Locker(steps).None? && !Faulty(steps) && !FinishedCleanly(steps)
    requires i < |Submitted(mode, steps)| && i !in Acquired(steps)
    ensures var whole := Encoding(mode, Submitted(mode, steps)[i]);
      var taken := steps + [Acquire(i)];
      var all := (if whole == [] then taken else taken + [Write(|whole|)]) + [Release];
      && Run(mode, all).Some?
      && Run(mode, all).value.wire == Run(mode, steps).value.wire + whole
      && Released(all) == Released(steps) + [i]
  {
    RunKeepsInv(mode, steps);
    StateIsWhatTheStepsSay(mode, steps);
    var whole := Encoding(mode, Submitted(mode, steps)[i]);
    var taken := steps + [Acquire(i)];
    var written := if whole == [] then taken else taken + [Write(|whole|)];
    RunSnoc(mode, steps, Acquire(i));
    if whole != [] {
      RunSnoc(mode, taken, Write(|whole|));
      assert whole[0..|whole|] == whole;
    }
    RunSnoc(mode, written, Release);
    StateIsWhatTheStepsSay(mode, written + [Release]);
  }

  lemma FrameExtends(task: Task) returns (more: seq<Byte>)
    ensures Frames([task.data]) == Written(Framed, task) + more
  {
    FramesCons([task.data]);
    assert [task.data][1..] == [];
    var part := Written(Framed, task);
    assert part == Frame(task.data)[..|part|];
    more := Frame(task.data)[|part|..];
  }

  /** Whole frames and a part of one more can be made up to whole frames. */
  lemma PartExtends(done: seq<seq<Byte>>, task: Task) returns (more: seq<Byte>)
    ensures Frames(done + [task.data]) == Frames(done) + Written(Framed, task) + more
  {
    more := FrameExtends(task);
    FlatMapAppend(Frame, done, [task.data]);
  }

  lemma WireOfFrames(s: SendHalf)
    requires InRange(s) && WireInv(s) && s.mode == Framed
    ensures s.wire == Frames(Completed(s)) + Partial(s) + Remains(s)
    ensures Partial(s) == [] || Remains(s) == []
  {
  }

  /** Letting the send in flight complete would turn the wire into whole frames. */
  lemma WireExtends(s: SendHalf) returns (more: seq<Byte>)
    requires InRange(s) && WireInv(s) && s.mode == Framed
    ensures Frames(Completed(s) + InFlight(s)) == s.wire + more
  {
    WireOfFrames(s);
    var done := Completed(s);
    if Partial(s) != [] {
      more := PartExtends(done, s.tasks[s.holder.value]);
      assert s.wire == Frames(done) + Partial(s);
    } else if Remains(s) != [] {
      more := PartExtends(done, s.tasks[s.torn.value]);
      assert s.wire == Frames(done) + Remains(s);
    } else {
      more := [];
      assert done + InFlight(s) == done;
    }
  }

  /** A reader is never ahead of the senders: whatever part of the wire it has received, and
      however its side of the stream ended, it has delivered only payloads that were submitted and
      sent, in lock order, then at most one still open, and it never sees an oversized frame. */
  lemma ReaderFollowsLockOrder(steps: seq<Step>, seen: seq<Byte>, end: StreamEnd,
                               delivered: seq<seq<Byte>>, reason: Option<CloseReason>)
    requires Run(Framed, steps).Some?
    requires seen <= Run(Framed, steps).value.wire
    requires ReadsAs(seen, end, delivered, reason)
    ensures exists more :: StillOpen(Framed, steps, more) && delivered <= Sends(Framed, steps) + more
    ensures reason.Some? ==> !reason.value.StreamFrameTooLarge?
  {
    RunKeepsInv(Framed, steps);
    var s := Run(Framed, steps).value;
    SendsFit(s);
    ReadingTheWire(s, seen, end, delivered, reason);
    CompletedAreTheSends(Framed, steps);
    OpenSendIsNotReleased(Framed, steps);
  }

  lemma ReadingTheWire(s: SendHalf, seen: seq<Byte>, end: StreamEnd,
                       delivered: seq<seq<Byte>>, reason: Option<CloseReason>)
    requires InRange(s) && WireInv(s) && s.mode == Framed && Sendable(Completed(s) + InFlight(s))
    requires seen <= s.wire && ReadsAs(seen, end, delivered, reason)
    ensures delivered <= Completed(s) + InFlight(s)
    ensures reason.Some? ==> !reason.value.StreamFrameTooLarge?
  {
    var more := WireExtends(s);
    var sends := Completed(s) + InFlight(s);
    var unseen := s.wire[|seen|..] + more;
    assert s.wire == seen + s.wire[|seen|..];
    assert Frames(sends) == seen + unseen;
    PartOfFrames(seen, unseen, sends, end, delivered, reason);
  }
}
