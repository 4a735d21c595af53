/** The progress rate limiter of `rust/iroh-rn-core/src/coalesce.rs`. Instants are numbers of
    milliseconds; offers and flushes happen one after the other. */
module Coalescers {
  import opened Base

  const PROGRESS_MIN_INTERVAL: nat := 34

  datatype State = State(lastEmit: Option<nat>, pending: Option<nat>)

  datatype Event = Offer(value: nat, now: nat) | Flush(now: nat)

  /** What the sink receives, when, and whether an offer or a flush sent it. */
  datatype Emission = Emission(value: nat, at: nat, byOffer: bool)

  function Idle(): State
  {
    State(None, None)
  }

  /** `Instant::duration_since` is zero for an instant in the future. */
  function DurationSince(now: nat, earlier: nat): nat
  {
    if now < earlier then 0 else now - earlier
  }

  predicate Due(s: State, interval: nat, now: nat)
  {
    s.lastEmit.None? || DurationSince(now, s.lastEmit.value) >= interval
  }

  function Step(s: State, interval: nat, e: Event): (State, seq<Emission>)
  {
    match e
    case Offer(value, now) =>
      if Due(s, interval, now) then (State(Some(now), None), [Emission(value, now, true)])
      else (s.(pending := Some(value)), [])
    case Flush(now) =>
      if s.pending.Some? then (State(Some(now), None), [Emission(s.pending.value, now, false)])
      else (s, [])
  }

  function Run(interval: nat, events: seq<Event>): (State, seq<Emission>)
  {
    if events == [] then (Idle(), [])
    else
      var (s, out) := Run(interval, events[..|events| - 1]);
      var (s', more) := Step(s, interval, events[|events| - 1]);
      (s', out + more)
  }

  function OfferOf(e: Event): seq<nat>
  {
    if e.Offer? then [e.value] else []
  }

  function Offers(events: seq<Event>): seq<nat>
  {
    FlatMap(OfferOf, events)
  }

  function ValueOf(e: Emission): seq<nat>
  {
    [e.value]
  }

  function Values(out: seq<Emission>): seq<nat>
  {
    FlatMap(ValueOf, out)
  }

  lemma {:induction false} ValuesAre(out: seq<Emission>)
    ensures |Values(out)| == |out|
    ensures forall i :: 0 <= i < |out| ==> Values(out)[i] == out[i].value
  {
    if out != [] {
      ValuesAre(out[..|out| - 1]);
    }
  }

  // ---------------------------------------------------------------- which values get out

  /** The values emitted are offered values, in order; a pending value is the newest offer and
      has not been emitted; when none is pending, the newest offer has been. */
  ghost predicate Faithful(s: State, offers: seq<nat>, values: seq<nat>)
  {
    && (s.lastEmit.Some? <==> values != [])
    && (s.pending.Some? ==> values != [])
    && if s.pending.Some? then
         && offers != [] && offers[|offers| - 1] == s.pending.value
         && Subsequence(values, offers[..|offers| - 1])
       else
         && Subsequence(values, offers)
         && (offers != [] ==> values != [] && values[|values| - 1] == offers[|offers| - 1])
  }

  lemma SubsequenceOfPrefix(a: seq<nat>, b: seq<nat>)
    requires b != [] && Subsequence(a, b[..|b| - 1])
    ensures Subsequence(a, b)
  {
  }

  lemma OfferKeepsFaithful(s: State, interval: nat, value: nat, now: nat, offers: seq<nat>, values: seq<nat>)
    requires Faithful(s, offers, values)
    ensures var (s', more) := Step(s, interval, Offer(value, now));
      Faithful(s', offers + [value], values + Values(more))
  {
    var (s', more) := Step(s, interval, Offer(value, now));
    if s.pending.Some? {
      SubsequenceOfPrefix(values, offers);
    }
    assert (offers + [value])[..|offers + [value]| - 1] == offers;
    if more == [] {
      assert values + Values(more) == values;
    } else {
      FlatMapOne(ValueOf, more[0]);
      SubsequenceTake(values, offers, value);
    }
  }

  lemma FlushKeepsFaithful(s: State, interval: nat, now: nat, offers: seq<nat>, values: seq<nat>)
    requires Faithful(s, offers, values)
    ensures var (s', more) := Step(s, interval, Flush(now));
      && Faithful(s', offers, values + Values(more))
      && s'.pending.None?
  {
    var (s', more) := Step(s, interval, Flush(now));
    if more == [] {
      assert values + Values(more) == values;
    } else {
      FlatMapOne(ValueOf, more[0]);
      var init := offers[..|offers| - 1];
      SubsequenceTake(values, init, s.pending.value);
      assert offers == init + [s.pending.value];
    }
  }

  lemma StepKeepsFaithful(s: State, interval: nat, e: Event, offers: seq<nat>, values: seq<nat>)
    requires Faithful(s, offers, values)
    ensures Faithful(Step(s, interval, e).0, offers + OfferOf(e), values + Values(Step(s, interval, e).1))
  {
    if e.Offer? {
      OfferKeepsFaithful(s, interval, e.value, e.now, offers, values);
    } else {
      FlushKeepsFaithful(s, interval, e.now, offers, values);
      assert offers + [] == offers;
    }
  }

  lemma {:induction false} RunIsFaithful(interval: nat, events: seq<Event>)
    ensures Faithful(Run(interval, events).0, Offers(events), Values(Run(interval, events).1))
  {
    if events != [] {
      var init, last := events[..|events| - 1], events[|events| - 1];
      var (s, out) := Run(interval, init);
      RunIsFaithful(interval, init);
      FlatMapAppend(ValueOf, out, Step(s, interval, last).1);
      StepKeepsFaithful(s, interval, last, Offers(init), Values(out));
    }
  }

  /** Nothing is made up, nothing is reordered, and the newest state is never lost: after a flush
      the last value emitted is the last value offered. */
  lemma FlushDeliversTheNewest(interval: nat, events: seq<Event>, now: nat)
    ensures var values := Values(Run(interval, events + [Flush(now)]).1);
      && Subsequence(values, Offers(events))
      && (Offers(events) != [] ==> values != [] && values[|values| - 1] == Offers(events)[|Offers(events)| - 1])
  {
    var all := events + [Flush(now)];
    assert all[..|all| - 1] == events;
    RunIsFaithful(interval, events);
    RunIsFaithful(interval, all);
    FlatMapSnoc(OfferOf, events, Flush(now));
    assert Offers(all) == Offers(events);
  }

  ghost predicate NonDecreasing(s: seq<nat>)
  {
    forall i, j :: 0 <= i < j < |s| ==> s[i] <= s[j]
  }

  lemma {:induction false} SubsequenceBounded(a: seq<nat>, b: seq<nat>, top: nat)
    requires Subsequence(a, b) && forall i :: 0 <= i < |b| ==> b[i] <= top
    ensures forall i :: 0 <= i < |a| ==> a[i] <= top
  {
    if a != [] {
      var b' := b[..|b| - 1];
      if Subsequence(a, b') {
        SubsequenceBounded(a, b', top);
      } else {
        SubsequenceBounded(a[..|a| - 1], b', top);
      }
    }
  }

  lemma {:induction false} SubsequenceKeepsOrder(a: seq<nat>, b: seq<nat>)
    requires Subsequence(a, b) && NonDecreasing(b)
    ensures NonDecreasing(a)
  {
    if a != [] {
      var b' := b[..|b| - 1];
      if Subsequence(a, b') {
        SubsequenceKeepsOrder(a, b');
      } else {
        SubsequenceKeepsOrder(a[..|a| - 1], b');
        SubsequenceBounded(a[..|a| - 1], b', b[|b| - 1]);
      }
    }
  }

  /** Cumulative values stay cumulative. */
  lemma ProgressNeverGoesBack(interval: nat, events: seq<Event>)
    requires NonDecreasing(Offers(events))
    ensures NonDecreasing(Values(Run(interval, events).1))
  {
    var s := Run(interval, events).0;
    var values := Values(Run(interval, events).1);
    RunIsFaithful(interval, events);
    if s.pending.Some? {
      SubsequenceOfPrefix(values, Offers(events));
    }
    SubsequenceKeepsOrder(values, Offers(events));
  }

  // ---------------------------------------------------------------- how often

  ghost predicate ClockRuns(events: seq<Event>)
  {
    forall i, j :: 0 <= i < j < |events| ==> events[i].now <= events[j].now
  }

  /** What an emission costs: an offered one must wait a whole interval, a flushed one nothing. */
  ghost predicate Spaced(out: seq<Emission>, interval: nat)
  {
    forall i :: 0 < i < |out| ==> out[i].at >= out[i - 1].at + if out[i].byOffer then interval else 0
  }

  /** How the limiter's state stands to what it has emitted by the instant `now`. */
  ghost predicate Timed(s: State, interval: nat, out: seq<Emission>, now: nat)
  {
    && Spaced(out, interval)
    && (s.lastEmit.Some? <==> out != [])
    && (out != [] ==> s.lastEmit.value == out[|out| - 1].at && out[|out| - 1].at <= now)
    && (s.pending.Some? ==> s.lastEmit.Some?)
  }

  lemma StepIsTimed(s: State, interval: nat, e: Event, out: seq<Emission>, now: nat)
    requires Timed(s, interval, out, now) && now <= e.now
    ensures Timed(Step(s, interval, e).0, interval, out + Step(s, interval, e).1, e.now)
  {
    var more := Step(s, interval, e).1;
    if more == [] {
      assert out + more == out;
    } else {
      var all := out + more;
      assert |all| == |out| + 1 && all[|out|] == more[0];
      forall i | 0 < i < |all|
        ensures all[i].at >= all[i - 1].at + if all[i].byOffer then interval else 0
      {
        if i < |out| {
          assert all[i] == out[i] && all[i - 1] == out[i - 1];
        }
      }
    }
  }

  function Clock(events: seq<Event>): nat
  {
    if events == [] then 0 else events[|events| - 1].now
  }

  lemma {:induction false} RunIsTimed(interval: nat, events: seq<Event>)
    requires ClockRuns(events)
    ensures Timed(Run(interval, events).0, interval, Run(interval, events).1, Clock(events))
  {
    if events != [] {
      var init, last := events[..|events| - 1], events[|events| - 1];
      RunIsTimed(interval, init);
      assert Clock(init) <= last.now;
      StepIsTimed(Run(interval, init).0, interval, last, Run(interval, init).1, Clock(init));
    }
  }

  function FlushCount(out: seq<Emission>): nat
  {
    if out == [] then 0 else FlushCount(out[..|out| - 1]) + if out[|out| - 1].byOffer then 0 else 1
  }

  lemma Longer(k: int, interval: nat)
    ensures (k + 1) * interval == k * interval + interval
  {
  }

  lemma {:induction false} SpanOf(out: seq<Emission>, interval: nat)
    requires Spaced(out, interval) && out != []
    ensures out[|out| - 1].at - out[0].at >= (|out| - 1 - FlushCount(out[1..])) * interval
  {
    if |out| == 1 {
      assert out[1..] == [];
    } else {
      var init, last := out[..|out| - 1], out[|out| - 1];
      SpanOf(init, interval);
      assert out[1..][..|out[1..]| - 1] == init[1..];
      assert last.at >= init[|init| - 1].at + if last.byOffer then interval else 0;
      Longer(|init| - 1 - FlushCount(init[1..]), interval);
    }
  }

  lemma {:induction false} SpacedPart(out: seq<Emission>, interval: nat, lo: nat, hi: nat)
    requires Spaced(out, interval) && lo <= hi <= |out|
    ensures Spaced(out[lo..hi], interval)
  {
    forall i | 0 < i < hi - lo
      ensures out[lo..hi][i].at >= out[lo..hi][i - 1].at + if out[lo..hi][i].byOffer then interval else 0
    {
      assert out[lo + i].at >= out[lo + i - 1].at + if out[lo + i].byOffer then interval else 0;
    }
  }

  /** Any stretch of consecutive emissions lasts at least one interval for each emission after the
      first that a flush did not send. */
  lemma EmissionRateIsBounded(interval: nat, events: seq<Event>, lo: nat, hi: nat)
    requires ClockRuns(events)
    requires lo < hi <= |Run(interval, events).1|
    ensures var part := Run(interval, events).1[lo..hi];
      part[|part| - 1].at - part[0].at >= (|part| - 1 - FlushCount(part[1..])) * interval
  {
    var out := Run(interval, events).1;
    RunIsTimed(interval, events);
    SpacedPart(out, interval, lo, hi);
    SpanOf(out[lo..hi], interval);
  }

  lemma {:induction false} OffersNeverFlush(interval: nat, events: seq<Event>)
    requires forall i :: 0 <= i < |events| ==> events[i].Offer?
    ensures forall i :: 0 <= i < |Run(interval, events).1| ==> Run(interval, events).1[i].byOffer
  {
    if events != [] {
      OffersNeverFlush(interval, events[..|events| - 1]);
    }
  }

  lemma {:induction false} NoFlushCount(out: seq<Emission>)
    requires forall i :: 0 <= i < |out| ==> out[i].byOffer
    ensures FlushCount(out) == 0
  {
    if out != [] {
      NoFlushCount(out[..|out| - 1]);
    }
  }

  ghost predicate During(out: seq<Emission>, from: nat, to: nat)
  {
    forall i :: 0 <= i < |out| ==> from <= out[i].at <= to
  }

  lemma {:induction false} EmittedDuring(interval: nat, events: seq<Event>)
    requires ClockRuns(events) && events != []
    ensures During(Run(interval, events).1, events[0].now, Clock(events))
  {
    var init, last := events[..|events| - 1], events[|events| - 1];
    var (s, out) := Run(interval, init);
    var more := Step(s, interval, last).1;
    assert During(more, events[0].now, last.now);
    if init != [] {
      EmittedDuring(interval, init);
      assert Clock(init) <= last.now;
    }
    assert During(out, events[0].now, last.now);
    assert Run(interval, events).1 == out + more;
  }

  /** In every run, the emissions that fall in a time window and were not sent by a flush take a
      whole interval each, bar the first. */
  lemma WindowsAreRateLimited(interval: nat, events: seq<Event>, lo: nat, hi: nat, from: nat, to: nat)
    requires ClockRuns(events)
    requires var out := Run(interval, events).1;
      && lo < hi <= |out| && from <= out[lo].at && out[hi - 1].at <= to
      && forall i :: lo < i < hi ==> out[i].byOffer
    ensures (hi - lo - 1) * interval <= to - from
  {
    var part := Run(interval, events).1[lo..hi];
    EmissionRateIsBounded(interval, events, lo, hi);
    NoFlushCount(part[1..]);
  }

  /** With offers alone that holds of every window inside the run, however fast the offers come,
      and of the time the whole run takes. */
  lemma OffersAreRateLimited(interval: nat, events: seq<Event>, lo: nat, hi: nat, from: nat, to: nat)
    requires ClockRuns(events)
    requires forall i :: 0 <= i < |events| ==> events[i].Offer?
    requires var out := Run(interval, events).1;
      lo < hi <= |out| && from <= out[lo].at && out[hi - 1].at <= to
    ensures (hi - lo - 1) * interval <= to - from
    ensures events != [] &&
      (|Run(interval, events).1| - 1) * interval <= events[|events| - 1].now - events[0].now
  {
    var out := Run(interval, events).1;
    assert events != [];
    OffersNeverFlush(interval, events);
    WindowsAreRateLimited(interval, events, lo, hi, from, to);
    EmittedDuring(interval, events);
    WindowsAreRateLimited(interval, events, 0, |out|, events[0].now, events[|events| - 1].now);
  }

  /** The instant of the last emission, read off the emissions. */
  predicate Rested(out: seq<Emission>, interval: nat, now: nat)
  {
    out == [] || interval == 0 || out[|out| - 1].at + interval <= now
  }

  lemma {:induction false} LastEmitIsRead(interval: nat, events: seq<Event>)
    ensures var (s, out) := Run(interval, events);
      s.lastEmit == if out == [] then None else Some(out[|out| - 1].at)
  {
    if events != [] {
      LastEmitIsRead(interval, events[..|events| - 1]);
    }
  }

  /** The limiter holds back no longer than it has to: an offer goes out at once if and only if
      nothing has been emitted for a whole interval. */
  lemma OffersGoOutOnceRested(interval: nat, events: seq<Event>, value: nat, now: nat)
    ensures Run(interval, events + [Offer(value, now)]).1 ==
            Run(interval, events).1 + if Rested(Run(interval, events).1, interval, now) then [Emission(value, now, true)] else []
  {
    var all := events + [Offer(value, now)];
    assert all[..|all| - 1] == events;
    LastEmitIsRead(interval, events);
  }

  /** Whether the newest offer is still held back: every offer since the last emission came too soon,
      and no flush has come since. */
  predicate HeldBack(interval: nat, events: seq<Event>)
  {
    events != [] &&
    var init, last := events[..|events| - 1], events[|events| - 1];
    last.Offer? && !Rested(Run(interval, init).1, interval, last.now)
  }

  /** A flush sends exactly an offer that is held back, once. */
  lemma FlushSendsWhatIsHeldBack(interval: nat, events: seq<Event>, now: nat)
    ensures HeldBack(interval, events) ==>
      Run(interval, events + [Flush(now)]).1 ==
      Run(interval, events).1 + [Emission(events[|events| - 1].value, now, false)]
    ensures Run(interval, (events + [Flush(now)]) + [Flush(now)]).1 == Run(interval, events + [Flush(now)]).1
  {
    var all := events + [Flush(now)];
    assert all[..|all| - 1] == events;
    assert (all + [Flush(now)])[..|all + [Flush(now)]| - 1] == all;
    if events != [] {
      LastEmitIsRead(interval, events[..|events| - 1]);
    }
  }

  // ---------------------------------------------------------------- the class

  class Coalescer {
    const minInterval: nat
    var lastEmit: Option<nat>
    var pending: Option<nat>

    constructor (minInterval: nat)
      ensures View() == Idle() && this.minInterval == minInterval
    {
      this.minInterval := minInterval;
      lastEmit, pending := None, None;
    }

    function View(): State
      reads this
    {
      State(lastEmit, pending)
    }

    method OfferAt(value: nat, now: nat) returns (sink: seq<Emission>)
      modifies this
      ensures (View(), sink) == Step(old(View()), minInterval, Offer(value, now))
    {
      var due := lastEmit.None? || DurationSince(now, lastEmit.value) >= minInterval;
      if due {
        lastEmit, pending := Some(now), None;
      } else {
        pending := Some(value);
      }
      sink := if due then [Emission(value, now, true)] else [];
    }

    method FlushAt(now: nat) returns (sink: seq<Emission>)
      modifies this
      ensures (View(), sink) == Step(old(View()), minInterval, Flush(now))
    {
      var taken := pending;
      pending := None;
      if taken.Some? {
        lastEmit := Some(now);
        return [Emission(taken.value, now, false)];
      }
      return [];
    }
  }
}
