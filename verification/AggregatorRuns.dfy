/**
 Whole runs of the aggregator: what its counters and histograms hold after any sequence of counts,
 ticks, samples and snapshot requests, as a function of that sequence alone.
 */
module AggregatorRuns {
  import opened Sequences
  import opened Slices
  import opened Word64
  import opened RequestWindows
  import opened Histograms
  import opened Aggregators
  import opened Reports
  import opened Options
  import opened LogStats

  /** A handler counts; the rotation ticker fires, handlers counting before each kind; a sample, a
      batch of samples or of durations arrives; a snapshot is asked for at clock reading `now`. */
  datatype Event =
    | Counts(a: Addition)
    | Tick(additions: seq<seq<Addition>>)
    | OneSample(sample: Sample)
    | Samples(samples: seq<Sample>)
    | SomeDurations(kind: nat, ds: seq<int>)
    | Request(now: int)

  predicate Proper(e: Event) {
    match e
    case Counts(a) => a.kind < REQUEST_KINDS
    case Tick(additions) =>
      && |additions| == REQUEST_KINDS
      && forall k, i :: 0 <= k < |additions| && 0 <= i < |additions[k]| ==> additions[k][i].kind < REQUEST_KINDS
    case SomeDurations(kind, _) => kind < DURATION_KINDS
    case _ => true
  }

  predicate AllProper(events: seq<Event>) {
    forall i :: 0 <= i < |events| ==> Proper(events[i])
  }

  /** What an event makes of the counters; k by k, the completed intervals and the running one. */
  function NextCounters(before: seq<Counter>, e: Event): (after: seq<Counter>)
    requires |before| == REQUEST_KINDS && Proper(e)
    ensures |after| == REQUEST_KINDS
  {
    match e
    case Counts(a) =>
      seq(REQUEST_KINDS, k requires 0 <= k < REQUEST_KINDS =>
        Counter(before[k].intervals, before[k].pending + (if k == a.kind then [a.n] else [])))
    case Tick(additions) => KindsRotated(before, additions, REQUEST_KINDS)
    case _ => before
  }

  function NextMeasures(trackable: int -> bool, before: Durations, e: Event): (after: Durations)
    requires Shaped(before) && Proper(e)
    ensures Shaped(after)
  {
    match e
    case Tick(_) => Rotated(before)
    case OneSample(sample) => MeasuredAll(trackable, before, Unpacked([sample]))
    case Samples(samples) => MeasuredAll(trackable, before, Unpacked(samples))
    case SomeDurations(kind, ds) => MeasuredAll(trackable, before, OfKind(kind, ds))
    case _ => before
  }

  function History(events: seq<Event>): (cs: seq<Counter>)
    requires AllProper(events)
    ensures |cs| == REQUEST_KINDS
  {
    if events == [] then seq(REQUEST_KINDS, _ => Counter([], []))
    else NextCounters(History(events[..|events| - 1]), events[|events| - 1])
  }

  function Measures(trackable: int -> bool, events: seq<Event>): (v: Durations)
    requires AllProper(events)
    ensures Shaped(v)
  {
    if events == [] then Durations([[[]], [[]]], [])
    else NextMeasures(trackable, Measures(trackable, events[..|events| - 1]), events[|events| - 1])
  }

  // ---- the histograms hold every duration, under its kind ----

  /** The durations of kind k that an event brings, in order: of a sample the add duration for kind 0,
      the sub duration for kind 1. */
  function Brought(e: Event, k: nat): seq<int> {
    match e
    case OneSample(sample) => [if k == 0 then sample.addDuration else sample.subDuration]
    case Samples(samples) => OfSamples(samples, k)
    case SomeDurations(kind, ds) => if kind == k then ds else []
    case _ => []
  }

  function OfSamples(samples: seq<Sample>, k: nat): (ds: seq<int>)
    ensures |ds| == |samples|
    ensures forall i :: 0 <= i < |samples| ==> ds[i] == if k == 0 then samples[i].addDuration else samples[i].subDuration
  {
    seq(|samples|, i requires 0 <= i < |samples| => if k == 0 then samples[i].addDuration else samples[i].subDuration)
  }

  function WithMore(spans: seq<seq<int>>, ds: seq<int>): seq<seq<int>>
    requires spans != []
  {
    spans[|spans| - 1 := spans[|spans| - 1] + ds]
  }

  /** The durations of kind k between ticks, the running span last. */
  function Spans(events: seq<Event>, k: nat): (spans: seq<seq<int>>)
    ensures |spans| == Ticks(events) + 1
  {
    if events == [] then [[]]
    else
      var before, last := Spans(events[..|events| - 1], k), events[|events| - 1];
      if last.Tick? then before + [[]] else WithMore(before, Brought(last, k))
  }

  /** The durations of kind k among measurements, in order. */
  function Only(ms: seq<Measurement>, k: nat): seq<int> {
    if ms == [] then []
    else Only(ms[..|ms| - 1], k) + (if ms[|ms| - 1].kind == k then [ms[|ms| - 1].d] else [])
  }

  lemma OnlyAppend(ms: seq<Measurement>, m: Measurement, k: nat)
    ensures Only(ms + [m], k) == Only(ms, k) + (if m.kind == k then [m.d] else [])
  {
    assert (ms + [m])[..|ms|] == ms;
  }

  lemma {:induction false} OnlyUnpacked(samples: seq<Sample>, k: nat)
    requires k < DURATION_KINDS
    ensures Only(Unpacked(samples), k) == OfSamples(samples, k)
  {
    if samples != [] {
      var front, last := samples[..|samples| - 1], samples[|samples| - 1];
      OnlyUnpacked(front, k);
      var ms, add, sub := Unpacked(front), Measurement(0, last.addDuration), Measurement(1, last.subDuration);
      OnlyAppend(ms, add, k);
      OnlyAppend(ms + [add], sub, k);
      assert Unpacked(samples) == (ms + [add]) + [sub];
      hide Only, Unpacked;
      assert OfSamples(samples, k) == OfSamples(front, k) + [if k == 0 then last.addDuration else last.subDuration];
    }
  }

  lemma {:induction false} OnlyOfKind(kind: nat, ds: seq<int>, k: nat)
    ensures Only(OfKind(kind, ds), k) == if kind == k then ds else []
  {
    if ds == [] {
      assert OfKind(kind, ds) == [];
    } else {
      hide Only;
      var front, last := ds[..|ds| - 1], ds[|ds| - 1];
      OnlyOfKind(kind, front, k);
      OnlyAppend(OfKind(kind, front), Measurement(kind, last), k);
      assert OfKind(kind, ds) == OfKind(kind, front) + [Measurement(kind, last)];
      hide OfKind;
      assert ds == front + [last];
    }
  }

  lemma {:induction false} MeasuredAllSpans(trackable: int -> bool, v: Durations, ms: seq<Measurement>, k: nat)
    requires Shaped(v) && (forall i :: 0 <= i < |ms| ==> ms[i].kind < DURATION_KINDS) && k < DURATION_KINDS
    ensures MeasuredAll(trackable, v, ms).spans[k] == WithMore(v.spans[k], Only(ms, k))
  {
    var last := |v.spans[k]| - 1;
    if ms == [] {
      assert v.spans[k][last] + [] == v.spans[k][last];
    } else {
      var front, m := ms[..|ms| - 1], ms[|ms| - 1];
      MeasuredAllSpans(trackable, v, front, k);
      var w := MeasuredAll(trackable, v, front);
      assert MeasuredAll(trackable, v, ms) == Measured(trackable, w, m);
      var now, one := v.spans[k][last] + Only(front, k), if m.kind == k then [m.d] else [];
      assert Only(ms, k) == Only(front, k) + one;
      assert w.spans[k] == v.spans[k][last := now];
      hide MeasuredAll, Only;
      assert v.spans[k][last] + (Only(front, k) + one) == now + one;
      if m.kind != k {
        assert now + [] == now;
      }
    }
  }

  /** After any events the spans of each kind are those of the durations the events brought. */
  lemma {:induction false} MeasuresHaveAll(trackable: int -> bool, events: seq<Event>, k: nat)
    requires AllProper(events) && k < DURATION_KINDS
    ensures Measures(trackable, events).spans[k] == Spans(events, k)
  {
    if events != [] {
      var front, last := events[..|events| - 1], events[|events| - 1];
      MeasuresHaveAll(trackable, front, k);
      assert Proper(last);
      var before := Measures(trackable, front);
      match last
      case OneSample(sample) =>
        MeasuredAllSpans(trackable, before, Unpacked([sample]), k);
        OnlyUnpacked([sample], k);
        assert OfSamples([sample], k) == Brought(last, k);
      case Samples(samples) =>
        MeasuredAllSpans(trackable, before, Unpacked(samples), k);
        OnlyUnpacked(samples, k);
      case SomeDurations(kind, ds) =>
        MeasuredAllSpans(trackable, before, OfKind(kind, ds), k);
        OnlyOfKind(kind, ds, k);
      case Tick(_) =>
      case _ =>
        var spans := Spans(front, k);
        assert spans[|spans| - 1] + [] == spans[|spans| - 1];
    }
  }

  // ---- the history accounts for every count ----

  /** What handlers counted of kind k, in order, whatever was rotated in between. */
  function Counted(events: seq<Event>, k: nat): seq<nat> {
    if events == [] then []
    else
      var last := events[|events| - 1];
      Counted(events[..|events| - 1], k)
      + (match last
         case Counts(a) => if k == a.kind then [a.n] else []
         case Tick(additions) => OfRange(additions, 0, |additions|, k)
         case _ => [])
  }

  function Ticks(events: seq<Event>): nat {
    if events == [] then 0 else Ticks(events[..|events| - 1]) + (if events[|events| - 1].Tick? then 1 else 0)
  }

  lemma {:induction false} OfRangeSplits(additions: seq<seq<Addition>>, m: nat, n: nat, k: nat)
    requires m <= n <= |additions|
    ensures OfRange(additions, 0, n, k) == OfRange(additions, 0, m, k) + OfRange(additions, m, n, k)
  {
    if m < n {
      OfRangeSplits(additions, m, n - 1, k);
    }
  }

  /** Every count is in exactly one interval, completed or running, in order; and there is one
      completed interval for each tick. */
  lemma {:induction false} HistoryHasAll(events: seq<Event>, k: nat)
    requires AllProper(events) && k < REQUEST_KINDS
    ensures Flatten(History(events)[k].intervals) + History(events)[k].pending == Counted(events, k)
    ensures |History(events)[k].intervals| == Ticks(events)
  {
    if events != [] {
      var front, last := events[..|events| - 1], events[|events| - 1];
      HistoryHasAll(front, k);
      assert Proper(last);
      var before := History(front)[k];
      match last
      case Tick(additions) => RotationHasAll(History(front), additions, k);
      case Counts(a) =>
        hide Flatten;
        var one := if k == a.kind then [a.n] else [];
        assert Flatten(before.intervals) + (before.pending + one) == (Flatten(before.intervals) + before.pending) + one;
      case _ => assert Counted(front, k) + [] == Counted(front, k);
    }
  }

  lemma RotationHasAll(counters: seq<Counter>, additions: seq<seq<Addition>>, k: nat)
    requires |counters| == |additions| == REQUEST_KINDS && k < REQUEST_KINDS
    ensures var after := KindsRotated(counters, additions, REQUEST_KINDS)[k];
      && Flatten(after.intervals) + after.pending
         == (Flatten(counters[k].intervals) + counters[k].pending) + OfRange(additions, 0, REQUEST_KINDS, k)
      && |after.intervals| == |counters[k].intervals| + 1
  {
    hide KindsRotated, OfRange, Flatten;
    var after, n := KindsRotated(counters, additions, REQUEST_KINDS)[k], REQUEST_KINDS;
    RotationCountsOnce(counters, additions, n, k);
    OfRangeSplits(additions, k + 1, n, k);
    var done, rest := OfRange(additions, 0, k + 1, k), OfRange(additions, k + 1, n, k);
    assert after == Counter(counters[k].intervals + [counters[k].pending + done], rest);
    FlattenAppend(counters[k].intervals, counters[k].pending + done);
    var flat, pending := Flatten(counters[k].intervals), counters[k].pending;
    assert (flat + (pending + done)) + rest == (flat + pending) + (done + rest);
  }

  /** Conservation over runs: what was ever counted of a kind is, modulo 2^64, in the buckets that
      have left the window, in the window, and in the live counter. */
  lemma NothingIsLost(events: seq<Event>, k: nat)
    requires AllProper(events) && k < REQUEST_KINDS
    ensures var c := History(events)[k];
      (Sum(ShownAll(c.intervals[..Evicted(c.intervals)])) + Sum(Window(c.intervals)) + Shown(c.pending)) % TWO_64
      == Sum(Counted(events, k)) % TWO_64
  {
    hide History, Sum, Window, ShownAll;
    HistoryHasAll(events, k);
    NothingUncounted(History(events)[k].intervals, History(events)[k].pending);
  }

  /** Every duration measured since the last tick is in exactly one of histogram and overflow. */
  lemma {:induction false} MeasuresAreAccounted(trackable: int -> bool, events: seq<Event>)
    requires AllProper(events)
    ensures Accounted(trackable, Measures(trackable, events))
  {
    if events == [] {
      RotatedIsAccounted(trackable, Durations([[[]], [[]]], []));
    } else {
      var front, last := events[..|events| - 1], events[|events| - 1];
      var before := Measures(trackable, front);
      MeasuresAreAccounted(trackable, front);
      assert Proper(last);
      hide Accounted;
      match last
      case Tick(_) => RotatedIsAccounted(trackable, before);
      case OneSample(sample) => MeasuredAllIsAccounted(trackable, before, Unpacked([sample]));
      case Samples(samples) => MeasuredAllIsAccounted(trackable, before, Unpacked(samples));
      case SomeDurations(kind, ds) => MeasuredAllIsAccounted(trackable, before, OfKind(kind, ds));
      case _ =>
    }
  }

  // ---- the aggregator itself ----

  method TakeSamples(a: Aggregator, samples: seq<Sample>)
    requires a.Valid()
    modifies a, a.parts
    ensures a.Valid() && a.Counters() == old(a.Counters())
    ensures a.Measurements() == MeasuredAll(a.trackable, old(a.Measurements()), Unpacked(samples))
  {
    a.PartsOwned();
    hide Unpacked, MeasuredAll, RequestWindow.Valid, WindowedHistogram.Valid, Window;
    var arr := new Sample[|samples|](i requires 0 <= i < |samples| => samples[i]);
    assert arr[..arr.Length] == samples;
    a.OnSamples(Slice(arr, arr.Length));
  }

  method TakeDurations(a: Aggregator, kind: nat, ds: seq<int>)
    requires a.Valid() && kind < DURATION_KINDS
    modifies a, a.parts
    ensures a.Valid() && a.Counters() == old(a.Counters())
    ensures a.Measurements() == MeasuredAll(a.trackable, old(a.Measurements()), OfKind(kind, ds))
  {
    a.PartsOwned();
    hide OfKind, MeasuredAll, RequestWindow.Valid, WindowedHistogram.Valid, Window;
    var arr := new int[|ds|](i requires 0 <= i < |ds| => ds[i]);
    assert arr[..arr.Length] == ds;
    a.OnDurations(kind, Slice(arr, arr.Length));
  }

  method TakeCount(a: Aggregator, x: Addition)
    requires a.Valid() && x.kind < REQUEST_KINDS
    modifies a.parts
    ensures a.Valid() && a.Measurements() == old(a.Measurements())
    ensures |old(a.Counters())| == REQUEST_KINDS && a.Counters() == NextCounters(old(a.Counters()), Counts(x))
  {
    a.PartsOwned();
    hide RequestWindow.Valid, WindowedHistogram.Valid, Window;
    a.CountRequests(x);
  }

  /** One event of the aggregator's life. */
  method Take(a: Aggregator, e: Event)
    requires a.Valid() && Proper(e)
    modifies a, a.parts
    ensures a.Valid()
    ensures |old(a.Counters())| == REQUEST_KINDS && a.Counters() == NextCounters(old(a.Counters()), e)
    ensures a.Measurements() == NextMeasures(a.trackable, old(a.Measurements()), e)
  {
    a.PartsOwned();
    hide RequestWindow.Valid, WindowedHistogram.Valid, Window, MeasuredAll, Unpacked, OfKind, KindsRotated;
    match e
    case Counts(x) => TakeCount(a, x);
    case Tick(additions) => a.OnTick(additions);
    case OneSample(sample) => a.OnSample(sample);
    case Samples(samples) => TakeSamples(a, samples);
    case SomeDurations(kind, ds) => TakeDurations(a, kind, ds);
    case Request(now) => a.OnSnapshotRequest(now);
  }

  /** Any life of an aggregator: its counters are the history of the events, its histograms and
      overflow estimate show what was measured, and its snapshot is coherent throughout. */
  method RunAggregator(trackable: int -> bool, events: seq<Event>) returns (a: Aggregator)
    requires AllProper(events)
    ensures fresh(a) && fresh(a.parts) && a.Valid() && a.trackable == trackable
    ensures a.Counters() == History(events) && a.Measurements() == Measures(trackable, events)
    ensures a.over == Summary(Measures(trackable, events).overflowed)
  {
    a := NewAggregator(trackable);
    assert events[..0] == [];
    for i := 0 to |events|
      invariant fresh(a) && fresh(a.parts) && a.Valid() && a.trackable == trackable
      invariant a.Counters() == History(events[..i]) && a.Measurements() == Measures(trackable, events[..i])
    {
      hide NextCounters, NextMeasures, Aggregator.Valid, Aggregator.Counters, Aggregator.Measurements;
      assert events[..i + 1][..i] == events[..i];
      Take(a, events[i]);
    }
    assert events[..|events|] == events;
  }
}
