/**
 The metrics aggregator between two events: request windows, duration histograms with their
 overflow estimate, and the snapshot that is rewritten in place. How its goroutine, the snapshot
 getters and the report cache interleave is module SnapshotCache.
 */
module Aggregators {
  import opened Slices
  import opened RequestWindows
  import opened LogStats
  import opened Histograms

  /** requestKindSize (Ok, Overload, BadRequest, Failed) and durationKindSize (Add, Sub). */
  const REQUEST_KINDS: nat := 4
  const DURATION_KINDS: nat := 2

  /** Clock readings and durations count nanoseconds, as time.Duration does. */
  const MILLISECOND: int := 1_000_000

  /** snapshotTTL */
  const SNAPSHOT_TTL: int := 10 * MILLISECOND

  /** What a snapshot shows: the request windows, oldest interval first, and the merged
      histograms, each the multiset of the durations in it. */
  datatype Content = Content(requests: seq<seq<nat>>, histograms: seq<multiset<int>>)

  datatype Sample = Sample(addDuration: int, subDuration: int)

  /** CountRequests(kind, n) by some handler. */
  datatype Addition = Addition(kind: nat, n: nat)

  /** The additions to one kind, in order. */
  function Of(additions: seq<Addition>, kind: nat): seq<nat> {
    if additions == [] then []
    else
      var last := additions[|additions| - 1];
      Of(additions[..|additions| - 1], kind) + (if last.kind == kind then [last.n] else [])
  }

  /** The additions to one kind in the stretches of time first..last, the last one excluded. */
  function OfRange(stretches: seq<seq<Addition>>, first: nat, last: nat, kind: nat): seq<nat>
    requires last <= |stretches|
    decreases last
  {
    if last <= first then [] else OfRange(stretches, first, last - 1, kind) + Of(stretches[last - 1], kind)
  }

  /** One kind's count history: completed intervals and the running one. */
  datatype Counter = Counter(intervals: seq<seq<nat>>, pending: seq<nat>)

  /** Some handlers count, then kind is rotated. */
  function KindRotated(counters: seq<Counter>, kind: nat, additions: seq<Addition>): (after: seq<Counter>)
    requires kind < |counters|
    ensures |after| == |counters|
  {
    seq(|counters|, k requires 0 <= k < |counters| =>
      var counted := counters[k].pending + Of(additions, k);
      if k == kind then Counter(counters[k].intervals + [counted], [])
      else Counter(counters[k].intervals, counted))
  }

  /** The first n kinds have been rotated in turn, handlers counting in between. */
  function KindsRotated(counters: seq<Counter>, additions: seq<seq<Addition>>, n: nat): (after: seq<Counter>)
    requires n <= |counters| == |additions|
    ensures |after| == |counters|
  {
    if n == 0 then counters
    else KindRotated(KindsRotated(counters, additions, n - 1), n - 1, additions[n - 1])
  }

  /** A rotation in full: every addition lands in exactly one interval, the one that is running
      for its kind when it is made; none is lost or counted twice by racing with the rotation. */
  lemma {:induction false} RotationCountsOnce(counters: seq<Counter>, additions: seq<seq<Addition>>, n: nat, k: nat)
    requires n <= |counters| == |additions| && k < |counters|
    ensures KindsRotated(counters, additions, n)[k] ==
      if k < n then
        Counter(counters[k].intervals + [counters[k].pending + OfRange(additions, 0, k + 1, k)],
                OfRange(additions, k + 1, n, k))
      else
        Counter(counters[k].intervals, counters[k].pending + OfRange(additions, 0, n, k))
  {
    var before := counters[k].pending;
    if n == 0 {
      assert before + OfRange(additions, 0, 0, k) == before;
    } else {
      RotationCountsOnce(counters, additions, n - 1, k);
      var one := Of(additions[n - 1], k);
      assert before + OfRange(additions, 0, n, k) == before + OfRange(additions, 0, n - 1, k) + one;
      assert k < n - 1 ==> OfRange(additions, k + 1, n, k) == OfRange(additions, k + 1, n - 1, k) + one;
    }
  }

  // ---- durations ----

  /** The recorded durations: the rotation spans of every kind, and those that no histogram
      accepted since the last rotation, of either kind. */
  datatype Durations = Durations(spans: seq<seq<seq<int>>>, overflowed: seq<int>)

  predicate Shaped(v: Durations) {
    |v.spans| == DURATION_KINDS && forall k :: 0 <= k < DURATION_KINDS ==> v.spans[k] != []
  }

  datatype Measurement = Measurement(kind: nat, d: int)

  /** recordDuration: the running span of its kind grows; what the histogram refuses overflows. */
  function Measured(trackable: int -> bool, v: Durations, m: Measurement): (v': Durations)
    requires Shaped(v) && m.kind < DURATION_KINDS
    ensures Shaped(v')
  {
    var running := v.spans[m.kind];
    var last := |running| - 1;
    Durations(v.spans[m.kind := running[last := running[last] + [m.d]]],
              if trackable(m.d) then v.overflowed else v.overflowed + [m.d])
  }

  function MeasuredAll(trackable: int -> bool, v: Durations, ms: seq<Measurement>): (v': Durations)
    requires Shaped(v) && forall i :: 0 <= i < |ms| ==> ms[i].kind < DURATION_KINDS
    ensures Shaped(v')
  {
    if ms == [] then v
    else Measured(trackable, MeasuredAll(trackable, v, ms[..|ms| - 1]), ms[|ms| - 1])
  }

  /** rotate: a new span for every kind, and the overflow estimate starts afresh. */
  function Rotated(v: Durations): (v': Durations)
    requires Shaped(v)
    ensures Shaped(v')
  {
    Durations(seq(DURATION_KINDS, k requires 0 <= k < DURATION_KINDS => v.spans[k] + [[]]), [])
  }

  /** A batch of samples, in the order in which recordSamples goes through it. */
  function Unpacked(samples: seq<Sample>): (ms: seq<Measurement>)
    ensures forall i :: 0 <= i < |ms| ==> ms[i].kind < DURATION_KINDS
  {
    if samples == [] then []
    else
      var last := samples[|samples| - 1];
      Unpacked(samples[..|samples| - 1]) + [Measurement(0, last.addDuration), Measurement(1, last.subDuration)]
  }

  function OfKind(kind: nat, ds: seq<int>): (ms: seq<Measurement>)
    ensures |ms| == |ds| && forall i :: 0 <= i < |ms| ==> ms[i] == Measurement(kind, ds[i])
  {
    seq(|ds|, i requires 0 <= i < |ds| => Measurement(kind, ds[i]))
  }

  /** The durations of kind k since the last rotation. */
  function Running(v: Durations, k: nat): seq<int>
    requires Shaped(v) && k < DURATION_KINDS
  {
    v.spans[k][|v.spans[k]| - 1]
  }

  /** What is kept of two kinds and what is in the overflow make up all that was measured. */
  ghost predicate MakeUp<A>(a: multiset<A>, b: multiset<A>, over: multiset<A>, x: multiset<A>, y: multiset<A>) {
    a + b + over == x + y
  }

  lemma OneMore<A>(a: multiset<A>, b: multiset<A>, over: multiset<A>, x: multiset<A>, y: multiset<A>, one: multiset<A>)
    requires MakeUp(a, b, over, x, y)
    ensures MakeUp(a + one, b, over, x + one, y) && MakeUp(a, b + one, over, x, y + one)
    ensures MakeUp(a, b, over + one, x + one, y) && MakeUp(a, b, over + one, x, y + one)
  {
    assert (a + one) + b + over == (a + b + over) + one;
    assert a + (b + one) + over == (a + b + over) + one;
    assert a + b + (over + one) == (a + b + over) + one;
  }

  /** Every duration of the running spans, as often as it was measured, is in exactly one of the
      current histogram of its kind and the overflow, according to whether a histogram takes it. */
  ghost predicate Accounted(trackable: int -> bool, v: Durations)
    requires Shaped(v)
  {
    && MakeUp(Kept(trackable, Running(v, 0)), Kept(trackable, Running(v, 1)), multiset(v.overflowed),
              multiset(Running(v, 0)), multiset(Running(v, 1)))
    && forall i :: 0 <= i < |v.overflowed| ==> !trackable(v.overflowed[i])
  }

  lemma MeasuredRunning(trackable: int -> bool, v: Durations, m: Measurement)
    requires Shaped(v) && m.kind < DURATION_KINDS
    ensures var w, k := Measured(trackable, v, m), m.kind;
      && Running(w, 1 - k) == Running(v, 1 - k)
      && multiset(Running(w, k)) == multiset(Running(v, k)) + multiset{m.d}
      && Kept(trackable, Running(w, k)) == Kept(trackable, Running(v, k)) + (if trackable(m.d) then multiset{m.d} else multiset{})
      && w.overflowed == v.overflowed + (if trackable(m.d) then [] else [m.d])
  {
    KeptAppend(trackable, Running(v, m.kind), m.d);
    hide Kept;
    var w, k, now := Measured(trackable, v, m), m.kind, Running(v, m.kind);
    assert Running(w, k) == now + [m.d] && Running(w, 1 - k) == Running(v, 1 - k);
    assert w.overflowed == v.overflowed + (if trackable(m.d) then [] else [m.d]);
    hide Measured, Running;
    assert multiset(now + [m.d]) == multiset(now) + multiset{m.d};
  }

  lemma MeasuredIsAccounted(trackable: int -> bool, v: Durations, m: Measurement)
    requires Shaped(v) && m.kind < DURATION_KINDS && Accounted(trackable, v)
    ensures Accounted(trackable, Measured(trackable, v, m))
  {
    hide MakeUp, Kept, Running, Measured;
    MeasuredRunning(trackable, v, m);
    OneMore(Kept(trackable, Running(v, 0)), Kept(trackable, Running(v, 1)), multiset(v.overflowed),
            multiset(Running(v, 0)), multiset(Running(v, 1)), multiset{m.d});
    assert m.kind == 0 || m.kind == 1;
    var w := Measured(trackable, v, m);
    if trackable(m.d) {
      assert w.overflowed == v.overflowed;
    } else {
      assert multiset(w.overflowed) == multiset(v.overflowed) + multiset{m.d};
      assert Kept(trackable, Running(w, m.kind)) == Kept(trackable, Running(v, m.kind));
    }
  }

  lemma {:induction false} MeasuredAllIsAccounted(trackable: int -> bool, v: Durations, ms: seq<Measurement>)
    requires Shaped(v) && (forall i :: 0 <= i < |ms| ==> ms[i].kind < DURATION_KINDS) && Accounted(trackable, v)
    ensures Accounted(trackable, MeasuredAll(trackable, v, ms))
  {
    if ms != [] {
      MeasuredAllIsAccounted(trackable, v, ms[..|ms| - 1]);
      MeasuredIsAccounted(trackable, MeasuredAll(trackable, v, ms[..|ms| - 1]), ms[|ms| - 1]);
    }
  }

  lemma RotatedIsAccounted(trackable: int -> bool, v: Durations)
    requires Shaped(v)
    ensures Accounted(trackable, Rotated(v))
  {
  }

  class Aggregator {
    const trackable: int -> bool
    const windows: seq<RequestWindow>
    const hists: seq<WindowedHistogram>
    ghost const parts: set<object>

    var over: Overflow

    var version: nat
    var snapHists: seq<multiset<int>>
    var snapRequests: seq<Slice<nat>>
    var deadline: int
    var valid: bool

    // The durations no histogram accepted, since the last rotation.
    ghost var overflowed: seq<int>

    /** The kinds share no object. */
    ghost predicate Apart() {
      && |windows| == REQUEST_KINDS && |hists| == DURATION_KINDS && this !in parts
      && (forall k :: 0 <= k < |windows| ==> windows[k].Repr() <= parts)
      && (forall k :: 0 <= k < |hists| ==> hists[k] in parts && hists[k].trackable == trackable)
      && (forall k, l :: 0 <= k < l < |windows| ==> windows[k].Repr() !! windows[l].Repr())
      && (forall k, l :: 0 <= k < l < |hists| ==> hists[k] != hists[l])
    }

    ghost predicate PartsValid()
      requires Apart()
      reads parts
    {
      && (forall k :: 0 <= k < |windows| ==> windows[k].Valid())
      && forall k :: 0 <= k < |hists| ==> hists[k].Valid()
    }

    ghost function Measurements(): (v: Durations)
      requires Apart() && PartsValid()
      reads this, parts
      ensures Shaped(v)
    {
      Durations([hists[0].spans, hists[1].spans], overflowed)
    }

    ghost function Counters(): (cs: seq<Counter>)
      reads windows
      ensures |cs| == |windows|
    {
      seq(|windows|, k requires 0 <= k < |windows| reads windows => Counter(windows[k].intervals, windows[k].pending))
    }

    /** What a snapshot taken now shows. */
    ghost function Now(): Content
      requires Apart()
      reads parts
    {
      Content(
        seq(|windows|, k requires 0 <= k < |windows| && Apart() reads parts => Window(windows[k].intervals)),
        seq(|hists|, k requires 0 <= k < |hists| && Apart() reads parts => Kept(trackable, Latest(hists[k].spans, BUCKETS))))
    }

    /** What the stored snapshot shows. */
    ghost function Shot(): Content
      requires Apart()
      reads this, parts
    {
      Content(seq(|windows|, k requires 0 <= k < |windows| && Apart() reads parts => windows[k].shot[..]), snapHists)
    }

    ghost predicate Sound()
      reads this, parts
      ensures Sound() ==> Apart()
    {
      && Apart() && PartsValid()
      && over == Summary(overflowed)
      && |snapRequests| == |windows| && |snapHists| == |hists|
      && forall k :: 0 <= k < |windows| ==> snapRequests[k] == Slice(windows[k].shot, BUCKETS)
    }

    lemma PartsOwned()
      requires Sound()
      ensures |windows| == REQUEST_KINDS && |hists| == DURATION_KINDS && this !in parts
      ensures forall k :: 0 <= k < |windows| ==> windows[k].Repr() <= parts
      ensures forall k :: 0 <= k < |hists| ==> hists[k] in parts
    {
    }

    /** Coherence: a snapshot marked valid shows the present state. */
    ghost predicate Valid()
      reads this, parts
    {
      Sound() && (valid ==> Shot() == Now() && version > 0)
    }

    /** NewAggregator, with the objects of its loops over the kinds. */
    constructor (trackable: int -> bool, windows: seq<RequestWindow>, hists: seq<WindowedHistogram>, ghost parts: set<object>)
      requires |windows| == REQUEST_KINDS && |hists| == DURATION_KINDS
      requires forall k :: 0 <= k < |windows| ==> windows[k].Valid() && windows[k].Repr() <= parts
      requires forall k :: 0 <= k < |windows| ==> windows[k].intervals == [] && windows[k].pending == []
      requires forall k, l :: 0 <= k < l < |windows| ==> windows[k].Repr() !! windows[l].Repr()
      requires forall k :: 0 <= k < |hists| ==>
        hists[k].Valid() && hists[k] in parts && hists[k].trackable == trackable && hists[k].spans == [[]]
      requires forall k, l :: 0 <= k < l < |hists| ==> hists[k] != hists[l]
      ensures Valid() && !valid && version == 0 && deadline == 0 && this.trackable == trackable && this.parts == parts
      ensures Counters() == seq(REQUEST_KINDS, _ => Counter([], []))
      ensures Measurements() == Durations([[[]], [[]]], [])
    {
      this.trackable := trackable;
      this.windows := windows;
      this.hists := hists;
      this.parts := parts;
      over, overflowed := NO_OVERFLOW, [];
      version, snapHists, deadline, valid := 0, [multiset{}, multiset{}], 0, false;
      snapRequests := seq(|windows|, k requires 0 <= k < |windows| => Slice(windows[k].shot, BUCKETS));
    }

    /** The first loop of NewAggregator: its windows and snapshot buffers share no object. */
    static method NewWindows() returns (windows: seq<RequestWindow>, ghost parts: set<object>)
      ensures |windows| == REQUEST_KINDS && fresh(parts)
      ensures forall k :: 0 <= k < |windows| ==> windows[k].Valid() && windows[k].Repr() <= parts
      ensures forall k :: 0 <= k < |windows| ==> windows[k].intervals == [] && windows[k].pending == []
      ensures forall k, l :: 0 <= k < l < |windows| ==> windows[k].Repr() !! windows[l].Repr()
    {
      hide Window;
      windows, parts := [], {};
      for kind := 0 to REQUEST_KINDS
        invariant |windows| == kind && fresh(parts)
        invariant forall k :: 0 <= k < |windows| ==> windows[k].Valid() && windows[k].Repr() <= parts
        invariant forall k :: 0 <= k < |windows| ==> windows[k].intervals == [] && windows[k].pending == []
        invariant forall k, l :: 0 <= k < l < |windows| ==> windows[k].Repr() !! windows[l].Repr()
      {
        var w := new RequestWindow();
        windows, parts := windows + [w], parts + w.Repr();
      }
    }

    // ---- recording ----

    method RecordDuration(kind: nat, d: int)
      requires Sound() && kind < DURATION_KINDS
      modifies this`over, this`overflowed, hists
      ensures Sound()
      ensures Shot() == old(Shot())
      ensures Measurements() == Measured(trackable, old(Measurements()), Measurement(kind, d))
    {
      hide Window, Slot, Add, Shown, Kept, Summary, RequestWindow.Valid;
      var ok := hists[kind].RecordValue(d);
      assert Shot().requests == old(Shot()).requests;
      if !ok {
        SummaryAppend(overflowed, d);
        over := Add(over, d);
        overflowed := overflowed + [d];
      }
    }

    /** `case sample := <-a.sampleCh` */
    method OnSample(sample: Sample)
      requires Valid()
      modifies this`over, this`overflowed, this`valid, hists
      ensures Valid() && !valid
      ensures Shot() == old(Shot())
      ensures Measurements() == MeasuredAll(trackable, old(Measurements()), Unpacked([sample]))
    {
      hide Measured, WindowedHistogram.Valid, RequestWindow.Valid, Window, Summary;
      ghost var before := Measurements();
      RecordDuration(0, sample.addDuration);
      RecordDuration(1, sample.subDuration);
      assert Unpacked([sample]) == [Measurement(0, sample.addDuration), Measurement(1, sample.subDuration)] by {
        assert [sample][..0] == [];
      }
      TwoMeasurements(trackable, before, [], Measurement(0, sample.addDuration), Measurement(1, sample.subDuration));
      valid := false;
    }

    /** `case samples := <-a.samplesCh`, up to the return of the batch to its pool. */
    method OnSamples(batch: Slice<Sample>)
      requires Valid() && batch.len <= batch.arr.Length
      modifies this`over, this`overflowed, this`valid, hists
      ensures Valid() && !valid
      ensures Shot() == old(Shot())
      ensures Measurements() == MeasuredAll(trackable, old(Measurements()), Unpacked(batch.arr[..batch.len]))
    {
      hide Window, Slot, Latest, Kept, RequestWindow.Valid, WindowedHistogram.Valid, Summary;
      ghost var before := Measurements();
      assert Unpacked(batch.arr[..0]) == [];
      assert MeasuredAll(trackable, before, []) == before;
      for i := 0 to batch.len
        invariant Sound() && Shot() == old(Shot())
        invariant Measurements() == MeasuredAll(trackable, before, Unpacked(batch.arr[..i]))
      {
        hide Sound, Shot, Measured, MeasuredAll, Unpacked;
        var sample := batch.arr[i];
        UnpackedOneMore(batch.arr[..i], sample);
        assert batch.arr[..i + 1] == batch.arr[..i] + [sample];
        RecordSample(sample);
        TwoMeasurements(trackable, before, Unpacked(batch.arr[..i]),
                        Measurement(0, sample.addDuration), Measurement(1, sample.subDuration));
      }
      valid := false;
    }

    /** Both durations of a sample. */
    method RecordSample(sample: Sample)
      requires Sound()
      modifies this`over, this`overflowed, hists
      ensures Sound()
      ensures Shot() == old(Shot())
      ensures Measurements() == Measured(trackable, Measured(trackable, old(Measurements()),
        Measurement(0, sample.addDuration)), Measurement(1, sample.subDuration))
    {
      hide Measured, Shot;
      RecordDuration(0, sample.addDuration);
      RecordDuration(1, sample.subDuration);
    }

    /** `case msg := <-a.durationsCh`, up to the return of the batch to its pool. */
    method OnDurations(kind: nat, batch: Slice<int>)
      requires Valid() && batch.len <= batch.arr.Length && kind < DURATION_KINDS
      modifies this`over, this`overflowed, this`valid, hists
      ensures Valid() && !valid
      ensures Shot() == old(Shot())
      ensures Measurements() == MeasuredAll(trackable, old(Measurements()), OfKind(kind, batch.arr[..batch.len]))
    {
      ghost var before := Measurements();
      for i := 0 to batch.len
        invariant Sound() && Shot() == old(Shot())
        invariant Measurements() == MeasuredAll(trackable, before, OfKind(kind, batch.arr[..i]))
      {
        RecordDuration(kind, batch.arr[i]);
        assert OfKind(kind, batch.arr[..i + 1])[..i] == OfKind(kind, batch.arr[..i]);
      }
      valid := false;
    }

    // ---- rotation ----

    /** CountRequests: an atomic add, at any moment, also in the middle of a rotation. */
    method CountRequests(a: Addition)
      requires Sound() && a.kind < REQUEST_KINDS
      modifies windows[a.kind]
      ensures Sound()
      ensures forall k :: 0 <= k < |windows| ==>
        && windows[k].pending == old(windows[k].pending) + (if k == a.kind then [a.n] else [])
        && windows[k].intervals == old(windows[k].intervals)
      ensures Now() == old(Now()) && Shot() == old(Shot())
    {
      hide Window, WindowedHistogram.Valid;
      windows[a.kind].Count(a.n);
      assert Now().requests == old(Now()).requests && Now().histograms == old(Now()).histograms;
      assert Shot().requests == old(Shot()).requests;
    }

    /** Any number of handlers count requests. */
    method Interfere(additions: seq<Addition>)
      requires Sound() && forall i :: 0 <= i < |additions| ==> additions[i].kind < REQUEST_KINDS
      modifies windows
      ensures Sound()
      ensures Shot() == old(Shot())
      ensures forall k :: 0 <= k < |windows| ==>
        && windows[k].pending == old(windows[k].pending) + Of(additions, k)
        && windows[k].intervals == old(windows[k].intervals)
    {
      hide Sound, Shot;
      for i := 0 to |additions|
        invariant Sound() && Shot() == old(Shot())
        invariant forall k :: 0 <= k < |windows| ==>
          && windows[k].pending == old(windows[k].pending) + Of(additions[..i], k)
          && windows[k].intervals == old(windows[k].intervals)
      {
        CountRequests(additions[i]);
        assert additions[..i + 1][..i] == additions[..i];
      }
      assert additions[..|additions|] == additions;
    }

    method RotateOne(kind: nat)
      requires Sound() && kind < REQUEST_KINDS
      modifies windows[kind], windows[kind].q, windows[kind].ring
      ensures Sound()
      ensures Shot() == old(Shot())
      ensures forall k :: 0 <= k < |windows| ==>
        && windows[k].intervals == old(windows[k].intervals) + (if k == kind then [old(windows[k].pending)] else [])
        && windows[k].pending == if k == kind then [] else old(windows[k].pending)
    {
      hide Window, WindowedHistogram.Valid, Slot;
      windows[kind].Rotate();
    }

    /** One kind's share of rotate, after some handlers have counted. */
    method RotateKind(kind: nat, additions: seq<Addition>)
      requires Sound() && kind < REQUEST_KINDS
      requires forall i :: 0 <= i < |additions| ==> additions[i].kind < REQUEST_KINDS
      modifies windows, windows[kind].q, windows[kind].ring
      ensures Sound()
      ensures Shot() == old(Shot())
      ensures Counters() == KindRotated(old(Counters()), kind, additions)
    {
      hide Window, WindowedHistogram.Valid, Of, Slot;
      Interfere(additions);
      RotateOne(kind);
    }

    /** The request half of rotate. While it goes from kind to kind, handlers keep counting:
        additions[k] are the requests counted just before kind k is swapped. */
    method RotateRequests(additions: seq<seq<Addition>>)
      requires Sound() && |additions| == REQUEST_KINDS
      requires forall k, i :: 0 <= k < |additions| && 0 <= i < |additions[k]| ==> additions[k][i].kind < REQUEST_KINDS
      modifies parts
      ensures Sound()
      ensures Shot() == old(Shot())
      ensures Counters() == KindsRotated(old(Counters()), additions, REQUEST_KINDS)
      ensures forall k :: 0 <= k < |hists| ==> hists[k].spans == old(hists[k].spans)
    {
      hide Sound, Of, Shot;
      PartsOwned();
      for kind := 0 to REQUEST_KINDS
        invariant Sound()
        invariant Shot() == old(Shot())
        invariant Counters() == KindsRotated(old(Counters()), additions, kind)
        invariant forall k :: 0 <= k < |hists| ==> hists[k].spans == old(hists[k].spans)
      {
        RotateKind(kind, additions[kind]);
      }
    }

    method RotateHists()
      requires Sound()
      modifies hists, this`over, this`overflowed
      ensures Sound()
      ensures Shot() == old(Shot())
      ensures Measurements() == Rotated(old(Measurements()))
    {
      hide Window, Slot, RequestWindow.Valid, Latest, Kept;
      PartsOwned();
      if over.count > 0 {
        over := NO_OVERFLOW;
      }
      SummaryCounts(overflowed);
      overflowed := [];
      for kind := 0 to DURATION_KINDS
        invariant Sound()
        invariant overflowed == []
        invariant Shot() == old(Shot())
        invariant forall k :: 0 <= k < |hists| ==>
          hists[k].spans == old(hists[k].spans) + (if k < kind then [[]] else [])
      {
        hide Sound, Shot;
        RotateHist(kind);
      }
    }

    method RotateHist(kind: nat)
      requires Sound() && kind < DURATION_KINDS
      modifies hists[kind]
      ensures Sound() && Shot() == old(Shot())
      ensures forall k :: 0 <= k < |hists| ==>
        hists[k].spans == old(hists[k].spans) + (if k == kind then [[]] else [])
    {
      hide Window, Slot, RequestWindow.Valid, Latest, Kept;
      hists[kind].Rotate();
      assert Shot().requests == old(Shot()).requests;
    }

    /** `case <-rotateTk.C` */
    method OnTick(additions: seq<seq<Addition>>)
      requires Valid() && |additions| == REQUEST_KINDS
      requires forall k, i :: 0 <= k < |additions| && 0 <= i < |additions[k]| ==> additions[k][i].kind < REQUEST_KINDS
      modifies parts, this`over, this`overflowed, this`valid
      ensures Valid() && !valid
      ensures Shot() == old(Shot())
      ensures Counters() == KindsRotated(old(Counters()), additions, REQUEST_KINDS)
      ensures Measurements() == Rotated(old(Measurements()))
    {
      hide RequestWindow.Valid, WindowedHistogram.Valid;
      RotateRequests(additions);
      RotateHists();
      valid := false;
    }

    // ---- snapshots ----

    method ShootWindow(kind: nat) returns (out: Slice<nat>)
      requires Sound() && kind < REQUEST_KINDS
      modifies windows[kind].shot
      ensures Apart() && PartsValid() && out == Slice(windows[kind].shot, BUCKETS)
      ensures windows[kind].shot[..] == Window(windows[kind].intervals)
      ensures forall k :: 0 <= k < |windows| && k != kind ==> windows[k].shot[..] == old(windows[k].shot[..])
    {
      hide Window, Slot, WindowedHistogram.Valid, Latest, Kept, Summary;
      out := windows[kind].Shoot();
    }

    /** One kind's share of makeSnapshot: its window into its old array again. */
    method ShootKind(kind: nat)
      requires Sound() && kind < REQUEST_KINDS
      modifies windows[kind].shot, this`snapRequests
      ensures Sound()
      ensures Now() == old(Now()) && Counters() == old(Counters()) && Measurements() == old(Measurements())
      ensures windows[kind].shot[..] == Now().requests[kind]
      ensures forall k :: 0 <= k < |windows| && k != kind ==> windows[k].shot[..] == old(windows[k].shot[..])
    {
      hide Window, Slot, WindowedHistogram.Valid, RequestWindow.Valid, Latest, Kept, Summary;
      var out := ShootWindow(kind);
      snapRequests := snapRequests[kind := out];
      assert Sound();
      assert Now().requests == old(Now()).requests;
    }

    method ShootRequests()
      requires Sound()
      modifies parts, this`snapRequests
      ensures Sound()
      ensures Now() == old(Now()) && Counters() == old(Counters()) && Measurements() == old(Measurements())
      ensures forall k :: 0 <= k < |windows| ==> windows[k].shot[..] == Now().requests[k]
    {
      PartsOwned();
      assert |Now().requests| == |windows|;
      hide Sound, Now, Counters, Measurements;
      for kind := 0 to REQUEST_KINDS
        invariant Sound()
        invariant Now() == old(Now()) && Counters() == old(Counters()) && Measurements() == old(Measurements())
        invariant forall k :: 0 <= k < kind ==> windows[k].shot[..] == Now().requests[k]
      {
        ShootKind(kind);
      }
    }

    method MergeHists() returns (merged: seq<multiset<int>>)
      requires Sound()
      ensures merged == Now().histograms
    {
      hide Window, Slot, RequestWindow.Valid;
      merged := [];
      for kind := 0 to DURATION_KINDS
        invariant |merged| == kind
        invariant forall k :: 0 <= k < kind ==> merged[k] == Kept(trackable, Latest(hists[k].spans, BUCKETS))
      {
        var all := hists[kind].Merge();
        merged := merged + [all];
      }
    }

    lemma ShotIsNow()
      requires Sound() && snapHists == Now().histograms
      requires forall k :: 0 <= k < |windows| ==> windows[k].shot[..] == Now().requests[k]
      ensures Shot() == Now()
    {
      hide RequestWindow.Valid, WindowedHistogram.Valid, Window, Slot, Latest, Kept;
      assert Shot().requests == Now().requests;
    }

    /** The two loops of makeSnapshot. */
    method Shoot()
      requires Sound()
      modifies parts, this`snapHists, this`snapRequests
      ensures Sound() && Shot() == Now() == old(Now())
      ensures Counters() == old(Counters()) && Measurements() == old(Measurements())
    {
      hide RequestWindow.Valid, WindowedHistogram.Valid, Window, Slot, Latest, Kept;
      PartsOwned();
      snapHists := MergeHists();
      assert Sound();
      ShootRequests();
      ShotIsNow();
    }

    /** makeSnapshot, by a clock that reads `now` at its end. */
    method MakeSnapshot(now: int)
      requires Sound()
      modifies parts, this`version, this`snapHists, this`snapRequests, this`deadline, this`valid
      ensures Valid() && valid && Shot() == Now() == old(Now())
      ensures version == old(version) + 1 && deadline == now + SNAPSHOT_TTL
      ensures Counters() == old(Counters()) && Measurements() == old(Measurements())
    {
      hide RequestWindow.Valid, WindowedHistogram.Valid, Window, Slot, Latest, Kept;
      PartsOwned();
      version := version + 1;
      Shoot();
      deadline := now + SNAPSHOT_TTL;
      valid := true;
    }

    /** What a callback reads of the stored snapshot. */
    method Snapshot() returns (c: Content)
      requires Sound()
      ensures c == Shot()
    {
      hide WindowedHistogram.Valid, Window;
      var requests: seq<seq<nat>> := [];
      for kind := 0 to REQUEST_KINDS
        invariant |requests| == kind
        invariant forall k :: 0 <= k < kind ==> requests[k] == windows[k].shot[..]
      {
        requests := requests + [snapRequests[kind].arr[..snapRequests[kind].len]];
      }
      c := Content(requests, snapHists);
    }

    /** `case <-a.snapCh`, up to the reply: a snapshot that is neither valid nor recent is redone. */
    method OnSnapshotRequest(now: int)
      requires Valid()
      modifies parts, this`version, this`snapHists, this`snapRequests, this`deadline, this`valid
      ensures Valid() && Now() == old(Now()) && Counters() == old(Counters()) && Measurements() == old(Measurements())
      ensures if !old(valid) && now >= old(deadline)
        then valid && Shot() == Now() && version == old(version) + 1 && deadline == now + SNAPSHOT_TTL
        else Shot() == old(Shot()) && version == old(version) && deadline == old(deadline) && valid == old(valid)
    {
      if !valid && now >= deadline {
        MakeSnapshot(now);
      }
    }

    /** getSnapshot after Stop: the getter itself redoes a snapshot that is not valid. */
    method AfterStop(now: int)
      requires Valid()
      modifies parts, this`version, this`snapHists, this`snapRequests, this`deadline, this`valid
      ensures Valid() && valid && Shot() == Now() == old(Now())
      ensures Counters() == old(Counters()) && Measurements() == old(Measurements())
      ensures version == old(version) + (if old(valid) then 0 else 1)
      ensures old(valid) ==> Shot() == old(Shot())
    {
      if !valid {
        MakeSnapshot(now);
      }
    }
  }

  /** NewAggregator; the goroutine it starts is the methods above, one event at a time. */
  method NewAggregator(trackable: int -> bool) returns (a: Aggregator)
    ensures fresh(a) && fresh(a.parts) && a.trackable == trackable
    ensures a.Valid() && !a.valid && a.version == 0 && a.deadline == 0
    ensures a.Counters() == seq(REQUEST_KINDS, _ => Counter([], []))
    ensures a.Measurements() == Durations([[[]], [[]]], [])
  {
    hide Window;
    var windows, parts := Aggregator.NewWindows();
    var add := new WindowedHistogram(trackable);
    var sub := new WindowedHistogram(trackable);
    ghost var hists: set<object> := {add, sub};
    a := new Aggregator(trackable, windows, [add, sub], parts + hists);
  }

  lemma UnpackedOneMore(samples: seq<Sample>, sample: Sample)
    ensures Unpacked(samples + [sample]) ==
            Unpacked(samples) + [Measurement(0, sample.addDuration), Measurement(1, sample.subDuration)]
  {
    assert (samples + [sample])[..|samples|] == samples;
  }

  lemma TwoMeasurements(trackable: int -> bool, v: Durations, ms: seq<Measurement>, m: Measurement, n: Measurement)
    requires Shaped(v) && (forall i :: 0 <= i < |ms| ==> ms[i].kind < DURATION_KINDS)
    requires m.kind < DURATION_KINDS && n.kind < DURATION_KINDS
    ensures MeasuredAll(trackable, v, ms + [m, n]) ==
            Measured(trackable, Measured(trackable, MeasuredAll(trackable, v, ms), m), n)
  {
    assert (ms + [m, n])[..|ms| + 1] == ms + [m];
    assert (ms + [m])[..|ms|] == ms;
  }
}
