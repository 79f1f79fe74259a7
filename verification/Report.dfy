/**
 The metrics report: its lines, in the order in which printReport writes them, and the printer's
 version-keyed cache of the text.
 */
module Reports {
  import opened RequestWindows
  import opened Histograms
  import opened Aggregators
  import opened Options

  /** reportCacheTTL */
  const REPORT_TTL: int := 500 * MILLISECOND

  /** `<name>{second="<second>"} <value>` for a request kind, and `<name>{quantile="..."}` for a
      duration kind, shown with the multiset of durations the quantile is taken of. The constant
      HELP and TYPE lines are left out. */
  datatype Line = Gauge(kind: nat, second: int, value: nat) | Quantile(kind: nat, percent: nat, of: multiset<int>)

  /** requestMeta: Ok, BadRequest, Overload, Failed. */
  const REQUEST_META: seq<nat> := [0, 2, 1, 3]

  /** histogramMeta: Add, Sub. */
  const HISTOGRAM_META: seq<nat> := [0, 1]

  predicate Complete(c: Content) {
    && |c.requests| == REQUEST_KINDS && |c.histograms| == DURATION_KINDS
    && forall k :: 0 <= k < REQUEST_KINDS ==> |c.requests[k]| == BUCKETS
  }

  /** The lines of one request kind: line i, counting from 0, is for second -(i + 1). */
  function Gauges(kind: nat, rps: seq<nat>): seq<Line> {
    seq(|rps|, i requires 0 <= i < |rps| => Gauge(kind, -(i + 1), rps[|rps| - 1 - i]))
  }

  function Quantiles(kind: nat, of: multiset<int>): seq<Line> {
    [Quantile(kind, 95, of), Quantile(kind, 99, of)]
  }

  function RequestLines(c: Content, n: nat): seq<Line>
    requires Complete(c) && n <= |REQUEST_META|
  {
    if n == 0 then []
    else RequestLines(c, n - 1) + Gauges(REQUEST_META[n - 1], c.requests[REQUEST_META[n - 1]])
  }

  function HistogramLines(c: Content, n: nat): seq<Line>
    requires Complete(c) && n <= |HISTOGRAM_META|
  {
    if n == 0 then []
    else HistogramLines(c, n - 1) + Quantiles(HISTOGRAM_META[n - 1], c.histograms[HISTOGRAM_META[n - 1]])
  }

  /** The whole report. */
  function Render(c: Content): seq<Line>
    requires Complete(c)
  {
    RequestLines(c, |REQUEST_META|) + HistogramLines(c, |HISTOGRAM_META|)
  }

  /** printReport */
  method PrintReport(c: Content) returns (b: seq<Line>)
    requires Complete(c)
    ensures b == Render(c)
  {
    b := [];
    for m := 0 to |REQUEST_META|
      invariant b == RequestLines(c, m)
    {
      var lines := PrintGauges(REQUEST_META[m], c.requests[REQUEST_META[m]]);
      b := b + lines;
    }
    for m := 0 to |HISTOGRAM_META|
      invariant b == RequestLines(c, |REQUEST_META|) + HistogramLines(c, m)
    {
      var kind := HISTOGRAM_META[m];
      b := b + [Quantile(kind, 95, c.histograms[kind])];
      b := b + [Quantile(kind, 99, c.histograms[kind])];
    }
  }

  /** The descending loop over one window. */
  method PrintGauges(kind: nat, rps: seq<nat>) returns (b: seq<Line>)
    ensures b == Gauges(kind, rps)
  {
    b := [];
    var i := |rps| - 1;
    while i >= 0
      invariant -1 <= i < |rps|
      invariant b == Gauges(kind, rps)[..|rps| - 1 - i]
    {
      var sec := i - |rps|;
      b := b + [Gauge(kind, sec, rps[i])];
      i := i - 1;
    }
  }

  lemma NowIsComplete(stats: Aggregator)
    requires stats.Valid()
    ensures Complete(stats.Now())
  {
    hide RequestWindow.Valid, WindowedHistogram.Valid;
  }

  /** Printer. A text of None is the nil slice it starts with. */
  class Printer {
    const stats: Aggregator
    var cache: Option<seq<Line>>
    var cacheVersion: nat
    var cacheDeadline: int

    /** The text belongs to its version, so that equal versions mean equal texts. */
    ghost predicate Valid()
      reads this, stats, stats.parts
    {
      && stats.Valid() && this !in stats.parts
      && cacheVersion <= stats.version
      && Complete(stats.Shot())
      && (cacheVersion == stats.version && cacheVersion > 0 ==> cache == Some(Render(stats.Shot())))
    }

    constructor (stats: Aggregator)
      requires stats.Valid()
      ensures Valid() && this.stats == stats && cache == None && cacheDeadline == 0
    {
      this.stats := stats;
      cache, cacheVersion, cacheDeadline := None, 0, 0;
    }

    /** getReportText. The clock reads `check` at the test of the deadline, `look` when the
        aggregator, or after Stop the getter itself, looks at the snapshot, `stamp` when the new
        deadline is set. Up to the deadline the text stays; after that it is the rendering of the
        stored snapshot, also where an equal version spares the rendering. That snapshot is the
        present state unless it was neither valid nor past its own deadline. */
    method GetReportText(check: int, look: int, stamp: int, stopped: bool) returns (text: Option<seq<Line>>)
      requires Valid()
      requires stats.version == 0 && !stopped ==> look >= stats.deadline
      modifies this, stats, stats.parts
      ensures Valid() && text == cache
      ensures stats.Now() == old(stats.Now()) && PastOf(stats) == old(PastOf(stats))
      ensures check < old(cacheDeadline) ==>
        cache == old(cache) && cacheDeadline == old(cacheDeadline) && stats.Shot() == old(stats.Shot())
      ensures check >= old(cacheDeadline) ==>
        && text == Some(Render(stats.Shot()))
        && cacheDeadline == stamp + REPORT_TTL && cacheVersion == stats.version
        && stats.Shot() == if stopped || old(stats.valid) || look >= old(stats.deadline) then stats.Now() else old(stats.Shot())
    {
      hide Render, Complete, Aggregator.Sound, Aggregator.Now, Aggregator.Shot, Aggregator.Counters, Aggregator.Measurements, PastFrom, Window, Latest, Kept;
      if check >= cacheDeadline {
        NowIsComplete(stats);
        if stopped {
          stats.AfterStop(look);
        } else {
          stats.OnSnapshotRequest(look);
        }
        if cacheVersion != stats.version {
          var snap := stats.Snapshot();
          var b := PrintReport(snap);
          cache := Some(b);
          cacheVersion := stats.version;
        }
        cacheDeadline := stamp + REPORT_TTL;
      }
      text := cache;
    }

    /** Print, end to end: past both deadlines, with a valid snapshot, or after Stop, the lines that
        are written are exactly the true ones. */
    method Print(check: int, look: int, stamp: int, stopped: bool) returns (written: Option<seq<Line>>)
      requires Valid()
      requires stats.version == 0 && !stopped ==> look >= stats.deadline
      modifies this, stats, stats.parts
      ensures Valid() && written == cache && PastOf(stats) == old(PastOf(stats))
      ensures check >= old(cacheDeadline) && (stopped || old(stats.valid) || look >= old(stats.deadline)) ==>
        written.Some? && forall line: Line :: line in written.value <==> IsTrue(stats, line)
    {
      hide Render, Complete, Aggregator.Sound, Aggregator.Now, Aggregator.Shot, Aggregator.Counters, Aggregator.Measurements, PastFrom, Window, Latest, Kept;
      written := GetReportText(check, look, stamp, stopped);
      NowIsComplete(stats);
      forall line: Line ensures line in Render(stats.Now()) <==> IsTrue(stats, line) {
        NowTellsTruth(stats, line);
      }
    }
  }

  // ---- the lines tell the truth ----

  /** For every request kind its completed intervals, for every duration kind its spans. */
  datatype Past = Past(trackable: int -> bool, intervals: seq<seq<seq<nat>>>, spans: seq<seq<seq<int>>>)

  predicate OfAllKinds(past: Past) {
    |past.intervals| == REQUEST_KINDS && |past.spans| == DURATION_KINDS
  }

  /** The line is true of the past. A gauge line gives a kind's count in one of the last 60 completed
      intervals, zero before the start; a quantile line is about the 95th or 99th percentile of the
      accepted durations of one kind in the last 60 spans. */
  predicate Tells(past: Past, line: Line) {
    match line
    case Gauge(kind, second, value) =>
      kind < |past.intervals| && 1 <= -second <= BUCKETS && value == Recent(past.intervals[kind], -second)
    case Quantile(kind, percent, of) =>
      kind < |past.spans| && percent in {95, 99} && of == Kept(past.trackable, Latest(past.spans[kind], BUCKETS))
  }

  /** The content for a past. */
  predicate Shows(c: Content, past: Past) {
    && Complete(c) && OfAllKinds(past)
    && (forall k :: 0 <= k < REQUEST_KINDS ==> c.requests[k] == Window(past.intervals[k]))
    && forall k :: 0 <= k < DURATION_KINDS ==> c.histograms[k] == Kept(past.trackable, Latest(past.spans[k], BUCKETS))
  }

  /** End to end: after any number of rotations the lines of the report are exactly the true ones: for
      every request kind and every k in 1..60 the line second="-k" of the k-th most recent completed
      interval, and for every duration kind its two percentiles. */
  lemma LinesTellTruth(c: Content, past: Past, line: Line)
    requires Shows(c, past)
    ensures line in Render(c) <==> Tells(past, line)
  {
    hide Kept, Latest;
    match line
    case Gauge(kind, second, value) =>
      NoGaugeAmongQuantiles(c, line);
      RequestLinesByKind(c, line);
      if kind < REQUEST_KINDS {
        GaugesShowRecent(kind, c.requests[kind], past.intervals[kind], line);
      }
    case Quantile(kind, percent, of) =>
      NoQuantileAmongGauges(c, REQUEST_KINDS, line);
      HistogramLinesByKind(c, line);
  }

  lemma HistogramLinesAre(c: Content)
    requires Complete(c)
    ensures HistogramLines(c, DURATION_KINDS) == Quantiles(0, c.histograms[0]) + Quantiles(1, c.histograms[1])
  {
    assert HistogramLines(c, 0) == [];
    assert HistogramLines(c, 1) == [] + Quantiles(0, c.histograms[0]) == Quantiles(0, c.histograms[0]);
  }

  lemma NoGaugeAmongQuantiles(c: Content, line: Line)
    requires Complete(c) && line.Gauge?
    ensures line !in HistogramLines(c, DURATION_KINDS)
  {
    HistogramLinesAre(c);
  }

  lemma {:induction false} NoQuantileAmongGauges(c: Content, n: nat, line: Line)
    requires Complete(c) && n <= REQUEST_KINDS && line.Quantile?
    ensures line !in RequestLines(c, n)
  {
    if n > 0 {
      NoQuantileAmongGauges(c, n - 1, line);
    }
  }

  /** The percentiles of a kind are taken of the histogram of that kind. */
  lemma HistogramLinesByKind(c: Content, line: Line)
    requires Complete(c) && line.Quantile?
    ensures line in HistogramLines(c, DURATION_KINDS) <==>
      line.kind < DURATION_KINDS && line.percent in {95, 99} && line.of == c.histograms[line.kind]
  {
    HistogramLinesAre(c);
    forall kind, of ensures line in Quantiles(kind, of) <==> line.kind == kind && line.percent in {95, 99} && line.of == of {
      assert Quantiles(kind, of)[0] == Quantile(kind, 95, of) && Quantiles(kind, of)[1] == Quantile(kind, 99, of);
    }
  }

  /** Every line is in the report once: there are as many as kinds, seconds and percentiles. */
  lemma LineCount(c: Content)
    requires Complete(c)
    ensures |Render(c)| == REQUEST_KINDS * BUCKETS + DURATION_KINDS * 2
  {
    HistogramLinesAre(c);
    assert |RequestLines(c, 0)| == 0;
    assert |RequestLines(c, 1)| == BUCKETS;
    assert |RequestLines(c, 2)| == 2 * BUCKETS;
    assert |RequestLines(c, 3)| == 3 * BUCKETS;
  }

  function PastFrom(trackable: int -> bool, counters: seq<Counter>, v: Durations): Past {
    Past(trackable, seq(|counters|, k requires 0 <= k < |counters| => counters[k].intervals), v.spans)
  }

  /** The past of an aggregator. */
  ghost function PastOf(stats: Aggregator): Past
    requires stats.Valid()
    reads stats, stats.windows, stats.parts
  {
    PastFrom(stats.trackable, stats.Counters(), stats.Measurements())
  }

  ghost predicate IsTrue(stats: Aggregator, line: Line)
    requires stats.Valid()
    reads stats, stats.windows, stats.parts
  {
    Tells(PastOf(stats), line)
  }

  lemma NowTellsTruth(stats: Aggregator, line: Line)
    requires stats.Valid()
    ensures Complete(stats.Now())
    ensures line in Render(stats.Now()) <==> IsTrue(stats, line)
  {
    hide RequestWindow.Valid, WindowedHistogram.Valid, Window, Render, Latest, Kept, Tells;
    NowIsComplete(stats);
    assert Shows(stats.Now(), PastOf(stats));
    LinesTellTruth(stats.Now(), PastOf(stats), line);
  }

  lemma RequestLinesByKind(c: Content, line: Line)
    requires Complete(c) && line.Gauge?
    ensures line in RequestLines(c, 4) <==> line.kind < REQUEST_KINDS && line in Gauges(line.kind, c.requests[line.kind])
  {
    assert RequestLines(c, 0) == [];
    assert RequestLines(c, 1) == Gauges(0, c.requests[0]);
    assert RequestLines(c, 2) == RequestLines(c, 1) + Gauges(2, c.requests[2]);
    assert RequestLines(c, 3) == RequestLines(c, 2) + Gauges(1, c.requests[1]);
    assert RequestLines(c, 4) == RequestLines(c, 3) + Gauges(3, c.requests[3]);
    forall kind, rps | line in Gauges(kind, rps) ensures line.kind == kind {
    }
  }

  lemma GaugesShowRecent(kind: nat, rps: seq<nat>, intervals: seq<seq<nat>>, line: Line)
    requires rps == Window(intervals) && line.Gauge? && line.kind == kind
    ensures line in Gauges(kind, rps) <==>
      1 <= -line.second <= BUCKETS && line.value == Recent(intervals, -line.second)
  {
    var gauges := Gauges(kind, rps);
    if line in gauges {
      var i :| 0 <= i < |gauges| && gauges[i] == line;
      WindowShowsRecent(intervals, i + 1);
    }
    if 1 <= -line.second <= BUCKETS && line.value == Recent(intervals, -line.second) {
      WindowShowsRecent(intervals, -line.second);
      assert gauges[-line.second - 1] == line;
    }
  }
}
