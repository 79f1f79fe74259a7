/**
 From what handlers counted to the lines of a served text: the interleaved caches of SnapshotCache
 over the contents of a running aggregator.
 */
module ReportRuns {
  import opened Options
  import opened RequestWindows
  import opened Histograms
  import opened Aggregators
  import opened Reports
  import opened AggregatorRuns
  import SnapshotCache

  /** What was counted and measured, as the events alone determine it. */
  function PastAfter(trackable: int -> bool, events: seq<Event>): (past: Past)
    requires AllProper(events)
    ensures OfAllKinds(past)
  {
    Past(trackable,
         seq(REQUEST_KINDS, k requires 0 <= k < REQUEST_KINDS => History(events)[k].intervals),
         seq(DURATION_KINDS, k requires 0 <= k < DURATION_KINDS => Spans(events, k)))
  }

  /** The lines are the true ones, and no others. */
  ghost predicate Truthful(past: Past, text: seq<Line>) {
    forall line: Line :: line in text <==> Tells(past, line)
  }

  // ---- one printer after the run ----

  lemma PastIsOfEvents(a: Aggregator, events: seq<Event>)
    requires a.Valid() && AllProper(events)
    requires a.Counters() == History(events) && a.Measurements() == Measures(a.trackable, events)
    ensures PastOf(a) == PastAfter(a.trackable, events)
  {
    hide History, Measures, Spans;
    MeasuresHaveAll(a.trackable, events, 0);
    MeasuresHaveAll(a.trackable, events, 1);
    assert PastOf(a).spans == PastAfter(a.trackable, events).spans;
  }

  /** The report printed after Stop, at the end of any life of the aggregator. */
  method LastReport(trackable: int -> bool, events: seq<Event>, check: nat, look: int, stamp: int) returns (text: Option<seq<Line>>)
    requires AllProper(events)
    ensures text.Some? && Truthful(PastAfter(trackable, events), text.value)
  {
    hide Aggregator.Counters, Aggregator.Valid, Aggregator.Measurements, History, Measures, PastAfter, PastOf, Tells;
    var a := RunAggregator(trackable, events);
    PastIsOfEvents(a, events);
    var printer := new Printer(a);
    text := printer.Print(check, look, stamp, true);
  }

  // ---- any number of printers during the run ----

  /** One array or histogram of the snapshot, as makeSnapshot copies them: histograms first. */
  datatype Part = Durations60(durations: multiset<int>) | Requests60(counts: seq<nat>)

  predicate IsSnapshot(parts: seq<Part>) {
    && |parts| == DURATION_KINDS + REQUEST_KINDS
    && (forall k :: 0 <= k < DURATION_KINDS ==> parts[k].Durations60?)
    && forall k :: DURATION_KINDS <= k < |parts| ==> parts[k].Requests60? && |parts[k].counts| == BUCKETS
  }

  function AsContent(parts: seq<Part>): (c: Content)
    requires IsSnapshot(parts)
    ensures Complete(c)
  {
    Content(seq(REQUEST_KINDS, k requires 0 <= k < REQUEST_KINDS => parts[DURATION_KINDS + k].counts),
            seq(DURATION_KINDS, k requires 0 <= k < DURATION_KINDS => parts[k].durations))
  }

  /** The content of an aggregator after these events. */
  function PartsAfter(trackable: int -> bool, events: seq<Event>): (parts: seq<Part>)
    requires AllProper(events)
    ensures IsSnapshot(parts)
  {
    seq(DURATION_KINDS, k requires 0 <= k < DURATION_KINDS =>
      Durations60(Kept(trackable, Latest(Spans(events, k), BUCKETS))))
    + seq(REQUEST_KINDS, k requires 0 <= k < REQUEST_KINDS => Requests60(Window(History(events)[k].intervals)))
  }

  /** It is what class Aggregator shows. */
  lemma PartsAreNow(a: Aggregator, events: seq<Event>)
    requires a.Valid() && AllProper(events)
    requires a.Counters() == History(events) && a.Measurements() == Measures(a.trackable, events)
    ensures a.Now() == AsContent(PartsAfter(a.trackable, events))
  {
    hide RequestWindow.Valid, WindowedHistogram.Valid, Window, Latest, Kept, History, Measures, Spans;
    var c := AsContent(PartsAfter(a.trackable, events));
    PastIsOfEvents(a, events);
    assert forall k :: 0 <= k < |a.windows| ==> PastOf(a).intervals[k] == a.windows[k].intervals;
    assert PastOf(a).spans == [a.hists[0].spans, a.hists[1].spans];
    assert PastAfter(a.trackable, events).spans[0] == Spans(events, 0) && PastAfter(a.trackable, events).spans[1] == Spans(events, 1);
    assert forall k :: 0 <= k < |a.hists| ==> a.hists[k].spans == Spans(events, k);
    assert a.Now().requests == c.requests;
    assert a.Now().histograms == c.histograms;
  }

  lemma RenderedIsTruthful(trackable: int -> bool, events: seq<Event>)
    requires AllProper(events)
    ensures Truthful(PastAfter(trackable, events), Render(AsContent(PartsAfter(trackable, events))))
  {
    hide Render, Window, Latest, Kept, History, Spans, Recent, Tells;
    var c, past := AsContent(PartsAfter(trackable, events)), PastAfter(trackable, events);
    assert Shows(c, past);
    forall line: Line ensures line in Render(c) <==> Tells(past, line) {
      LinesTellTruth(c, past, line);
    }
  }

  /** The text was truthful at `moment`, in the t-th stretch of the timeline. */
  ghost predicate TruthfulAt(trackable: int -> bool, s: SnapshotCache.State<Part>, logs: seq<seq<Event>>, served: SnapshotCache.Served<Part>, t: nat) {
    && t < |logs| == |s.timeline| && AllProper(logs[t])
    && SnapshotCache.Lasts(s.timeline, s.now, t, served.moment)
    && served.text.Some? && IsSnapshot(served.text.value)
    && Truthful(PastAfter(trackable, logs[t]), Render(AsContent(served.text.value)))
  }

  /** End to end, whatever printers, getters and the aggregator interleave: take any run of the
      caches whose content is, from the start and after each change, that of an aggregator with the
      events logs[0], logs[1], and so on. The lines of every text served, before or after a deadline,
      are exactly those that were true at some moment less than 510 ms and the duration of a refresh
      before. */
  lemma ServedTextsAreTruthful(trackable: int -> bool, now: int, n: nat, logs: seq<seq<Event>>,
                               events: seq<SnapshotCache.Event<Part>>, i: nat)
    requires logs != [] && forall t :: 0 <= t < |logs| ==> AllProper(logs[t])
    requires SnapshotCache.IsRun(SnapshotCache.Init(now, PartsAfter(trackable, logs[0]), n), events)
    requires var s := SnapshotCache.Execute(SnapshotCache.Init(now, PartsAfter(trackable, logs[0]), n), events);
      && |s.timeline| == |logs|
      && (forall t :: 0 <= t < |logs| ==> s.timeline[t].content == PartsAfter(trackable, logs[t]))
      && i < |s.served|
    ensures var s := SnapshotCache.Execute(SnapshotCache.Init(now, PartsAfter(trackable, logs[0]), n), events);
      && s.served[i].at - SnapshotCache.STALENESS - s.served[i].refresh <= s.served[i].moment <= s.served[i].at
      && exists t: nat :: TruthfulAt(trackable, s, logs, s.served[i], t)
  {
    hide SnapshotCache.Init, SnapshotCache.IsRun, SnapshotCache.Execute, PartsAfter, Render;
    var init := SnapshotCache.Init(now, PartsAfter(trackable, logs[0]), n);
    SnapshotCache.ReportsAreFresh(now, PartsAfter(trackable, logs[0]), n, events, i);
    var s := SnapshotCache.Execute(init, events);
    var served := s.served[i];
    assert SnapshotCache.WasState(s.timeline, s.now, served.moment, served.text.value);
    var t: nat :| t < |s.timeline| && SnapshotCache.Lasts(s.timeline, s.now, t, served.moment)
                  && s.timeline[t].content == served.text.value;
    RenderedIsTruthful(trackable, logs[t]);
    assert TruthfulAt(trackable, s, logs, served, t);
  }
}
