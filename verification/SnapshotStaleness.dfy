/**
 How old a served report text can be, exactly: anything short of 510 ms and what its refresh takes.
 The 500 ms of the text count from the end of the refresh, and the snapshot it looks at may be nearly
 10 ms old by then. Each of the two ages stays one tick of the clock, a nanosecond, below its limit.
 */
module SnapshotStaleness {
  import opened Options
  import opened SnapshotCache

  /** The text was the aggregator's state at some moment at most `limit` before it was served. */
  ghost predicate Within<P(!new)>(s: State<P>, served: Served<P>, limit: int) {
    served.text.Some? && exists moment ::
      served.at - limit <= moment <= served.at && WasState(s.timeline, s.now, moment, served.text.value)
  }

  ghost predicate AllWithin<P(!new)>(s: State<P>, limit: int) {
    forall i :: 0 <= i < |s.served| ==> Within(s, s.served[i], limit)
  }

  predicate RefreshesTake<P>(s: State<P>, bound: nat) {
    forall i :: 0 <= i < |s.served| ==> s.served[i].refresh <= bound
  }

  /** From any content that can change, with anybody to ask for reports: all texts of all runs whose
      refreshes take at most `bound` are at most `limit` old if and only if limit exceeds the bound by
      510 ms, less the two ticks. In particular no limit holds without a bound on refreshes. */
  lemma StalenessIsExact<P(!new)>(now: int, content: seq<P>, other: seq<P>, n: nat, bound: nat, limit: int)
    requires n >= 1 && |other| == |content| && other != content
    ensures (forall events :: IsRun(Init(now, content, n), events) && RefreshesTake(Execute(Init(now, content, n), events), bound) ==>
               AllWithin(Execute(Init(now, content, n), events), limit))
            <==> limit >= STALENESS + bound
  {
    hide Init, IsRun, Execute;
    if limit >= STALENESS + bound {
      forall events | IsRun(Init(now, content, n), events) && RefreshesTake(Execute(Init(now, content, n), events), bound)
        ensures AllWithin(Execute(Init(now, content, n), events), limit)
      {
        FreshIsWithin(now, content, n, events, bound, limit);
      }
    } else {
      var events, s := StaleRun(now, content, other, n, bound);
      assert !AllWithin(s, limit) by {
        OldestIsStale(s, now, content, other, bound, limit);
      }
    }
  }

  lemma FreshIsWithin<P(!new)>(now: int, content: seq<P>, n: nat, events: seq<Event<P>>, bound: nat, limit: int)
    requires IsRun(Init(now, content, n), events) && RefreshesTake(Execute(Init(now, content, n), events), bound)
    requires limit >= STALENESS + bound
    ensures AllWithin(Execute(Init(now, content, n), events), limit)
  {
    hide Init, IsRun, Execute, WasState;
    var s := Execute(Init(now, content, n), events);
    forall i | 0 <= i < |s.served| ensures Within(s, s.served[i], limit) {
      ReportsAreFresh(now, content, n, events, i);
      assert WasState(s.timeline, s.now, s.served[i].moment, s.served[i].text.value);
    }
  }

  lemma OldestIsStale<P(!new)>(s: State<P>, now: int, content: seq<P>, other: seq<P>, bound: nat, limit: int)
    requires other != content && limit < STALENESS + bound
    requires s.timeline == [Stamp(now, content), Stamp(now, other)]
    requires |s.served| == 2 && s.served[1].text == Some(content) && s.served[1].at == now + STALENESS + bound
    ensures !AllWithin(s, limit)
  {
    var served := s.served[1];
    forall moment | served.at - limit <= moment <= served.at ensures !WasState(s.timeline, s.now, moment, content) {
      assert forall i: nat :: i < 2 && Lasts(s.timeline, s.now, i, moment) ==> i == 1;
    }
    assert !Within(s, served, limit);
  }

  // ---- a run that attains it ----

  lemma {:induction false} Then<P>(s: State<P>, events: seq<Event<P>>, e: Event<P>)
    requires IsRun(s, events) && Enabled(Execute(s, events), e)
    ensures IsRun(s, events + [e])
    ensures Execute(s, events + [e]) == Apply(Execute(s, events), e)
    decreases |events|
  {
    hide Enabled, Apply;
    if events == [] {
      assert events + [e] == [e] && [e][1..] == [];
    } else {
      Then(Apply(s, events[0]), events[1..], e);
      assert (events + [e])[1..] == events[1..] + [e];
    }
  }

  predicate Reaches<P(==)>(s: State<P>, events: seq<Event<P>>, t: State<P>) {
    IsRun(s, events) && Execute(s, events) == t
  }

  lemma Go<P>(init: State<P>, events: seq<Event<P>>, s: State<P>, e: Event<P>) returns (more: seq<Event<P>>, t: State<P>)
    requires Reaches(init, events, s) && Enabled(s, e)
    ensures Reaches(init, more, t) && t == Apply(s, e)
  {
    Then(init, events, e);
    more, t := events + [e], Apply(s, e);
  }

  /** Reader 0 is alone and takes snapMu; the aggregator accepts its request. */
  lemma Ask<P>(init: State<P>, events: seq<Event<P>>, s: State<P>) returns (more: seq<Event<P>>, t: State<P>)
    requires Reaches(init, events, s) && s.readers != [] && s.readers[0].pc.WantSnap? && s.snapMu.None? && s.agg.Select?
    ensures Reaches(init, more, t)
    ensures t == s.(readers := s.readers[0 := s.readers[0].(pc := Awaiting)], snapMu := Some(0), agg := Decide)
  {
    hide Reaches;
    more, t := Go(init, events, s, ReaderAct(0, LockSnap));
    more, t := Go(init, more, t, AggAct(Accept));
    assert t.readers == s.readers[0 := s.readers[0].(pc := Awaiting)];
  }

  /** The aggregator copies the parts from the i-th on. */
  lemma {:induction false} CopyRest<P>(init: State<P>, events: seq<Event<P>>, s: State<P>, i: nat) returns (more: seq<Event<P>>, t: State<P>)
    requires Reaches(init, events, s) && s.agg == Build(i) && i <= |s.content| == |s.snap.parts|
    requires s.snap.parts[..i] == s.content[..i]
    ensures Reaches(init, more, t)
    ensures t == s.(agg := Reply, moment := s.now,
                    snap := Snap(s.snap.version, s.content, s.now + SNAPSHOT_TTL, true, s.now))
    decreases |s.content| - i
  {
    hide Reaches;
    more, t := Go(init, events, s, AggAct(Copy));
    if i < |s.content| {
      assert t.snap.parts[..i + 1] == s.content[..i + 1];
      more, t := CopyRest(init, more, t, i + 1);
    } else {
      assert s.snap.parts == s.content;
    }
  }

  /** A scrape has made a first snapshot; then the content changes. */
  lemma SnapshotOutdated<P>(now: int, content: seq<P>, other: seq<P>, n: nat) returns (events: seq<Event<P>>, s: State<P>)
    requires n >= 1 && |other| == |content|
    ensures Reaches(Init(now, content, n), events, s)
    ensures s.now == now && s.content == other && s.timeline == [Stamp(now, content), Stamp(now, other)]
    ensures s.snap == Snap(1, content, now + SNAPSHOT_TTL, false, now)
    ensures s.agg.Select? && s.snapMu.None? && s.reportMu.None? && s.readers != [] && s.readers[0].pc.Out?
    ensures s.cache.version == 0 && s.cache.deadline == now && s.served == []
  {
    var init := Init(now, content, n);
    events, s := [], init;
    assert Reaches(init, events, s);
    hide Reaches;
    events, s := Go(init, events, s, ReaderAct(0, CallGetter));
    events, s := Ask(init, events, s);
    events, s := Go(init, events, s, AggAct(Look));
    events, s := CopyRest(init, events, s, 0);
    events, s := Go(init, events, s, AggAct(Answer));
    events, s := Go(init, events, s, ReaderAct(0, Callback));
    events, s := Go(init, events, s, AggAct(Change(other)));
  }

  /** Reader 0 asks for a report and finds the old text, if any, out of date. */
  lemma Refresh<P>(init: State<P>, events: seq<Event<P>>, s: State<P>) returns (more: seq<Event<P>>, t: State<P>)
    requires Reaches(init, events, s) && s.readers != [] && s.readers[0].pc.Out? && s.reportMu.None? && s.now >= s.cache.deadline
    ensures Reaches(init, more, t)
    ensures t == s.(readers := s.readers[0 := Reader(WantSnap, true)], reportMu := Some(0))
  {
    hide Reaches;
    more, t := Go(init, events, s, ReaderAct(0, CallReport));
    more, t := Go(init, more, t, ReaderAct(0, LockReport));
    more, t := Go(init, more, t, ReaderAct(0, CheckDeadline));
    assert t.readers == s.readers[0 := Reader(WantSnap, true)];
  }

  /** One tick before its deadline the snapshot is still good enough; after `bound` more the refresh ends. */
  lemma Refreshed<P>(now: int, content: seq<P>, other: seq<P>, n: nat, bound: nat) returns (events: seq<Event<P>>, s: State<P>)
    requires n >= 1 && |other| == |content|
    ensures Reaches(Init(now, content, n), events, s)
    ensures s.now == now + (SNAPSHOT_TTL - 1) + bound && s.timeline == [Stamp(now, content), Stamp(now, other)]
    ensures s.reportMu.None? && s.readers != [] && s.readers[0].pc.Out?
    ensures s.cache == Cache(Some(content), 1, s.now + REPORT_TTL, now, s.now - bound, s.now)
    ensures |s.served| == 1 && s.served[0].refresh == bound
  {
    var init := Init(now, content, n);
    hide Reaches, Init;
    events, s := SnapshotOutdated(now, content, other, n);
    events, s := Refresh(init, events, s);
    events, s := Ask(init, events, s);
    events, s := Go(init, events, s, Advance(SNAPSHOT_TTL - 1));
    events, s := Go(init, events, s, AggAct(Look));
    events, s := Go(init, events, s, AggAct(Answer));
    events, s := Go(init, events, s, ReaderAct(0, Callback));
    events, s := Go(init, events, s, Advance(bound));
    events, s := Go(init, events, s, ReaderAct(0, SetDeadline));
  }

  /** One tick before its deadline the text is served once more. */
  lemma StaleRun<P>(now: int, content: seq<P>, other: seq<P>, n: nat, bound: nat) returns (events: seq<Event<P>>, s: State<P>)
    requires n >= 1 && |other| == |content|
    ensures IsRun(Init(now, content, n), events) && Execute(Init(now, content, n), events) == s
    ensures s.timeline == [Stamp(now, content), Stamp(now, other)] && RefreshesTake(s, bound)
    ensures |s.served| == 2 && s.served[1] == Served(now + STALENESS + bound, Some(content), now, bound)
  {
    var init := Init(now, content, n);
    events, s := Refreshed(now, content, other, n, bound);
    assert Reaches(init, events, s);
    events, s := Reused(init, events, s);
  }

  lemma Reused<P>(init: State<P>, events: seq<Event<P>>, s: State<P>) returns (more: seq<Event<P>>, t: State<P>)
    requires Reaches(init, events, s) && s.readers != [] && s.readers[0].pc.Out? && s.reportMu.None?
    requires s.cache.deadline == s.now + REPORT_TTL
    ensures Reaches(init, more, t) && t.timeline == s.timeline
    ensures t.served == s.served +
      [Served(s.now + REPORT_TTL - 1, s.cache.text, s.cache.moment, s.cache.stamped - s.cache.decided)]
  {
    hide Reaches;
    more, t := Go(init, events, s, Advance(REPORT_TTL - 1));
    more, t := Go(init, more, t, ReaderAct(0, CallReport));
    more, t := Go(init, more, t, ReaderAct(0, LockReport));
    more, t := Go(init, more, t, ReaderAct(0, CheckDeadline));
  }
}
