/**
 Whoever has called for a report or a snapshot gets out again, before Stop and after: every step
 that serves those inside decreases a measure, and while anybody is inside there is such a step.
 */
module SnapshotProgress {
  import opened Options
  import opened SnapshotCache

  /** Parts that a snapshot copies. */
  function Parts<P>(s: State<P>): nat {
    if |s.snap.parts| <= |s.content| then |s.snap.parts| else |s.content|
  }

  function Remaining(n: nat, i: nat): nat {
    if i <= n then n - i else 0
  }

  function AggWork(agg: AggPc, n: nat): nat {
    match agg
    case Decide => n + 3
    case Build(i) => Remaining(n, i) + 2
    case Reply => 1
    case _ => 0
  }

  function ReaderWork(reader: Reader, n: nat): nat {
    match reader.pc
    case Out => 0
    case WantReport => n + 11
    case HaveReport => n + 10
    case WantSnap => n + 9
    case Asking => n + 8
    case Awaiting => 3
    case Building(i) => Remaining(n, i) + 3
    case InCallback => 2
    case Stamping => 1
  }

  function ReadersWork(readers: seq<Reader>, n: nat): nat {
    if readers == [] then 0
    else ReadersWork(readers[..|readers| - 1], n) + ReaderWork(readers[|readers| - 1], n)
  }

  /** Steps left until everybody is out. */
  function Work<P>(s: State<P>): nat {
    ReadersWork(s.readers, Parts(s)) + AggWork(s.agg, Parts(s))
  }

  lemma {:induction false} ReadersWorkUpdate(readers: seq<Reader>, r: nat, reader: Reader, n: nat)
    requires r < |readers|
    ensures ReadersWork(readers[r := reader], n) + ReaderWork(readers[r], n) ==
            ReadersWork(readers, n) + ReaderWork(reader, n)
  {
    var last := |readers| - 1;
    if r < last {
      ReadersWorkUpdate(readers[..last], r, reader, n);
      assert readers[r := reader][..last] == readers[..last][r := reader];
    } else {
      assert readers[r := reader][..last] == readers[..last];
    }
  }

  lemma CopyKeepsParts<P>(s: State<P>, i: nat)
    ensures Parts(CopyPart(s, i)) == Parts(s)
  {
  }

  lemma AggDecreases<P>(s: State<P>, ae: AggEvent<P>)
    requires AggCan(s, ae) && Serving(AggAct(ae))
    ensures Work(AggStep(s, ae)) < Work(s)
  {
    match ae
    case Accept => ReadersWorkUpdate(s.readers, s.snapMu.value, s.readers[s.snapMu.value].(pc := Awaiting), Parts(s));
    case Answer => ReadersWorkUpdate(s.readers, s.snapMu.value, s.readers[s.snapMu.value].(pc := InCallback), Parts(s));
    case Copy => CopyKeepsParts(s, s.agg.i);
    case Look =>
  }

  /** What a step of reader r does to the rest of the measure: nothing. */
  lemma ReaderAlone<P>(s: State<P>, r: nat, re: ReaderEvent)
    requires ReaderCan(s, r, re)
    ensures var t := ReaderStep(s, r, re);
      && |t.readers| == |s.readers| && t.readers == s.readers[r := t.readers[r]]
      && t.agg == s.agg && Parts(t) == Parts(s)
  {
    if re.CopyOwn? {
      CopyKeepsParts(s, s.readers[r].pc.i);
    }
  }

  lemma ReaderDecreases<P>(s: State<P>, r: nat, re: ReaderEvent)
    requires ReaderCan(s, r, re) && Serving<P>(ReaderAct(r, re))
    ensures Work(ReaderStep(s, r, re)) < Work(s)
  {
    var t := ReaderStep(s, r, re);
    ReaderAlone(s, r, re);
    ReadersWorkUpdate(s.readers, r, t.readers[r], Parts(s));
    assert ReaderWork(t.readers[r], Parts(s)) < ReaderWork(s.readers[r], Parts(s)) by {
      hide ReadersWork, AggWork;
    }
    hide ReaderStep, ReaderCan, ReaderWork, Serving;
  }

  lemma ServingDecreases<P>(s: State<P>, e: Event<P>)
    requires Enabled(s, e) && Serving(e)
    ensures Work(Apply(s, e)) < Work(s)
  {
    hide Work, AggStep, ReaderStep, AggCan, ReaderCan;
    match e
    case AggAct(ae) => AggDecreases(s, ae);
    case ReaderAct(r, re) => ReaderDecreases(s, r, re);
    case _ =>
  }

  predicate IsCall<P>(e: Event<P>) {
    e.ReaderAct? && (e.re.CallReport? || e.re.CallGetter?)
  }

  /** What a new caller will need at most. */
  function CallWork(n: nat): nat {
    n + 11
  }

  /** New data, a stop or the passing of time cost those inside nothing; a new caller does. */
  lemma OtherAdds<P>(s: State<P>, e: Event<P>)
    requires Enabled(s, e) && !Serving(e)
    ensures Work(Apply(s, e)) <= Work(s) + (if IsCall(e) then CallWork(Parts(s)) else 0)
  {
    match e
    case ReaderAct(r, re) => ReadersWorkUpdate(s.readers, r, Apply(s, e).readers[r], Parts(s));
    case AggAct(ae) => hide ReadersWork;
    case _ => hide ReadersWork;
  }

  lemma PartsKept<P>(s: State<P>, e: Event<P>)
    requires Enabled(s, e)
    ensures Parts(Apply(s, e)) == Parts(s)
  {
    match e
    case ReaderAct(r, re) => ReaderAlone(s, r, re);
    case AggAct(ae) =>
    case _ =>
  }

  function Servings<P>(events: seq<Event<P>>): (n: nat)
    ensures n <= |events|
    decreases |events|
  {
    if events == [] then 0 else (if Serving(events[0]) then 1 else 0) + Servings(events[1..])
  }

  function Calls<P>(events: seq<Event<P>>): (n: nat)
    decreases |events|
  {
    if events == [] then 0 else (if IsCall(events[0]) then 1 else 0) + Calls(events[1..])
  }

  /** In every run, whatever else happens in between, serving takes at most Work(s) steps and a
      constant number for each new caller. */
  lemma {:induction false} WorkBoundsServing<P>(s: State<P>, events: seq<Event<P>>)
    requires IsRun(s, events)
    ensures Parts(Execute(s, events)) == Parts(s)
    ensures Servings(events) + Work(Execute(s, events)) <= Work(s) + CallWork(Parts(s)) * Calls(events)
    decreases |events|
  {
    hide Work, Apply, Enabled, Serving, IsCall, CallWork, Parts;
    if events != [] {
      var e, rest, k := events[0], events[1..], CallWork(Parts(s));
      PartsKept(s, e);
      if Serving(e) {
        ServingDecreases(s, e);
      } else {
        OtherAdds(s, e);
      }
      WorkBoundsServing(Apply(s, e), rest);
      assert k * (1 + Calls(rest)) == k + k * Calls(rest);
      assert Serving(e) ==> !IsCall(e) by { ServingIsNoCall(e); }
    }
  }

  lemma ServingIsNoCall<P>(e: Event<P>)
    ensures Serving(e) ==> !IsCall(e)
  {
  }

  predicate AllOut<P>(s: State<P>) {
    forall r :: 0 <= r < |s.readers| ==> s.readers[r].pc.Out?
  }

  /** No deadlock and no endless wait: in every run the steps that serve those inside are bounded by
      the work there is and the number of new callers, and when none is possible any more everybody
      is out. */
  lemma ServingEndsWithAllOut<P>(s: State<P>, events: seq<Event<P>>)
    requires Inv(s) && IsRun(s, events)
    ensures Servings(events) <= Work(s) + CallWork(Parts(s)) * Calls(events)
    ensures (forall e :: Serving(e) ==> !Enabled(Execute(s, events), e)) ==> AllOut(Execute(s, events))
  {
    hide Inv, Work, Enabled, Apply;
    WorkBoundsServing(s, events);
    RunKeepsInv(s, events);
    var t := Execute(s, events);
    if r: nat :| r < |t.readers| && !t.readers[r].pc.Out? {
      var e := NobodyIsStuck(t, r);
      assert Serving(e) && Enabled(t, e);
    }
  }
}
