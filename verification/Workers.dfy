/**
 The load generator's statistics: what a worker's loop records, and merging the workers' results.
 */
module Workers {
  import opened LogStats
  import opened Histograms
  import opened Word64
  import opened Sequences

  /** The latencies no histogram accepts, in order. */
  function Missed(trackable: int -> bool, latencies: seq<int>): seq<int> {
    if latencies == [] then []
    else
      var x := latencies[|latencies| - 1];
      Missed(trackable, latencies[..|latencies| - 1]) + (if trackable(x) then [] else [x])
  }

  lemma MissedAppend(trackable: int -> bool, latencies: seq<int>, x: int)
    ensures Missed(trackable, latencies + [x]) == Missed(trackable, latencies) + (if trackable(x) then [] else [x])
  {
    assert (latencies + [x])[..|latencies|] == latencies;
  }

  lemma {:induction false} MissedConcat(trackable: int -> bool, a: seq<int>, b: seq<int>)
    ensures Missed(trackable, a + b) == Missed(trackable, a) + Missed(trackable, b)
  {
    if b == [] {
      assert a + b == a;
    } else {
      var front, x := b[..|b| - 1], b[|b| - 1];
      MissedConcat(trackable, a, front);
      MissedAppend(trackable, a + front, x);
      MissedAppend(trackable, front, x);
      assert b == front + [x] && a + b == (a + front) + [x];
      hide Missed;
    }
  }

  /** The overflow estimate counts every latency no histogram accepts, as often as it was measured. */
  lemma {:induction false} MissedExactly(trackable: int -> bool, latencies: seq<int>, x: int)
    ensures multiset(Missed(trackable, latencies))[x] == if trackable(x) then 0 else multiset(latencies)[x]
  {
    if latencies != [] {
      var front, last := latencies[..|latencies| - 1], latencies[|latencies| - 1];
      MissedExactly(trackable, front, x);
      MissedAppend(trackable, front, last);
      assert latencies == front + [last];
      hide Missed;
      assert multiset(latencies)[x] == multiset(front)[x] + (if x == last then 1 else 0);
      var missed, part := Missed(trackable, front), if trackable(last) then [] else [last];
      assert multiset(missed + part)[x] == multiset(missed)[x] + multiset(part)[x];
    }
  }

  /** Every latency is in the histogram or in the overflow estimate, each as often as it was
      measured. */
  lemma {:induction false} KeptOrMissed(trackable: int -> bool, latencies: seq<int>)
    ensures Kept(trackable, latencies) + multiset(Missed(trackable, latencies)) == multiset(latencies)
    ensures |Kept(trackable, latencies)| + |Missed(trackable, latencies)| == |latencies|
  {
    if latencies != [] {
      var front, x := latencies[..|latencies| - 1], latencies[|latencies| - 1];
      KeptOrMissed(trackable, front);
      assert latencies == front + [x];
      KeptAppend(trackable, front, x);
      MissedAppend(trackable, front, x);
      hide Kept, Missed;
      if trackable(x) {
        assert Missed(trackable, front) + [] == Missed(trackable, front);
      }
    }
  }

  class HistOverflow {
    var count: int
    var sumLog2: int

    constructor ()
      ensures count == 0 && sumLog2 == 0
    {
      count, sumLog2 := 0, 0;
    }

    method Add(x: int)
      modifies this
      ensures count == old(count) + 1 && sumLog2 == old(sumLog2) + Log2(Unsigned(x))
    {
      count := count + 1;
      sumLog2 := sumLog2 + Log2(Unsigned(x));
    }
  }

  class Stat {
    const trackable: int -> bool
    const overflow: HistOverflow
    var ok: int
    var errors: int
    var hist: multiset<int>

    // The latencies of the successful requests, and how many requests failed.
    ghost var latencies: seq<int>
    ghost var failures: nat

    /** The figures are those of the history. */
    ghost predicate Valid()
      reads this, overflow
    {
      && ok == |latencies| && errors == failures
      && hist == Kept(trackable, latencies)
      && overflow.count == Summary(Missed(trackable, latencies)).count
      && overflow.sumLog2 == Summary(Missed(trackable, latencies)).sumLog2
    }

    constructor (trackable: int -> bool)
      ensures Valid() && latencies == [] && failures == 0 && fresh(overflow) && this.trackable == trackable
    {
      this.trackable := trackable;
      overflow := new HistOverflow();
      ok, errors, hist := 0, 0, multiset{};
      latencies, failures := [], 0;
    }

    lemma AllCounted()
      requires Valid()
      ensures ok == |latencies| && errors == failures && |hist| + overflow.count == ok
    {
      KeptOrMissed(trackable, latencies);
      SummaryCounts(Missed(trackable, latencies));
    }

    /** The outcome of one request, as Worker.Run accounts for it. */
    method Record(failed: bool, latency: int)
      requires Valid()
      modifies this, overflow
      ensures Valid()
      ensures latencies == if failed then old(latencies) else old(latencies) + [latency]
      ensures failures == if failed then old(failures) + 1 else old(failures)
    {
      hide Kept, Missed, Summary;
      if failed {
        errors := errors + 1;
        failures := failures + 1;
      } else {
        MissedAppend(trackable, latencies, latency);
        KeptAppend(trackable, latencies, latency);
        SummaryAppend(Missed(trackable, latencies), latency);
        ok := ok + 1;
        if trackable(latency) {
          assert Missed(trackable, latencies) + [] == Missed(trackable, latencies);
          hist := hist + multiset{latency};
        } else {
          overflow.Add(latency);
        }
        latencies := latencies + [latency];
      }
    }

    /** Merge; nil changes nothing. The result is as if one worker had made all the requests. */
    method Merge(other: Stat?)
      requires Valid()
      requires other != null ==> other.Valid() && other.trackable == trackable
      modifies this, overflow
      ensures other == null ==>
        Valid() && latencies == old(latencies) && failures == old(failures) && ok == old(ok) && errors == old(errors)
      ensures other != null ==>
        && Valid()
        && latencies == old(latencies) + old(other.latencies)
        && failures == old(failures) + old(other.failures)
        && ok == old(ok) + old(other.ok) && errors == old(errors) + old(other.errors)
    {
      hide Kept, Missed, Summary;
      if other != null {
        MissedConcat(trackable, latencies, other.latencies);
        KeptConcat(trackable, latencies, other.latencies);
        SummaryConcat(Missed(trackable, latencies), Missed(trackable, other.latencies));
        ok := ok + other.ok;
        errors := errors + other.errors;
        hist := hist + other.hist;
        overflow.count := overflow.count + other.overflow.count;
        overflow.sumLog2 := overflow.sumLog2 + other.overflow.sumLog2;
        latencies, failures := latencies + other.latencies, failures + other.failures;
      }
    }
  }

  /** What one latency less makes of the figures. */
  lemma WithoutOne(trackable: int -> bool, s: seq<int>, i: nat)
    requires i < |s|
    ensures var rest, miss := s[..i] + s[i + 1..], !trackable(s[i]);
      && Kept(trackable, s) == Kept(trackable, rest) + (if miss then multiset{} else multiset{s[i]})
      && Overflows(trackable, s).count == Overflows(trackable, rest).count + (if miss then 1 else 0)
      && Overflows(trackable, s).sumLog2 ==
         Overflows(trackable, rest).sumLog2 + (if miss then Log2(Unsigned(s[i])) else 0)
  {
    var left, right, x := s[..i], s[i + 1..], s[i];
    assert s == (left + [x]) + right;
    KeptConcat(trackable, left + [x], right);
    KeptConcat(trackable, left, right);
    KeptAppend(trackable, left, x);
    MissedConcat(trackable, left + [x], right);
    MissedConcat(trackable, left, right);
    MissedAppend(trackable, left, x);
    hide Kept, Missed;
    SummaryConcat(Missed(trackable, left + [x]), Missed(trackable, right));
    SummaryConcat(Missed(trackable, left), Missed(trackable, right));
    if trackable(x) {
      assert Missed(trackable, left) + [] == Missed(trackable, left);
    } else {
      SummaryAppend(Missed(trackable, left), x);
    }
    hide Summary;
  }

  /** The estimate that belongs to a list of latencies. */
  function Overflows(trackable: int -> bool, latencies: seq<int>): Overflow {
    Summary(Missed(trackable, latencies))
  }

  /** The figures depend only on which latencies there were. */
  lemma {:induction false} FiguresOfPermutation(trackable: int -> bool, a: seq<int>, b: seq<int>)
    requires multiset(a) == multiset(b)
    ensures Kept(trackable, a) == Kept(trackable, b)
    ensures Overflows(trackable, a).count == Overflows(trackable, b).count
    ensures Overflows(trackable, a).sumLog2 == Overflows(trackable, b).sumLog2
  {
    if a == [] {
      assert |multiset(b)| == 0;
    } else {
      hide Kept, Overflows;
      var last := |a| - 1;
      assert a[last] in multiset(b);
      var i :| 0 <= i < |b| && b[i] == a[last];
      var restA, restB := a[..last] + a[last + 1..], b[..i] + b[i + 1..];
      assert multiset(restA) == multiset(restB) by {
        SplitAt(a, last);
        SplitAt(b, i);
      }
      FiguresOfPermutation(trackable, restA, restB);
      WithoutOne(trackable, a, last);
      WithoutOne(trackable, b, i);
    }
  }

  lemma {:induction false} FlattenOfPermutation(a: seq<seq<int>>, b: seq<seq<int>>)
    requires multiset(a) == multiset(b)
    ensures multiset(Flatten(a)) == multiset(Flatten(b))
  {
    if a == [] {
      assert |multiset(b)| == 0;
    } else {
      hide Flatten;
      var last := |a| - 1;
      assert a[last] in multiset(b);
      var i :| 0 <= i < |b| && b[i] == a[last];
      var restA, restB := a[..last] + a[last + 1..], b[..i] + b[i + 1..];
      assert multiset(restA) == multiset(restB) by {
        SplitAt(a, last);
        SplitAt(b, i);
      }
      FlattenOfPermutation(restA, restB);
      FlattenWithout(a, last);
      FlattenWithout(b, i);
    }
  }

  lemma FlattenWithout(s: seq<seq<int>>, i: nat)
    requires i < |s|
    ensures multiset(Flatten(s)) == multiset(Flatten(s[..i] + s[i + 1..])) + multiset(s[i])
  {
    hide Flatten;
    var left, right := s[..i], s[i + 1..];
    assert s == (left + [s[i]]) + right;
    FlattenConcat(left + [s[i]], right);
    FlattenAppend(left, s[i]);
    FlattenConcat(left, right);
    var l, r := Flatten(left), Flatten(right);
    assert Flatten(s) == (l + s[i]) + r;
    assert multiset((l + s[i]) + r) == multiset(l + r) + multiset(s[i]);
  }

  /** Any number of workers, merged in any order, give the same figures. */
  lemma MergeOrderIsFree(trackable: int -> bool, parts: seq<seq<int>>, others: seq<seq<int>>)
    requires multiset(parts) == multiset(others)
    ensures |Flatten(parts)| == |Flatten(others)|
    ensures Kept(trackable, Flatten(parts)) == Kept(trackable, Flatten(others))
    ensures Overflows(trackable, Flatten(parts)).count == Overflows(trackable, Flatten(others)).count
    ensures Overflows(trackable, Flatten(parts)).sumLog2 == Overflows(trackable, Flatten(others)).sumLog2
  {
    FlattenOfPermutation(parts, others);
    hide Flatten;
    assert |Flatten(parts)| == |multiset(Flatten(parts))|;
    FiguresOfPermutation(trackable, Flatten(parts), Flatten(others));
  }

  /** The latencies behind each result; nil is that of a worker that never started. */
  ghost function Parts(stats: seq<Stat?>): seq<seq<int>>
    reads stats
  {
    if stats == [] then []
    else
      var last := stats[|stats| - 1];
      Parts(stats[..|stats| - 1]) + [if last == null then [] else last.latencies]
  }

  /** The successes and the errors of all results, added up. */
  ghost function Oks(stats: seq<Stat?>): int
    reads stats
  {
    if stats == [] then 0
    else Oks(stats[..|stats| - 1]) + (if stats[|stats| - 1] == null then 0 else stats[|stats| - 1].ok)
  }

  ghost function Errors(stats: seq<Stat?>): int
    reads stats
  {
    if stats == [] then 0
    else Errors(stats[..|stats| - 1]) + (if stats[|stats| - 1] == null then 0 else stats[|stats| - 1].errors)
  }

  /** waitWorkers: merges the results that come in before the timeout, one for each worker at most. No
      success and no error of theirs is lost or counted twice. */
  method WaitWorkers(trackable: int -> bool, arrived: seq<Stat?>, count: nat) returns (merged: Stat, n: nat)
    requires forall i :: 0 <= i < |arrived| && arrived[i] != null ==> arrived[i].Valid() && arrived[i].trackable == trackable
    ensures n == if |arrived| < count then |arrived| else count
    ensures merged.Valid() && merged.trackable == trackable && merged.latencies == Flatten(Parts(arrived[..n]))
    ensures merged.ok == Oks(arrived[..n]) && merged.errors == Errors(arrived[..n])
  {
    merged := new Stat(trackable);
    n := 0;
    NothingFlattened();
    assert IsMerged(merged, arrived[..0]);
    hide IsMerged, Stat.Valid;
    while n < count && n < |arrived|
      invariant n <= count && n <= |arrived|
      invariant fresh(merged) && fresh(merged.overflow) && merged.trackable == trackable
      invariant IsMerged(merged, arrived[..n])
    {
      assert arrived[..n + 1] == arrived[..n] + [arrived[n]];
      MergeNext(merged, arrived[..n], arrived[n]);
      n := n + 1;
    }
    IsMergedHas(merged, arrived[..n]);
  }

  ghost predicate IsMerged(merged: Stat, stats: seq<Stat?>)
    reads merged, merged.overflow, stats
  {
    && merged.Valid() && merged.latencies == Flatten(Parts(stats))
    && merged.ok == Oks(stats) && merged.errors == Errors(stats)
  }

  lemma IsMergedHas(merged: Stat, stats: seq<Stat?>)
    requires IsMerged(merged, stats)
    ensures merged.Valid() && merged.latencies == Flatten(Parts(stats))
    ensures merged.ok == Oks(stats) && merged.errors == Errors(stats)
  {
  }

  /** One turn of the loop in waitWorkers. */
  method MergeNext(merged: Stat, before: seq<Stat?>, next: Stat?)
    requires IsMerged(merged, before) && merged !in before && merged != next
    requires next != null ==> next.Valid() && next.trackable == merged.trackable
    modifies merged, merged.overflow
    ensures IsMerged(merged, before + [next])
  {
    hide Stat.Valid, Flatten;
    assert (before + [next])[..|before|] == before;
    ghost var part := if next == null then [] else next.latencies;
    FlattenAppend(Parts(before), part);
    assert Parts(before + [next]) == Parts(before) + [part];
    assert merged.latencies + [] == merged.latencies;
    merged.Merge(next);
  }

  lemma NothingFlattened()
    ensures Flatten<int>([]) == []
  {
  }

  /** The estimate after any recording and merging: 2^sumLog2 and the product of the latencies
      that overflowed differ by less than a factor of two for each. */
  lemma EstimateHolds(stat: Stat)
    requires stat.Valid() && stat.overflow.count > 0
    requires forall i :: 0 <= i < |Missed(stat.trackable, stat.latencies)| ==>
      1 <= Missed(stat.trackable, stat.latencies)[i] < TWO_63
    ensures stat.overflow.sumLog2 >= 0
    ensures var overflowed := Product(Missed(stat.trackable, stat.latencies));
      Pow2(stat.overflow.sumLog2) <= overflowed < Pow2(stat.overflow.sumLog2 + stat.overflow.count)
  {
    var missed := Missed(stat.trackable, stat.latencies);
    SummaryCounts(missed);
    assert missed != [];
    hide Kept, Summary;
    assert forall i :: 0 <= i < |missed| ==> 1 <= missed[i] < TWO_63;
    EstimateBrackets(missed);
  }

  /** One turn of a worker: the outcome of the request, and whether the context is cancelled
      during the pause after it. */
  datatype Turn = Turn(failed: bool, latency: int, cancelled: bool)

  /** The requests a worker completes from the i-th on: up to the one in whose pause it is cancelled.
      Without an interval there is no pause. */
  function Completed(turns: seq<Turn>, i: nat, paced: bool): (n: nat)
    requires i <= |turns|
    ensures i + n <= |turns|
    decreases |turns| - i
  {
    if i == |turns| then 0 else if paced && turns[i].cancelled then 1 else 1 + Completed(turns, i + 1, paced)
  }

  /** A worker without an interval completes everything; one with an interval is ended by the first
      turn in whose pause it is cancelled, that one included, and by nothing else. */
  lemma {:induction false} CompletedIsExact(turns: seq<Turn>, i: nat, paced: bool)
    requires i <= |turns|
    ensures var end := i + Completed(turns, i, paced);
      && i <= end <= |turns|
      && (!paced ==> end == |turns|)
      && (forall k :: i <= k < end - 1 ==> !(paced && turns[k].cancelled))
      && (end < |turns| ==> i < end && turns[end - 1].cancelled)
    decreases |turns| - i
  {
    if i < |turns| && !(paced && turns[i].cancelled) {
      CompletedIsExact(turns, i + 1, paced);
    }
  }

  function Failed(turns: seq<Turn>): nat {
    if turns == [] then 0 else Failed(turns[..|turns| - 1]) + (if turns[|turns| - 1].failed then 1 else 0)
  }

  /** Every turn is a success, with its latency, or a failure. */
  lemma {:induction false} SuccessesAndFailures(turns: seq<Turn>)
    ensures |Successes(turns)| + Failed(turns) == |turns|
    ensures forall i :: 0 <= i < |turns| && !turns[i].failed ==> turns[i].latency in Successes(turns)
  {
    if turns != [] {
      var front := turns[..|turns| - 1];
      SuccessesAndFailures(front);
      assert forall i :: 0 <= i < |front| ==> front[i] == turns[i];
    }
  }

  function Successes(turns: seq<Turn>): seq<int> {
    if turns == [] then []
    else Successes(turns[..|turns| - 1]) + (if turns[|turns| - 1].failed then [] else [turns[|turns| - 1].latency])
  }

  lemma SuccessesAppend(turns: seq<Turn>, turn: Turn)
    ensures Successes(turns + [turn]) == Successes(turns) + (if turn.failed then [] else [turn.latency])
    ensures |Successes(turns)| <= |turns|
  {
    assert (turns + [turn])[..|turns|] == turns;
    SuccessesFewer(turns);
  }

  lemma {:induction false} SuccessesFewer(turns: seq<Turn>)
    ensures |Successes(turns)| <= |turns|
  {
    if turns != [] {
      SuccessesFewer(turns[..|turns| - 1]);
    }
  }

  lemma NextTurn(turns: seq<Turn>, i: nat)
    requires i < |turns|
    ensures Successes(turns[..i + 1]) == Successes(turns[..i]) + (if turns[i].failed then [] else [turns[i].latency])
    ensures |Successes(turns[..i])| <= i
  {
    assert turns[..i + 1] == turns[..i] + [turns[i]];
    SuccessesAppend(turns[..i], turns[i]);
  }

  /** The first n turns, and nothing else, are accounted for. */
  ghost predicate AccountsFor(stat: Stat, turns: seq<Turn>, n: nat)
    requires n <= |turns|
    reads stat, stat.overflow
  {
    stat.Valid() && stat.latencies == Successes(turns[..n]) && stat.failures == n - |Successes(turns[..n])|
  }

  lemma AccountIsExact(stat: Stat, turns: seq<Turn>, n: nat)
    requires n <= |turns| && AccountsFor(stat, turns, n)
    ensures stat.Valid() && stat.latencies == Successes(turns[..n])
    ensures stat.ok + stat.errors == n && |stat.hist| + stat.overflow.count == stat.ok
    ensures stat.errors == Failed(turns[..n])
  {
    stat.AllCounted();
    SuccessesAndFailures(turns[..n]);
  }

  /** One turn of the loop in Worker.Run, up to the pause. */
  method TakeTurn(stat: Stat, turns: seq<Turn>, i: nat)
    requires i < |turns| && AccountsFor(stat, turns, i)
    modifies stat, stat.overflow
    ensures AccountsFor(stat, turns, i + 1)
  {
    hide Stat.Valid, Successes;
    NextTurn(turns, i);
    stat.Record(turns[i].failed, turns[i].latency);
  }

  /** Worker.Run: the turns end when the numbers are used up or the context is cancelled. Every
      completed request is counted as ok or as an error; every ok one is in histogram or overflow. */
  method Run(trackable: int -> bool, turns: seq<Turn>, paced: bool) returns (stat: Stat)
    ensures stat.Valid() && fresh(stat) && fresh(stat.overflow)
    ensures stat.latencies == Successes(turns[..Completed(turns, 0, paced)])
    ensures stat.ok + stat.errors == Completed(turns, 0, paced)
    ensures |stat.hist| + stat.overflow.count == stat.ok
    ensures stat.errors == Failed(turns[..Completed(turns, 0, paced)])
  {
    stat := new Stat(trackable);
    var i := 0;
    assert AccountsFor(stat, turns, 0);
    hide AccountsFor, Stat.Valid, Successes;
    while i < |turns|
      invariant i <= |turns| && Completed(turns, 0, paced) == i + Completed(turns, i, paced)
      invariant fresh(stat) && fresh(stat.overflow) && AccountsFor(stat, turns, i)
    {
      TakeTurn(stat, turns, i);
      i := i + 1;
      if paced && turns[i - 1].cancelled {
        break;
      }
    }
    AccountIsExact(stat, turns, i);
  }
}
