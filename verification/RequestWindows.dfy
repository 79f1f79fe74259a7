/**
 One kind of request: the atomic counter and the 60-slot window it is rotated into. Every counted
 request ends up in exactly one bucket, and the window always shows the last 60 completed
 intervals.
 */
module RequestWindows {
  import opened Sequences
  import opened Word64
  import opened Slices
  import opened Deques

  /** histBuckets */
  const BUCKETS: nat := 60

  /** What a counter shows after the given additions since it was zero. */
  function Shown(additions: seq<nat>): nat {
    Sum(additions) % TWO_64
  }

  function ShownAll(intervals: seq<seq<nat>>): (counts: seq<nat>)
    ensures |counts| == |intervals|
    ensures forall i :: 0 <= i < |intervals| ==> counts[i] == Shown(intervals[i])
  {
    if intervals == [] then []
    else ShownAll(intervals[..|intervals| - 1]) + [Shown(intervals[|intervals| - 1])]
  }

  function Zeros(n: nat): (zs: seq<nat>)
    ensures |zs| == n && forall i :: 0 <= i < n ==> zs[i] == 0
  {
    seq(n, _ => 0)
  }

  /** The last 60 of 60 zeros followed by the counts of all completed intervals. */
  function Window(intervals: seq<seq<nat>>): (w: seq<nat>)
    ensures |w| == BUCKETS
  {
    (Zeros(BUCKETS) + ShownAll(intervals))[|intervals|..]
  }

  /** Slot i from the end is the i-th most recent interval, zero before the start. */
  function Recent(intervals: seq<seq<nat>>, i: nat): nat
    requires i >= 1
  {
    if i <= |intervals| then Shown(intervals[|intervals| - i]) else 0
  }

  lemma WindowShowsRecent(intervals: seq<seq<nat>>, i: nat)
    requires 1 <= i <= BUCKETS
    ensures Window(intervals)[BUCKETS - i] == Recent(intervals, i)
  {
  }

  /** Dropping the oldest slot and adding the new count is the window of one more interval. */
  lemma WindowAdvances(intervals: seq<seq<nat>>, next: seq<nat>)
    ensures Window(intervals + [next]) == Window(intervals)[1..] + [Shown(next)]
  {
    var later := intervals + [next];
    assert later[..|intervals|] == intervals;
    assert ShownAll(later) == ShownAll(intervals) + [Shown(next)];
    assert Zeros(BUCKETS) + ShownAll(later) == Zeros(BUCKETS) + ShownAll(intervals) + [Shown(next)];
  }

  /** Wrapping one summand early makes no difference. */
  lemma WrapSummand(a: int, b: int, c: int)
    requires a % TWO_64 == b % TWO_64
    ensures (a + c % TWO_64) % TWO_64 == (b + c) % TWO_64
  {
  }

  lemma {:induction false} ShownIsTotal(intervals: seq<seq<nat>>)
    ensures Sum(ShownAll(intervals)) % TWO_64 == Sum(Flatten(intervals)) % TWO_64
  {
    if intervals != [] {
      var front, last := intervals[..|intervals| - 1], intervals[|intervals| - 1];
      assert ShownAll(intervals) == ShownAll(front) + [Shown(last)];
      assert Flatten(intervals) == Flatten(front) + last;
      hide Sum, ShownAll, Flatten;
      ShownIsTotal(front);
      SumAppend(ShownAll(front), Shown(last));
      SumConcat(Flatten(front), last);
      WrapSummand(Sum(ShownAll(front)), Sum(Flatten(front)), Sum(last));
    }
  }

  function Evicted(intervals: seq<seq<nat>>): (n: nat)
    ensures n <= |intervals|
  {
    if |intervals| > BUCKETS then |intervals| - BUCKETS else 0
  }

  /** Conservation: evicted buckets, window and live counter together account for every addition,
      modulo 2^64. */
  lemma NothingUncounted(intervals: seq<seq<nat>>, pending: seq<nat>)
    ensures (Sum(ShownAll(intervals[..Evicted(intervals)])) + Sum(Window(intervals)) + Shown(pending)) % TWO_64
            == Sum(Flatten(intervals) + pending) % TWO_64
  {
    hide Sum, Window, ShownAll, Flatten;
    EvictedAndWindow(intervals);
    ShownIsTotal(intervals);
    SumConcat(Flatten(intervals), pending);
    WrapSummand(Sum(ShownAll(intervals)), Sum(Flatten(intervals)), Sum(pending));
  }

  lemma TailOfPadded(all: seq<nat>, n: nat, evicted: nat)
    requires evicted == if |all| > n then |all| - n else 0
    ensures (Zeros(n) + all)[|all|..] == Zeros(n - (|all| - evicted)) + all[evicted..]
  {
    if |all| > n {
      assert (Zeros(n) + all)[|all|..] == all[evicted..];
    } else {
      assert all[0..] == all;
      assert Zeros(n) + all == Zeros(|all|) + (Zeros(n - |all|) + all);
    }
  }

  lemma EvictedAndWindow(intervals: seq<seq<nat>>)
    ensures Sum(ShownAll(intervals[..Evicted(intervals)])) + Sum(Window(intervals)) == Sum(ShownAll(intervals))
  {
    hide Zeros, Sum;
    var all, evicted := ShownAll(intervals), Evicted(intervals);
    var blank := Zeros(BUCKETS - (|intervals| - evicted));
    assert ShownAll(intervals[..evicted]) == all[..evicted];
    TailOfPadded(all, BUCKETS, evicted);
    assert Window(intervals) == blank + all[evicted..];
    hide Window, ShownAll, Evicted;
    SumConcat(blank, all[evicted..]);
    SumZeros(|blank|);
    SumConcat(all[..evicted], all[evicted..]);
    assert all == all[..evicted] + all[evicted..];
  }

  lemma {:induction false} SumZeros(n: nat)
    ensures Sum(Zeros(n)) == 0
  {
    if n > 0 {
      SumZeros(n - 1);
      assert Zeros(n)[..n - 1] == Zeros(n - 1);
    }
  }

  /** What the aggregator keeps for one kind of request: cnts[kind], reqs[kind] with its backing
      array, and the array of snap.Requests[kind]. */
  class RequestWindow {
    const q: Deque<nat>
    const ring: array<nat>
    const shot: array<nat>
    var cnt: nat

    // The additions of every completed interval, and of the running one.
    ghost var intervals: seq<seq<nat>>
    ghost var pending: seq<nat>

    ghost function Repr(): set<object> {
      {this, q, ring, shot}
    }

    /** The ring is full and never grows; the window and the counter show the history. */
    ghost predicate Valid()
      reads this, q, ring
    {
      && q.buf == ring && ring != shot && ring.Length == shot.Length == BUCKETS
      && q.Valid()
      && q.Contents() == Window(intervals)
      && cnt == Shown(pending)
    }

    constructor ()
      ensures Valid() && fresh(Repr())
      ensures intervals == [] && pending == []
    {
      var buckets := new nat[BUCKETS](_ => 0);
      var deque := new Deque.From(0, buckets);
      var snapshot := new nat[BUCKETS](_ => 0);
      q, ring, shot := deque, buckets, snapshot;
      cnt := 0;
      intervals, pending := [], [];
      new;
      assert q.Contents() == Window([]);
    }

    /** CountRequests: an atomic add. */
    method Count(n: nat)
      requires Valid()
      modifies this
      ensures Valid()
      ensures intervals == old(intervals) && pending == old(pending) + [n]
    {
      SumAppend(pending, n);
      WrapSummand(n, n, Sum(pending));
      cnt := (cnt + n) % TWO_64;
      pending := pending + [n];
    }

    /** One kind's share of rotate: pop, then push the swapped-out counter. */
    method Rotate()
      requires Valid()
      modifies this, q, ring
      ensures Valid()
      ensures intervals == old(intervals) + [old(pending)] && pending == []
    {
      WindowAdvances(intervals, pending);
      var _ := q.PopFront();
      var swapped := cnt;
      cnt := 0;
      intervals, pending := intervals + [pending], [];
      q.PushBack(swapped);
    }

    /** One kind's share of makeSnapshot: the window is copied into the same array again. */
    method Shoot() returns (out: Slice<nat>)
      requires Valid()
      modifies shot
      ensures Valid()
      ensures out == Slice(shot, BUCKETS) && shot[..] == Window(intervals)
    {
      out := q.ToSlice(Slice(shot, BUCKETS));
      assert shot[..] == shot[..BUCKETS];
    }
  }
}
