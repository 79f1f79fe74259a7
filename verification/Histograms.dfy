/**
 The windowed histogram of the HdrHistogram library, as far as the aggregator relies on it: a ring
 of 60 histograms, each the multiset of the durations it accepted.
 */
module Histograms {
  import opened Sequences
  import opened RequestWindows

  /** The durations a histogram accepts of a list. */
  function Kept(trackable: int -> bool, durations: seq<int>): multiset<int> {
    if durations == [] then multiset{}
    else
      var d := durations[|durations| - 1];
      Kept(trackable, durations[..|durations| - 1]) + (if trackable(d) then multiset{d} else multiset{})
  }

  lemma KeptAppend(trackable: int -> bool, durations: seq<int>, d: int)
    ensures Kept(trackable, durations + [d]) ==
            Kept(trackable, durations) + (if trackable(d) then multiset{d} else multiset{})
    ensures |Kept(trackable, durations + [d])| == |Kept(trackable, durations)| + (if trackable(d) then 1 else 0)
  {
    assert (durations + [d])[..|durations|] == durations;
  }

  /** A histogram holds a duration as often as it was recorded, or not at all. */
  lemma {:induction false} KeptExactly(trackable: int -> bool, durations: seq<int>, x: int)
    ensures Kept(trackable, durations)[x] == if trackable(x) then multiset(durations)[x] else 0
  {
    if durations != [] {
      var front, d := durations[..|durations| - 1], durations[|durations| - 1];
      KeptExactly(trackable, front, x);
      assert durations == front + [d];
    }
  }

  /** The i-th most recent histogram, after the given rotation spans of durations. */
  function Slot(trackable: int -> bool, spans: seq<seq<int>>, i: nat): multiset<int> {
    if 1 <= i <= |spans| then Kept(trackable, spans[|spans| - i]) else multiset{}
  }

  lemma {:induction false} KeptConcat(trackable: int -> bool, a: seq<int>, b: seq<int>)
    ensures Kept(trackable, a + b) == Kept(trackable, a) + Kept(trackable, b)
  {
    if b == [] {
      assert a + b == a;
    } else {
      var front, x := b[..|b| - 1], b[|b| - 1];
      KeptConcat(trackable, a, front);
      KeptAppend(trackable, a + front, x);
      KeptAppend(trackable, front, x);
      assert b == front + [x] && a + b == (a + front) + [x];
      hide Kept;
    }
  }

  /** All durations of the n most recent spans, in order. */
  function Latest(spans: seq<seq<int>>, n: nat): seq<int> {
    Flatten(spans[if |spans| > n then |spans| - n else 0..])
  }

  /** One span more, further back. */
  lemma LatestGrows(spans: seq<seq<int>>, n: nat)
    ensures Latest(spans, n + 1) == (if n + 1 <= |spans| then spans[|spans| - (n + 1)] else []) + Latest(spans, n)
  {
    if n + 1 <= |spans| {
      var span := spans[|spans| - (n + 1)];
      assert spans[|spans| - (n + 1)..] == [span] + spans[|spans| - n..];
      FlattenConcat([span], spans[|spans| - n..]);
      assert Flatten([span]) == span by {
        FlattenAppend([], span);
        assert [] + [span] == [span] && Flatten<int>([]) + span == span;
      }
    } else {
      assert [] + Latest(spans, n) == Latest(spans, n);
    }
  }

  /** The merge of the n most recent histograms holds, each as often as it was recorded, the accepted
      durations of the n most recent spans. */
  lemma SlotJoins(trackable: int -> bool, spans: seq<seq<int>>, n: nat)
    ensures Kept(trackable, Latest(spans, n + 1)) == Slot(trackable, spans, n + 1) + Kept(trackable, Latest(spans, n))
  {
    LatestGrows(spans, n);
    var more := if n + 1 <= |spans| then spans[|spans| - (n + 1)] else [];
    KeptConcat(trackable, more, Latest(spans, n));
  }

  class WindowedHistogram {
    const trackable: int -> bool
    var ring: seq<multiset<int>>   // newest first

    // The durations of every span between rotations, the running one last.
    ghost var spans: seq<seq<int>>

    ghost predicate Valid()
      reads this
    {
      && spans != [] && |ring| == BUCKETS
      && forall i :: 0 <= i < BUCKETS ==> ring[i] == Slot(trackable, spans, i + 1)
    }

    constructor (trackable: int -> bool)
      ensures Valid() && spans == [[]] && this.trackable == trackable
    {
      this.trackable := trackable;
      ring := seq(BUCKETS, _ => multiset{});
      spans := [[]];
    }

    /** Current.RecordValue; false is its error. */
    method RecordValue(d: int) returns (ok: bool)
      requires Valid()
      modifies this
      ensures Valid()
      ensures spans == old(spans)[|old(spans)| - 1 := old(spans)[|old(spans)| - 1] + [d]]
      ensures ok == trackable(d)
    {
      hide Kept;
      var last := spans[|spans| - 1];
      KeptAppend(trackable, last, d);
      ok := trackable(d);
      if ok {
        ring := ring[0 := ring[0] + multiset{d}];
      }
      spans := spans[|spans| - 1 := last + [d]];
    }

    /** The oldest histogram is dropped, an empty one becomes current. */
    method Rotate()
      requires Valid()
      modifies this
      ensures Valid()
      ensures spans == old(spans) + [[]]
    {
      ring := [multiset{}] + ring[..BUCKETS - 1];
      spans := spans + [[]];
    }

    /** All 60 histograms in one: the accepted durations of the last 60 spans. */
    method Merge() returns (all: multiset<int>)
      requires Valid()
      ensures all == Kept(trackable, Latest(spans, BUCKETS))
    {
      all := multiset{};
      assert spans[|spans|..] == [] && Latest(spans, 0) == [];
      for i := 0 to BUCKETS
        invariant all == Kept(trackable, Latest(spans, i))
      {
        SlotJoins(trackable, spans, i);
        all := ring[i] + all;
      }
    }
  }
}
