/**
 Two's-complement 64-bit arithmetic, as the compiled `add` and `sub` libraries behave,
 and what a fold of it over a log of numbers comes to.

 Signed overflow is formally undefined in C; the model takes it to wrap, which is what the
 compiled C code and the release build of the Rust code do.
 */
module Word64 {
  import opened Sequences

  const TWO_63: int := 0x8000_0000_0000_0000
  const TWO_64: int := 0x1_0000_0000_0000_0000

  predicate IsInt64(x: int) {
    -TWO_63 <= x < TWO_63
  }

  /** The int64 that is congruent to x modulo 2^64. */
  function Wrap(x: int): (r: int)
    ensures IsInt64(r)
    ensures (r - x) % TWO_64 == 0
  {
    (x + TWO_63) % TWO_64 - TWO_63
  }

  lemma WrapAbsorbs(a: int, b: int)
    ensures Wrap(Wrap(a) + b) == Wrap(a + b)
  {
  }

  lemma WrapNegates(a: int)
    ensures Wrap(-Wrap(a)) == Wrap(-a)
  {
  }

  /** The pair of totals a calculator keeps. */
  datatype Values = Values(sum: int, sub: int)

  const ZERO := Values(0, 0)

  /** addOp and subOp, applied to one total. */
  function AddOp(total: int, num: int): int { Wrap(total + num) }

  function SubOp(total: int, num: int): int { Wrap(total - num) }

  /** The totals after applying a log of numbers in order, starting from zero. */
  function Fold(log: seq<int>): Values {
    if log == [] then ZERO
    else
      var before := Fold(log[..|log| - 1]);
      var num := log[|log| - 1];
      Values(AddOp(before.sum, num), SubOp(before.sub, num))
  }

  lemma FoldAppend(log: seq<int>, num: int)
    ensures Fold(log + [num]) ==
            Values(AddOp(Fold(log).sum, num), SubOp(Fold(log).sub, num))
  {
    assert (log + [num])[..|log|] == log;
  }

  /** The mathematical, unbounded sum of a log. */
  function Sum(log: seq<int>): int {
    if log == [] then 0 else Sum(log[..|log| - 1]) + log[|log| - 1]
  }

  lemma SumAppend(log: seq<int>, num: int)
    ensures Sum(log + [num]) == Sum(log) + num
  {
    assert (log + [num])[..|log|] == log;
  }

  lemma {:induction false} SumConcat(a: seq<int>, b: seq<int>)
    ensures Sum(a + b) == Sum(a) + Sum(b)
  {
    if b == [] {
      assert a + b == a;
    } else {
      SumConcat(a, b[..|b| - 1]);
      assert (a + b)[..|a + b| - 1] == a + b[..|b| - 1];
    }
  }

  /** Wrapping at every step or only once at the end makes no difference. */
  lemma {:induction false} FoldIsWrappedSum(log: seq<int>)
    ensures Fold(log) == Values(Wrap(Sum(log)), Wrap(-Sum(log)))
  {
    if log != [] {
      var front, num := log[..|log| - 1], log[|log| - 1];
      FoldIsWrappedSum(front);
      WrapAbsorbs(Sum(front), num);
      WrapAbsorbs(-Sum(front), -num);
    }
  }

  lemma FoldIsBalanced(log: seq<int>)
    ensures Fold(log).sub == Wrap(-Fold(log).sum)
  {
    FoldIsWrappedSum(log);
    WrapNegates(Sum(log));
  }

  lemma SumWithout(s: seq<int>, i: nat)
    requires i < |s|
    ensures Sum(s) == Sum(s[..i] + s[i + 1..]) + s[i]
  {
    var left, right := s[..i], s[i + 1..];
    SplitAt(s, i);
    SumConcat(left, [s[i]] + right);
    SumConcat([s[i]], right);
    SumAppend([], s[i]);
    assert [] + [s[i]] == [s[i]];
    SumConcat(left, right);
  }

  lemma {:induction false} SumOfPermutation(a: seq<int>, b: seq<int>)
    requires multiset(a) == multiset(b)
    ensures Sum(a) == Sum(b)
  {
    if a == [] {
      assert |multiset(b)| == 0;
    } else {
      var num := a[|a| - 1];
      assert num in multiset(b);
      var i :| 0 <= i < |b| && b[i] == num;
      SumWithout(a, |a| - 1);
      SplitAt(a, |a| - 1);
      SumWithout(b, i);
      SplitAt(b, i);
      SumOfPermutation(a[..|a| - 1] + a[|a|..], b[..i] + b[i + 1..]);
    }
  }

  /** The totals do not depend on the order in which the numbers were applied. */
  lemma FoldOfPermutation(a: seq<int>, b: seq<int>)
    requires multiset(a) == multiset(b)
    ensures Fold(a) == Fold(b)
  {
    SumOfPermutation(a, b);
    FoldIsWrappedSum(a);
    FoldIsWrappedSum(b);
  }
}
