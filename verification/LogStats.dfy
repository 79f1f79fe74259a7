/**
 The overflow estimate kept beside a histogram: a count, a sum of floored binary logarithms, and
 a maximum, with the bound on the geometric mean it stands for.
 */
module LogStats {
  import opened Word64

  function Pow2(n: nat): (p: nat)
    ensures p > n
  {
    if n == 0 then 1 else 2 * Pow2(n - 1)
  }

  /** bits.Len64(x): the number of bits needed for x. */
  function BitLen(x: nat): nat {
    if x == 0 then 0 else 1 + BitLen(x / 2)
  }

  /** log2u; -1 for 0. */
  function Log2(x: nat): int {
    BitLen(x) - 1
  }

  lemma {:induction false} Log2Brackets(x: nat)
    requires x >= 1
    ensures Log2(x) >= 0
    ensures Pow2(Log2(x)) <= x < Pow2(Log2(x) + 1)
  {
    if x == 1 {
      assert BitLen(1) == 1 + BitLen(0) == 1;
    } else {
      Log2Brackets(x / 2);
      assert Log2(x) == Log2(x / 2) + 1;
    }
  }

  /** int64 to uint64, as the argument of log2u is converted: negative durations become huge. */
  function Unsigned(x: int): nat {
    x % TWO_64
  }

  datatype Overflow = Overflow(count: int, sumLog2: int, max: int)

  const NO_OVERFLOW := Overflow(0, 0, 0)

  /** histOverflow.add; HistOverflow.add is the same without the maximum. */
  function Add(o: Overflow, x: int): Overflow {
    Overflow(o.count + 1, o.sumLog2 + Log2(Unsigned(x)), if o.max >= x then o.max else x)
  }

  function Summary(xs: seq<int>): Overflow {
    if xs == [] then NO_OVERFLOW else Add(Summary(xs[..|xs| - 1]), xs[|xs| - 1])
  }

  lemma SummaryAppend(xs: seq<int>, x: int)
    ensures Summary(xs + [x]) == Add(Summary(xs), x)
  {
    assert (xs + [x])[..|xs|] == xs;
  }

  /** The part of an estimate that merging adds up. */
  lemma {:induction false} SummaryConcat(a: seq<int>, b: seq<int>)
    ensures Summary(a + b).count == Summary(a).count + Summary(b).count
    ensures Summary(a + b).sumLog2 == Summary(a).sumLog2 + Summary(b).sumLog2
  {
    if b == [] {
      assert a + b == a;
    } else {
      var front, x := b[..|b| - 1], b[|b| - 1];
      SummaryConcat(a, front);
      SummaryAppend(a + front, x);
      SummaryAppend(front, x);
      assert b == front + [x] && a + b == (a + front) + [x];
      hide Summary, Log2;
    }
  }

  lemma {:induction false} SummaryCounts(xs: seq<int>)
    ensures Summary(xs).count == |xs|
    ensures xs == [] ==> Summary(xs) == NO_OVERFLOW
  {
    if xs != [] {
      SummaryCounts(xs[..|xs| - 1]);
    }
  }

  function Product(xs: seq<int>): int {
    if xs == [] then 1 else Product(xs[..|xs| - 1]) * xs[|xs| - 1]
  }

  lemma Doubled(p: int, q: int)
    ensures 2 * (p * q) == p * (2 * q)
  {
  }

  lemma {:induction false} Pow2Sum(a: nat, b: nat)
    ensures Pow2(a + b) == Pow2(a) * Pow2(b)
  {
    if b > 0 {
      Pow2Sum(a, b - 1);
      assert Pow2(a + b) == 2 * Pow2(a + (b - 1)) && Pow2(b) == 2 * Pow2(b - 1);
      hide Pow2;
      Doubled(Pow2(a), Pow2(b - 1));
    }
  }

  lemma MulBounds(lo: nat, p: nat, hi: nat, a: nat, x: nat, b: nat)
    requires lo <= p && p < hi && a <= x && x < b
    ensures lo * a <= p * x
    ensures p * x < hi * b
  {
    assert lo * a <= p * a <= p * x;
    assert p * x <= p * b <= hi * b;
  }

  /** For durations x1..xn that are at least 1: 2^sumLog2 <= x1*...*xn < 2^(sumLog2 + n), so
      2^(sumLog2/n) is within a factor of two of the true geometric mean. */
  lemma {:induction false} EstimateBrackets(xs: seq<int>)
    requires xs != [] && forall i :: 0 <= i < |xs| ==> 1 <= xs[i] < TWO_63
    ensures Summary(xs).count == |xs| && Summary(xs).sumLog2 >= 0
    ensures Pow2(Summary(xs).sumLog2) <= Product(xs) < Pow2(Summary(xs).sumLog2 + |xs|)
  {
    var front, x := xs[..|xs| - 1], xs[|xs| - 1];
    Log2Brackets(x);
    assert Unsigned(x) == x;
    if front == [] {
      assert Summary(front) == NO_OVERFLOW && Product(front) == 1;
    } else {
      EstimateBrackets(front);
      assert Summary(xs).sumLog2 == Summary(front).sumLog2 + Log2(x) && Product(xs) == Product(front) * x;
      hide Summary, Product, Pow2, Log2, Unsigned;
      BracketsMultiply(Summary(front).sumLog2, |front|, Product(front), Log2(x), x);
    }
  }

  lemma BracketsMultiply(s: nat, n: nat, p: nat, l: nat, x: nat)
    requires Pow2(s) <= p < Pow2(s + n) && Pow2(l) <= x < Pow2(l + 1)
    ensures Pow2(s + l) <= p * x < Pow2(s + l + (n + 1))
  {
    hide Pow2;
    MulBounds(Pow2(s), p, Pow2(s + n), Pow2(l), x, Pow2(l + 1));
    Pow2Sum(s, l);
    Pow2Sum(s + n, l + 1);
    assert (s + n) + (l + 1) == s + l + (n + 1);
  }

  lemma {:induction false} MaxIsUpperBound(xs: seq<int>)
    requires forall i :: 0 <= i < |xs| ==> 1 <= xs[i]
    ensures forall i :: 0 <= i < |xs| ==> xs[i] <= Summary(xs).max
    ensures xs != [] ==> Summary(xs).max in xs
    ensures xs == [] ==> Summary(xs).max == 0
  {
    if xs != [] {
      MaxIsUpperBound(xs[..|xs| - 1]);
    }
  }
}
