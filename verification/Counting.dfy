/** How often a number occurs in a log: multisets, one number at a time. */
module Counting {

  /** What is being counted: every element, or only those equal to x. */
  datatype Probe = Any | Only(x: int)

  function Hit(p: Probe, x: int): nat {
    if p.Any? || p.x == x then 1 else 0
  }

  function Count(s: seq<int>, p: Probe): nat {
    if s == [] then 0 else Count(s[..|s| - 1], p) + Hit(p, s[|s| - 1])
  }

  lemma CountAppend(s: seq<int>, x: int, p: Probe)
    ensures Count(s + [x], p) == Count(s, p) + Hit(p, x)
  {
    assert (s + [x])[..|s|] == s;
  }

  lemma {:induction false} CountConcat(a: seq<int>, b: seq<int>, p: Probe)
    ensures Count(a + b, p) == Count(a, p) + Count(b, p)
  {
    if b == [] {
      assert a + b == a;
    } else {
      CountConcat(a, b[..|b| - 1], p);
      assert (a + b)[..|a + b| - 1] == a + b[..|b| - 1];
    }
  }

  lemma {:induction false} CountAll(s: seq<int>)
    ensures Count(s, Any) == |s|
  {
    if s != [] {
      CountAll(s[..|s| - 1]);
    }
  }

  lemma {:induction false} CountIsMultiplicity(s: seq<int>, x: int)
    ensures Count(s, Only(x)) == multiset(s)[x]
  {
    if s != [] {
      CountIsMultiplicity(s[..|s| - 1], x);
      assert s == s[..|s| - 1] + [s[|s| - 1]];
    }
  }

  /** Equal counts make the two logs permutations of each other. */
  lemma EqualCounts(a: seq<int>, b: seq<int>)
    requires forall p :: Count(a, p) == Count(b, p)
    ensures multiset(a) == multiset(b)
  {
    forall x ensures multiset(a)[x] == multiset(b)[x] {
      CountIsMultiplicity(a, x);
      CountIsMultiplicity(b, x);
      assert Count(a, Only(x)) == Count(b, Only(x));
    }
  }
}
