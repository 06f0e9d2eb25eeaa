/** Sums over finite sets and sequences: what a loop over an unordered map adds up to. */
module Sums {
  import opened Vectors

  ghost function SetSum<K>(s: set<K>, f: K -> real): real {
    if s == {} then 0.0
    else
      var x :| x in s;
      f(x) + SetSum(s - {x}, f)
  }

  /** The sum does not depend on which element is taken first. */
  lemma {:induction false} SetSumTake<K>(s: set<K>, f: K -> real, x: K)
    requires x in s
    ensures SetSum(s, f) == f(x) + SetSum(s - {x}, f)
    decreases |s|
  {
    var y :| y in s && SetSum(s, f) == f(y) + SetSum(s - {y}, f);
    if y != x {
      SetSumTake(s - {y}, f, x);
      SetSumTake(s - {x}, f, y);
      assert s - {y} - {x} == s - {x} - {y};
    }
  }

  lemma SetSumAdd<K>(s: set<K>, f: K -> real, x: K)
    requires x !in s
    ensures SetSum(s + {x}, f) == SetSum(s, f) + f(x)
  {
    SetSumTake(s + {x}, f, x);
    assert s + {x} - {x} == s;
  }

  lemma {:induction false} SetSumUnion<K>(a: set<K>, b: set<K>, f: K -> real)
    requires a !! b
    ensures SetSum(a + b, f) == SetSum(a, f) + SetSum(b, f)
    decreases |b|
  {
    if b == {} {
      assert a + b == a;
    } else {
      var x :| x in b;
      SetSumTake(b, f, x);
      SetSumUnion(a, b - {x}, f);
      assert a + b == (a + (b - {x})) + {x};
      SetSumAdd(a + (b - {x}), f, x);
    }
  }

  /** A sum whose terms are all at least lo. */
  lemma {:induction false} SetSumAtLeast<K>(s: set<K>, f: K -> real, lo: real)
    requires forall x :: x in s ==> lo <= f(x)
    ensures SetSum(s, f) >= Times(|s| as real, lo)
    decreases |s|
  {
    if s != {} {
      var x :| x in s;
      SetSumTake(s, f, x);
      SetSumAtLeast(s - {x}, f, lo);
      Distribute(|s - {x}| as real, 1.0, |s| as real, lo);
    }
  }

  lemma {:induction false} SetSumAtMost<K>(s: set<K>, f: K -> real, hi: real)
    requires forall x :: x in s ==> f(x) <= hi
    ensures SetSum(s, f) <= Times(|s| as real, hi)
    decreases |s|
  {
    if s != {} {
      var x :| x in s;
      SetSumTake(s, f, x);
      SetSumAtMost(s - {x}, f, hi);
      Distribute(|s - {x}| as real, 1.0, |s| as real, hi);
    }
  }

  lemma {:induction false} SetSumScale<K>(s: set<K>, f: K -> real, g: K -> real, a: real)
    requires forall x :: x in s ==> g(x) == Times(f(x), a)
    ensures SetSum(s, g) == Times(SetSum(s, f), a)
    decreases |s|
  {
    hide Times;
    if s != {} {
      var x :| x in s;
      SetSumTake(s, f, x);
      SetSumTake(s, g, x);
      SetSumScale(s - {x}, f, g, a);
      Distribute(f(x), SetSum(s - {x}, f), SetSum(s, f), a);
    } else {
      TimesZero(a);
    }
  }

  lemma Distribute(x: real, y: real, total: real, a: real)
    requires total == x + y
    ensures Times(total, a) == Times(x, a) + Times(y, a)
  {
  }

  lemma SetSumSame<K>(s: set<K>, f: K -> real, g: K -> real)
    requires forall x :: x in s ==> f(x) == g(x)
    ensures SetSum(s, f) == SetSum(s, g)
  {
    SetSumScale(s, g, f, 1.0);
  }

  /** One term of a sum of non-negative terms is no larger than the sum. */
  lemma SetSumDominates<K>(s: set<K>, f: K -> real, x: K)
    requires x in s
    requires forall y :: y in s ==> f(y) >= 0.0
    ensures f(x) <= SetSum(s, f)
  {
    SetSumTake(s, f, x);
    SetSumAtLeast(s - {x}, f, 0.0);
  }

  function Sum(s: seq<real>): real {
    if |s| == 0 then 0.0 else Sum(s[..|s| - 1]) + s[|s| - 1]
  }

  lemma SumPush(s: seq<real>, x: real)
    ensures Sum(s + [x]) == Sum(s) + x && Sum([]) == 0.0
  {
    assert (s + [x])[..|s|] == s;
  }

  lemma {:induction false} SumBounds(s: seq<real>, lo: real, hi: real)
    requires forall i :: 0 <= i < |s| ==> lo <= s[i] <= hi
    ensures Times(|s| as real, lo) <= Sum(s) <= Times(|s| as real, hi)
  {
    if |s| > 0 {
      SumBounds(s[..|s| - 1], lo, hi);
      Distribute((|s| - 1) as real, 1.0, |s| as real, lo);
      Distribute((|s| - 1) as real, 1.0, |s| as real, hi);
    }
  }

  /** Every element of s, without repetition. */
  ghost predicate Enumerates<K>(ids: seq<K>, s: set<K>) {
    && (forall i, j :: 0 <= i < j < |ids| ==> ids[i] != ids[j])
    && (forall i :: 0 <= i < |ids| ==> ids[i] in s)
    && (forall x :: x in s ==> x in ids)
  }

  lemma DropLast<K>(ids: seq<K>, s: set<K>)
    requires Enumerates(ids, s) && |ids| > 0
    ensures Enumerates(ids[..|ids| - 1], s - {ids[|ids| - 1]}) && ids[|ids| - 1] in s
  {
    var x, p := ids[|ids| - 1], ids[..|ids| - 1];
    forall y | y in s - {x} ensures y in p {
      var i :| 0 <= i < |ids| && ids[i] == y;
      assert p[i] == y;
    }
  }

  lemma {:induction false} EnumerationSize<K>(ids: seq<K>, s: set<K>)
    requires Enumerates(ids, s)
    ensures |ids| == |s|
  {
    if |ids| == 0 {
      assert s == {};
    } else {
      var x := ids[|ids| - 1];
      DropLast(ids, s);
      EnumerationSize(ids[..|ids| - 1], s - {x});
    }
  }
}
