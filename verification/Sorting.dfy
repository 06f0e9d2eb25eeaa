/** What std::sort leaves behind, and what a prefix of a sorted row means for the clients behind it. */
module Sorting {
  import opened Sums
  import opened Vectors

  ghost predicate Sorted(s: seq<real>) {
    forall i, j :: 0 <= i < j < |s| ==> s[i] <= s[j]
  }

  function Insert(x: real, s: seq<real>): seq<real> {
    if |s| == 0 || x <= s[0] then [x] + s else [s[0]] + Insert(x, s[1..])
  }

  function Sort(s: seq<real>): seq<real> {
    if |s| == 0 then [] else Insert(s[|s| - 1], Sort(s[..|s| - 1]))
  }

  ghost predicate AtLeast(s: seq<real>, lo: real) {
    forall i :: 0 <= i < |s| ==> lo <= s[i]
  }

  lemma {:induction false} InsertAtLeast(x: real, s: seq<real>, lo: real)
    requires lo <= x && AtLeast(s, lo)
    ensures AtLeast(Insert(x, s), lo)
  {
    if |s| == 0 || x <= s[0] {
    } else {
      InsertAtLeast(x, s[1..], lo);
    }
  }

  lemma SortedCons(x: real, s: seq<real>)
    requires Sorted(s) && AtLeast(s, x)
    ensures Sorted([x] + s)
  {
  }

  lemma {:induction false} InsertSorts(x: real, s: seq<real>)
    requires Sorted(s)
    ensures Sorted(Insert(x, s))
  {
    if |s| == 0 || x <= s[0] {
      SortedCons(x, s);
    } else {
      InsertSorts(x, s[1..]);
      InsertAtLeast(x, s[1..], s[0]);
      SortedCons(s[0], Insert(x, s[1..]));
    }
  }

  lemma {:induction false} InsertPermutes(x: real, s: seq<real>)
    ensures multiset(Insert(x, s)) == multiset(s) + multiset{x}
  {
    if |s| == 0 || x <= s[0] {
    } else {
      InsertPermutes(x, s[1..]);
      assert s == [s[0]] + s[1..];
    }
  }

  /** The result is sorted and is a permutation of the input. */
  lemma {:induction false} SortSorts(s: seq<real>)
    ensures Sorted(Sort(s)) && multiset(Sort(s)) == multiset(s) && |Sort(s)| == |s|
  {
    if |s| > 0 {
      var p := s[..|s| - 1];
      hide Insert, Sorted;
      SortSorts(p);
      InsertSorts(s[|s| - 1], Sort(p));
      InsertPermutes(s[|s| - 1], Sort(p));
      assert s == p + [s[|s| - 1]];
    }
    assert |multiset(Sort(s))| == |multiset(s)|;
  }

  /** A multiset has one sorted arrangement, so any correct sort returns this one. */
  lemma {:induction false} SortedUnique(a: seq<real>, b: seq<real>)
    requires Sorted(a) && Sorted(b) && multiset(a) == multiset(b)
    ensures a == b
  {
    assert |multiset(a)| == |multiset(b)|;
    if |a| > 0 {
      SameLeast(a, b);
      SameLeast(b, a);
      assert a == [a[0]] + a[1..] && b == [b[0]] + b[1..];
      assert multiset(a[1..]) == multiset(a) - multiset{a[0]} == multiset(b[1..]);
      SortedUnique(a[1..], b[1..]);
    }
  }

  lemma SameLeast(a: seq<real>, b: seq<real>)
    requires Sorted(a) && |a| > 0 && |b| > 0 && multiset(a) == multiset(b)
    ensures a[0] <= b[0]
  {
    assert b[0] in multiset(a);
    var i :| 0 <= i < |a| && a[i] == b[0];
  }

  ghost function Values<K>(ids: seq<K>, f: K -> real): seq<real> {
    seq(|ids|, i requires 0 <= i < |ids| => f(ids[i]))
  }

  lemma {:induction false} SumOfValues<K>(ids: seq<K>, s: set<K>, f: K -> real)
    requires Enumerates(ids, s)
    ensures Sum(Values(ids, f)) == SetSum(s, f)
  {
    if |ids| == 0 {
      assert s == {};
    } else {
      var x, p := ids[|ids| - 1], ids[..|ids| - 1];
      DropLast(ids, s);
      SumOfValues(p, s - {x}, f);
      SetSumTake(s, f, x);
      assert Values(ids, f)[..|ids| - 1] == Values(p, f);
    }
  }

  /** Sorting the clients by a key sorts the keys the same way. */
  ghost function InsertId<K>(x: K, ids: seq<K>, f: K -> real): seq<K> {
    if |ids| == 0 || f(x) <= f(ids[0]) then [x] + ids else [ids[0]] + InsertId(x, ids[1..], f)
  }

  ghost function SortIds<K>(ids: seq<K>, f: K -> real): seq<K> {
    if |ids| == 0 then [] else InsertId(ids[|ids| - 1], SortIds(ids[..|ids| - 1], f), f)
  }

  lemma {:induction false} InsertIdValues<K>(x: K, ids: seq<K>, f: K -> real)
    ensures Values(InsertId(x, ids, f), f) == Insert(f(x), Values(ids, f))
  {
    if |ids| == 0 || f(x) <= f(ids[0]) {
      assert Values([x] + ids, f) == [f(x)] + Values(ids, f);
    } else {
      InsertIdValues(x, ids[1..], f);
      var r := InsertId(x, ids[1..], f);
      assert Values([ids[0]] + r, f) == [f(ids[0])] + Values(r, f);
      assert Values(ids, f)[1..] == Values(ids[1..], f);
    }
  }

  lemma {:induction false} InsertIdPermutes<K>(x: K, ids: seq<K>, f: K -> real)
    ensures multiset(InsertId(x, ids, f)) == multiset(ids) + multiset{x}
  {
    if |ids| == 0 || f(x) <= f(ids[0]) {
    } else {
      InsertIdPermutes(x, ids[1..], f);
      assert ids == [ids[0]] + ids[1..];
    }
  }

  lemma {:induction false} SortIdsValues<K>(ids: seq<K>, f: K -> real)
    ensures Values(SortIds(ids, f), f) == Sort(Values(ids, f))
  {
    if |ids| > 0 {
      hide Insert, InsertId;
      var p, x := ids[..|ids| - 1], ids[|ids| - 1];
      SortIdsValues(p, f);
      InsertIdValues(x, SortIds(p, f), f);
      assert Values(ids, f)[..|ids| - 1] == Values(p, f);
    }
  }

  lemma {:induction false} SortIdsPermutes<K>(ids: seq<K>, f: K -> real)
    ensures multiset(SortIds(ids, f)) == multiset(ids)
  {
    if |ids| > 0 {
      var p, x := ids[..|ids| - 1], ids[|ids| - 1];
      var sorted := SortIds(p, f);
      assert SortIds(ids, f) == InsertId(x, sorted, f);
      hide SortIds, InsertId;
      SortIdsPermutes(p, f);
      InsertIdPermutes(x, sorted, f);
      assert multiset(InsertId(x, sorted, f)) == multiset(p) + multiset{x};
      assert ids == p + [x];
    }
  }

  lemma {:induction false} PermutationEnumerates<K>(p: seq<K>, ids: seq<K>, s: set<K>)
    requires Enumerates(ids, s) && multiset(p) == multiset(ids)
    ensures Enumerates(p, s) && |p| == |ids|
  {
    assert |multiset(p)| == |multiset(ids)|;
    forall i, j | 0 <= i < j < |p| ensures p[i] != p[j] {
      if p[i] == p[j] {
        assert p == p[..j] + [p[j]] + p[j + 1..];
        assert p[i] in p[..j];
        assert p[i] in multiset(p[..j]);
        assert multiset(p)[p[i]] >= 2;
        DistinctOnce(ids, p[i]);
        assert false;
      }
    }
    forall i | 0 <= i < |p| ensures p[i] in s {
      assert p[i] in multiset(p);
      assert p[i] in ids;
    }
    forall x | x in s ensures x in p {
      assert x in multiset(ids);
      assert x in multiset(p);
    }
  }

  lemma {:induction false} DistinctOnce<K>(ids: seq<K>, x: K)
    requires forall i, j :: 0 <= i < j < |ids| ==> ids[i] != ids[j]
    ensures multiset(ids)[x] <= 1
  {
    if |ids| > 0 {
      var p, y := ids[..|ids| - 1], ids[|ids| - 1];
      DistinctOnce(p, x);
      assert ids == p + [y];
      if x == y {
        assert x !in p;
        assert x !in multiset(p);
      }
    }
  }

  /** The first m clients of the sorted order, as a set. */
  ghost function Prefix<K>(p: seq<K>, m: nat): (r: set<K>)
    requires m <= |p|
  {
    set i | 0 <= i < m :: p[i]
  }

  lemma PrefixEnumerated<K>(p: seq<K>, s: set<K>, m: nat)
    requires Enumerates(p, s) && m <= |p|
    ensures Enumerates(p[..m], Prefix(p, m)) && Prefix(p, m) <= s && |Prefix(p, m)| == m
  {
    forall x | x in Prefix(p, m) ensures x in p[..m] {
      var i :| 0 <= i < m && p[i] == x;
      assert p[..m][i] == x;
    }
    forall i | 0 <= i < m ensures p[..m][i] in Prefix(p, m) {
      assert p[..m][i] == p[i];
    }
    EnumerationSize(p[..m], Prefix(p, m));
  }

  /** score is the least sum of k of the given values: the minimum is reached, and nothing is below it. */
  ghost predicate IsLeastSum(s: set<string>, f: string -> real, k: nat, score: real) {
    && (exists c: set<string> :: c <= s && |c| == k && SetSum(c, f) == score)
    && (forall c: set<string> :: c <= s && |c| == k ==> score <= SetSum(c, f))
  }

  /** The first m values of the sorted row add up to the least sum of any m of them. */
  lemma SortedPrefixIsLeastSum(ids: seq<string>, s: set<string>, f: string -> real, m: nat)
    requires Enumerates(ids, s) && m <= |ids|
    ensures |Sort(Values(ids, f))| == |ids|
    ensures IsLeastSum(s, f, m, Sum(Sort(Values(ids, f))[..m]))
  {
    var p, t := SortIds(ids, f), Sort(Values(ids, f));
    SortSorts(Values(ids, f));
    SortIdsValues(ids, f);
    SortIdsPermutes(ids, f);
    PermutationEnumerates(p, ids, s);
    PrefixEnumerated(p, s, m);
    var first := Prefix(p, m);
    assert Values(p[..m], f) == t[..m] by {
      assert Values(p, f) == t;
    }
    SumOfValues(p[..m], first, f);
    forall c: set<string> | c <= s && |c| == m ensures SetSum(first, f) <= SetSum(c, f) {
      Exchange(p, s, f, m, c);
    }
  }

  /** Swapping clients outside the prefix for those in it never lowers the sum. */
  lemma Exchange(p: seq<string>, s: set<string>, f: string -> real, m: nat, c: set<string>)
    requires Enumerates(p, s) && m <= |p| && Sorted(Values(p, f))
    requires c <= s && |c| == m == |Prefix(p, m)| && Prefix(p, m) <= s
    ensures SetSum(Prefix(p, m), f) <= SetSum(c, f)
  {
    var first := Prefix(p, m);
    if m > 0 {
      var pivot := f(p[m - 1]);
      forall x | x in first - c ensures f(x) <= pivot {
        var i :| 0 <= i < m && p[i] == x;
        assert Values(p, f)[i] <= Values(p, f)[m - 1];
      }
      forall x | x in c - first ensures pivot <= f(x) {
        var i :| 0 <= i < |p| && p[i] == x;
        assert Values(p, f)[m - 1] <= Values(p, f)[i];
      }
      ExchangeSides(first, c, f, pivot);
    } else {
      assert first == {} && c == {};
    }
  }

  lemma ExchangeSides(a: set<string>, b: set<string>, f: string -> real, pivot: real)
    requires |a| == |b|
    requires forall x :: x in a - b ==> f(x) <= pivot
    requires forall x :: x in b - a ==> pivot <= f(x)
    ensures SetSum(a, f) <= SetSum(b, f)
  {
    hide Times;
    hide SetSum;
    assert |a - b| == |b - a| by {
      assert a == a * b + (a - b) && b == a * b + (b - a);
    }
    SetSumAtMost(a - b, f, pivot);
    SetSumAtLeast(b - a, f, pivot);
    SetSumUnion(a * b, a - b, f);
    SetSumUnion(a * b, b - a, f);
    assert a == a * b + (a - b) && b == a * b + (b - a);
  }
}
