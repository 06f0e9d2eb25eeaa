/** Krum: the distance matrix, the sorted-prefix score, and Byzantine resilience. */
module Krum {
  import opened Vectors
  import opened Sums
  import opened Sorting
  import opened Aggregation

  function SqDist(u: Vec, v: Vec): real
    requires |u| == |v|
  {
    NormSq(Sub(u, v))
  }

  lemma SqDistSymmetric(u: Vec, v: Vec)
    requires |u| == |v|
    ensures SqDist(u, v) == SqDist(v, u) && SqDist(u, v) >= 0.0
  {
    var d, e := Sub(u, v), Sub(v, u);
    forall i | 0 <= i < |u| ensures e[i] == Scale(d, -1.0)[i] {
      assert Scale(d, -1.0)[i] == Times(d[i], -1.0) == -d[i];
    }
    assert e == Scale(d, -1.0);
    NormSqScale(d, -1.0);
    assert Times(NormSq(d), Times(-1.0, -1.0)) == NormSq(d);
    NormSqNonNegative(d);
  }

  lemma SqDistSelf(u: Vec)
    ensures SqDist(u, u) == 0.0
  {
    assert Sub(u, u) == Zero(|u|);
    NormSqZero(|u|);
  }

  /** Squared distance from client c to each client. */
  ghost function DistanceFrom(w: Tensors, c: string): string -> real {
    d => if c in w && d in w && |w[c]| == |w[d]| then SqDist(w[c], w[d]) else 0.0
  }

  /** How many arbitrary clients Krum is run against, and how many neighbours it scores. */
  function Tolerated(n: nat): nat {
    if n >= 3 then (n - 3) / 2 else 0
  }

  function Neighbours(n: nat): nat {
    var f := Tolerated(n);
    if n > f + 2 then n - f - 2 else 1
  }

  /** With f the largest number for which 2f + 3 is at most n, n - f - 2 neighbours are scored. */
  lemma NeighbourCount(n: nat)
    requires n >= 3
    ensures 1 <= Neighbours(n) <= n - 2 && n >= 2 * Tolerated(n) + 3
    ensures Neighbours(n) == n - Tolerated(n) - 2 > Tolerated(n)
    ensures exists f: nat :: 2 * f + 3 <= n < 2 * f + 5 && Neighbours(n) == n - f - 2
  {
    var f := (n - 3) / 2;
    assert 2 * f + 3 <= n < 2 * f + 5 && Neighbours(n) == n - f - 2;
  }

  /** The Krum score of c: the least sum of squared distances to k of the other clients. */
  ghost predicate IsScore(w: Tensors, c: string, score: real) {
    IsLeastSum(w.Keys - {c}, DistanceFrom(w, c), Neighbours(|w|), score)
  }

  /** c has the least Krum score of all clients. */
  ghost predicate Selected(w: Tensors, c: string) {
    && c in w
    && (exists s :: IsScore(w, c, s) && (forall c', s' :: c' in w && IsScore(w, c', s') ==> s <= s'))
  }

  lemma LeastSumUnique(s: set<string>, f: string -> real, k: nat, a: real, b: real)
    requires IsLeastSum(s, f, k, a) && IsLeastSum(s, f, k, b)
    ensures a == b
  {
  }

  // ----- The distance matrix -----

  ghost predicate Distances(vectors: seq<Vec>, m: array2<real>)
    requires forall i, j :: 0 <= i < |vectors| && 0 <= j < |vectors| ==> |vectors[i]| == |vectors[j]|
    reads m
  {
    && m.Length0 == m.Length1 == |vectors|
    && forall i, j :: 0 <= i < |vectors| && 0 <= j < |vectors| ==> m[i, j] == SqDist(vectors[i], vectors[j])
  }

  method Distance(u: Vec, v: Vec) returns (dist: real)
    requires |u| == |v|
    ensures dist == SqDist(u, v)
  {
    dist := 0.0;
    ghost var s := Sub(u, v);
    for d := 0 to |u|
      invariant dist == NormSq(s[..d])
    {
      var diff := u[d] - v[d];
      assert s[..d + 1][..d] == s[..d];
      dist := dist + diff * diff;
    }
    assert s[..|u|] == s;
  }

  /** Fills the upper triangle and mirrors it; the diagonal stays zero. */
  method FillDistances(vectors: seq<Vec>) returns (m: array2<real>)
    requires forall i, j :: 0 <= i < |vectors| && 0 <= j < |vectors| ==> |vectors[i]| == |vectors[j]|
    ensures fresh(m) && Distances(vectors, m)
  {
    hide SqDist;
    var n := |vectors|;
    m := new real[n, n]((_, _) => 0.0);
    for i := 0 to n
      invariant forall a, b :: 0 <= a < n && 0 <= b < n && (a < i || b < i) ==>
        m[a, b] == SqDist(vectors[a], vectors[b])
      invariant forall a :: i <= a < n ==> m[a, a] == 0.0
    {
      SqDistSelf(vectors[i]);
      for j := i + 1 to n
        invariant forall a, b :: 0 <= a < n && 0 <= b < n && (a < i || b < i) ==>
          m[a, b] == SqDist(vectors[a], vectors[b])
        invariant forall a :: i <= a < n ==> m[a, a] == 0.0
        invariant forall b :: i < b < j ==>
          m[i, b] == SqDist(vectors[i], vectors[b]) && m[b, i] == SqDist(vectors[b], vectors[i])
      {
        var dist := Distance(vectors[i], vectors[j]);
        SqDistSymmetric(vectors[i], vectors[j]);
        m[i, j] := dist;
        m[j, i] := dist;
      }
    }
  }

  // ----- Scores -----

  /** A sorted row starts with the client's own zero, so its entries 1..k are the k nearest others. */
  lemma RowScore(w: Tensors, ids: seq<string>, i: nat, dim: nat, row: seq<real>)
    requires Uniform(w, dim) && |w| >= 3 && Enumerates(ids, w.Keys) && i < |ids| == |row|
    requires forall j :: 0 <= j < |ids| ==> row[j] == DistanceFrom(w, ids[i])(ids[j])
    ensures |Sort(row)| == |ids| == |w|
    ensures IsScore(w, ids[i], Sum(Sort(row)[1..Neighbours(|w|) + 1]))
  {
    var c, f, k := ids[i], DistanceFrom(w, ids[i]), Neighbours(|w|);
    hide Sort, Sum, IsLeastSum, DistanceFrom, Values;
    NeighbourCount(|w|);
    EnumerationSize(ids, w.Keys);
    var others := ids[..i] + ids[i + 1..];
    OthersEnumerate(ids, w.Keys, i);
    OwnZeroFirst(w, ids, i, dim, row);
    hide Enumerates, Uniform, IsScore;
    OthersScore(w, c, others);
    PrefixShift(Sort(row), Sort(Values(others, f)), k);
  }

  lemma OthersScore(w: Tensors, c: string, others: seq<string>)
    requires |w| >= 3 && c in w && Enumerates(others, w.Keys - {c})
    ensures |Sort(Values(others, DistanceFrom(w, c)))| == |w| - 1
    ensures Neighbours(|w|) <= |w| - 1
    ensures IsScore(w, c, Sum(Sort(Values(others, DistanceFrom(w, c)))[..Neighbours(|w|)]))
  {
    hide Sort, Sum, IsLeastSum, DistanceFrom, Values;
    NeighbourCount(|w|);
    EnumerationSize(others, w.Keys - {c});
    SortedPrefixIsLeastSum(others, w.Keys - {c}, DistanceFrom(w, c), Neighbours(|w|));
  }

  lemma PrefixShift(a: seq<real>, rest: seq<real>, k: nat)
    requires a == [0.0] + rest && k <= |rest|
    ensures a[1..k + 1] == rest[..k]
  {
  }

  lemma OthersEnumerate(ids: seq<string>, s: set<string>, i: nat)
    requires Enumerates(ids, s) && i < |ids|
    ensures Enumerates(ids[..i] + ids[i + 1..], s - {ids[i]})
  {
    var others := ids[..i] + ids[i + 1..];
    forall x | x in s - {ids[i]} ensures x in others {
      var j :| 0 <= j < |ids| && ids[j] == x;
      assert others[if j < i then j else j - 1] == x;
    }
  }

  lemma OwnZeroFirst(w: Tensors, ids: seq<string>, i: nat, dim: nat, row: seq<real>)
    requires Uniform(w, dim) && Enumerates(ids, w.Keys) && i < |ids| == |row|
    requires forall j :: 0 <= j < |ids| ==> row[j] == DistanceFrom(w, ids[i])(ids[j])
    ensures Sort(row) == [0.0] + Sort(Values(ids[..i] + ids[i + 1..], DistanceFrom(w, ids[i])))
  {
    var f := DistanceFrom(w, ids[i]);
    var others := ids[..i] + ids[i + 1..];
    SqDistSelf(w[ids[i]]);
    assert f(ids[i]) == 0.0;
    hide SqDist, Sort, Sorted;
    assert row == Values(ids, f);
    ValuesRemove(ids, i, f);
    forall j | 0 <= j < |others| ensures Values(others, f)[j] >= 0.0 {
      DistanceNonNegative(w, ids[i], others[j]);
    }
    ZeroFirst(row, Values(others, f));
  }

  lemma ZeroFirst(row: seq<real>, others: seq<real>)
    requires multiset(row) == multiset(others) + multiset{0.0} && AtLeast(others, 0.0)
    ensures Sort(row) == [0.0] + Sort(others)
  {
    hide Sort;
    var rest := Sort(others);
    SortSorts(row);
    SortSorts(others);
    forall j | 0 <= j < |rest| ensures rest[j] >= 0.0 {
      assert rest[j] in multiset(rest);
      assert rest[j] in others;
    }
    SortedCons(0.0, rest);
    SortedUnique(Sort(row), [0.0] + rest);
  }

  lemma DistanceNonNegative(w: Tensors, c: string, d: string)
    ensures DistanceFrom(w, c)(d) >= 0.0
  {
    if c in w && d in w && |w[c]| == |w[d]| {
      SqDistSymmetric(w[c], w[d]);
    }
  }

  ghost function Row(m: array2<real>, i: nat): (r: seq<real>)
    requires i < m.Length0
    reads m
    ensures |r| == m.Length1 && forall j :: 0 <= j < |r| ==> r[j] == m[i, j]
  {
    seq(m.Length1, j requires 0 <= j < m.Length1 reads m => m[i, j])
  }

  /** The score loop for one row: entries 1..k of the sorted row, added up. */
  method ScoreRow(m: array2<real>, i: nat, k: nat) returns (score: real)
    requires m.Length0 == m.Length1 && i < m.Length0 && k < m.Length0
    ensures |Sort(Row(m, i))| == m.Length0 && score == Sum(Sort(Row(m, i))[1..k + 1])
  {
    var n := m.Length0;
    var candidate := new real[n];
    for j := 0 to n
      invariant forall b :: 0 <= b < j ==> candidate[b] == m[i, b]
    {
      candidate[j] := m[i, j];
    }
    ghost var row := candidate[..];
    assert row == Row(m, i);
    SortSorts(row);
    SortInPlace(candidate);
    hide Sort;
    score := 0.0;
    ghost var sorted := candidate[..];
    for j := 1 to k + 1
      invariant score == Sum(sorted[1..j])
    {
      assert sorted[1..j + 1][..j - 1] == sorted[1..j];
      score := score + candidate[j];
    }
  }

  /** The best score so far, the first one if there are several; the source starts from the largest float. */
  datatype Best = NoScoreYet | Best(idx: nat, score: real)

  ghost predicate Scored(w: Tensors, ids: seq<string>, i: nat, best: Best)
    requires i <= |ids|
  {
    && (best == NoScoreYet <==> i == 0)
    && (best.Best? ==>
      && best.idx < i && IsScore(w, ids[best.idx], best.score)
      && (forall j, s :: 0 <= j < i && IsScore(w, ids[j], s) ==> best.score <= s)
      && (forall j, s :: 0 <= j < best.idx && IsScore(w, ids[j], s) ==> best.score < s))
  }

  lemma ScoredStep(w: Tensors, ids: seq<string>, i: nat, best: Best, score: real)
    requires i < |ids| && Scored(w, ids, i, best) && IsScore(w, ids[i], score)
    ensures Scored(w, ids, i + 1, if best == NoScoreYet || score < best.score then Best(i, score) else best)
  {
    hide IsLeastSum;
    forall s | IsScore(w, ids[i], s) ensures s == score {
      LeastSumUnique(w.Keys - {ids[i]}, DistanceFrom(w, ids[i]), Neighbours(|w|), s, score);
    }
  }

  ghost function EqualSizes(w: Tensors): map<string, int> {
    map c | c in w :: 1
  }

  ghost predicate IsKrum(w: Tensors, dim: nat, result: Vec)
    requires |w| > 0
  {
    if |w| < 3 then result == Mean(w, EqualSizes(w), dim)
    else exists c :: Selected(w, c) && result == w[c]
  }

  /** The loop that gives every client the same size. */
  method EqualSizeMap(weights: Tensors) returns (sizes: map<string, int>)
    ensures sizes == EqualSizes(weights)
  {
    ghost var target := EqualSizes(weights);
    var todo := weights.Keys;
    sizes := map[];
    while todo != {}
      invariant todo <= weights.Keys
      invariant sizes == target - todo
      decreases |todo|
    {
      var c :| c in todo;
      assert target - (todo - {c}) == (target - todo)[c := 1];
      sizes := sizes[c := 1];
      todo := todo - {c};
    }
  }

  /** Returns the tensor of a client with the least Krum score; below three clients, the plain mean. */
  method AggKrum(weights: Tensors, ghost dim: nat) returns (result: Vec)
    requires Uniform(weights, dim)
    ensures IsKrum(weights, dim, result)
  {
    if |weights| < 3 {
      var equalSizes := EqualSizeMap(weights);
      result := AggFedAvg(weights, equalSizes, dim);
      return;
    }
    var ids, vectors := ListClients(weights);
    var distances := FillDistances(vectors);
    var best := SelectBest(weights, ids, vectors, distances, dim);
    SelectedAtEnd(weights, ids, best);
    result := vectors[best.idx];
  }

  /** The loop over the candidates. */
  method SelectBest(ghost weights: Tensors, ids: seq<string>, vectors: seq<Vec>, distances: array2<real>,
                    ghost dim: nat)
    returns (best: Best)
    requires Uniform(weights, dim) && |weights| >= 3
    requires Enumerates(ids, weights.Keys) && |ids| == |vectors| == |weights|
    requires forall i :: 0 <= i < |ids| ==> vectors[i] == weights[ids[i]]
    requires Distances(vectors, distances)
    ensures best.Best? && best.idx < |ids| && Scored(weights, ids, |ids|, best)
  {
    var n := |ids|;
    best := NoScoreYet;
    hide Scored, IsScore, Enumerates, Uniform, Distances;
    assert Scored(weights, ids, 0, best) by { NothingScored(weights, ids); }
    for i := 0 to n
      invariant Scored(weights, ids, i, best)
    {
      var score := ScoreClient(weights, ids, vectors, distances, i, dim);
      ScoredStep(weights, ids, i, best, score);
      if best == NoScoreYet || score < best.score {
        best := Best(i, score);
      }
    }
    SomethingScored(weights, ids, best);
  }

  method ScoreClient(ghost weights: Tensors, ghost ids: seq<string>, ghost vectors: seq<Vec>,
                     distances: array2<real>, i: nat, ghost dim: nat) returns (score: real)
    requires Uniform(weights, dim) && |weights| >= 3 && i < |ids|
    requires Enumerates(ids, weights.Keys) && |ids| == |vectors| == |weights|
    requires forall i :: 0 <= i < |ids| ==> vectors[i] == weights[ids[i]]
    requires Distances(vectors, distances)
    ensures IsScore(weights, ids[i], score)
  {
    hide Sort, SqDist, IsScore;
    var n := distances.Length0;
    var k := Neighbours(n);
    NeighbourCount(n);
    ghost var row := Row(distances, i);
    score := ScoreRow(distances, i, if k < n - 1 then k else n - 1);
    assert forall j :: 0 <= j < n ==> row[j] == DistanceFrom(weights, ids[i])(ids[j]);
    RowScore(weights, ids, i, dim, row);
  }

  lemma NothingScored(w: Tensors, ids: seq<string>)
    ensures Scored(w, ids, 0, NoScoreYet)
  {
  }

  lemma SomethingScored(w: Tensors, ids: seq<string>, best: Best)
    requires |ids| > 0 && Scored(w, ids, |ids|, best)
    ensures best.Best? && best.idx < |ids|
  {
  }

  lemma SelectedAtEnd(w: Tensors, ids: seq<string>, best: Best)
    requires Enumerates(ids, w.Keys) && |ids| > 0 && Scored(w, ids, |ids|, best)
    ensures Selected(w, ids[best.idx])
  {
    forall c', s' | c' in w && IsScore(w, c', s') ensures best.score <= s' {
      var j :| 0 <= j < |ids| && ids[j] == c';
    }
  }

  // ----- Resilience -----

  /** With f arbitrary clients among at least 2f + 3, the chosen tensor is within squared distance (n - F - 2) * d of an
      honest one, d bounding the squared distances between honest tensors and F being (n - 3) / 2. */
  lemma KrumResilient(w: Tensors, dim: nat, c: string, bad: set<string>, d: real)
    requires Uniform(w, dim) && Selected(w, c) && 2 * |bad| + 3 <= |w| && d >= 0.0
    requires forall g, h :: g in w && h in w && g !in bad && h !in bad ==> SqDist(w[g], w[h]) <= d
    ensures exists h :: h in w && h !in bad && SqDist(w[c], w[h]) <= (|w| - (|w| - 3) / 2 - 2) as real * d
  {
    NeighbourCount(|w|);
    var h := HonestNear(w, dim, c, bad, d);
    assert Neighbours(|w|) == |w| - (|w| - 3) / 2 - 2;
    assert SqDist(w[c], w[h]) <= (|w| - (|w| - 3) / 2 - 2) as real * d;
  }

  /** The same of the rule's result. */
  lemma KrumResultResilient(w: Tensors, dim: nat, result: Vec, bad: set<string>, d: real)
    requires Uniform(w, dim) && IsKrum(w, dim, result) && 2 * |bad| + 3 <= |w| && d >= 0.0
    requires forall g, h :: g in w && h in w && g !in bad && h !in bad ==> SqDist(w[g], w[h]) <= d
    ensures exists h ::
      h in w && h !in bad && |result| == |w[h]|
      && SqDist(result, w[h]) <= (|w| - (|w| - 3) / 2 - 2) as real * d
  {
    var c :| Selected(w, c) && result == w[c];
    KrumResilient(w, dim, c, bad, d);
    hide SqDist, Selected;
    var h :| h in w && h !in bad && SqDist(w[c], w[h]) <= (|w| - (|w| - 3) / 2 - 2) as real * d;
    assert SqDist(result, w[h]) <= (|w| - (|w| - 3) / 2 - 2) as real * d;
  }

  /** Squared distances add up coordinate by coordinate. */
  lemma SqDistPush(u: Vec, v: Vec, x: real, y: real)
    requires |u| == |v|
    ensures SqDist(u + [x], v + [y]) == SqDist(u, v) + (x - y) * (x - y) && SqDist([], []) == 0.0
  {
    assert Sub(u + [x], v + [y]) == Sub(u, v) + [x - y];
    NormSqPush(Sub(u, v), x - y);
  }

  /** What Krum chooses: of all clients, and all ways to take n - F - 2 of the other clients, F being (n - 3) / 2, it
      returns the tensor of one for which the squared distances to those taken add up to the least. */
  lemma KrumChooses(w: Tensors, dim: nat, result: Vec, dist: string -> (string -> real)) returns (c: string,
                                                                                               near: set<string>)
    requires Uniform(w, dim) && |w| >= 3 && IsKrum(w, dim, result)
    requires forall c, d :: c in w && d in w ==> dist(c)(d) == SqDist(w[c], w[d])
    ensures c in w && near <= w.Keys - {c} && |near| == |w| - (|w| - 3) / 2 - 2 && result == w[c]
    ensures forall c', other: set<string> :: c' in w && other <= w.Keys - {c'} && |other| == |near| ==>
      SetSum(near, dist(c)) <= SetSum(other, dist(c'))
  {
    hide SqDist, SetSum;
    c :| Selected(w, c) && result == w[c];
    var s :| IsScore(w, c, s) && forall c', s' :: c' in w && IsScore(w, c', s') ==> s <= s';
    var k := Neighbours(|w|);
    NeighbourCount(|w|);
    near :| near <= w.Keys - {c} && |near| == k && SetSum(near, DistanceFrom(w, c)) == s;
    SetSumSame(near, DistanceFrom(w, c), dist(c));
    forall c', other: set<string> | c' in w && other <= w.Keys - {c'} && |other| == k
      ensures s <= SetSum(other, dist(c'))
    {
      var s' := ScoreExists(w, c');
      SetSumSame(other, DistanceFrom(w, c'), dist(c'));
    }
  }

  /** Fewer than three clients are averaged, whatever their sizes. */
  lemma KrumAveragesFew(w: Tensors, dim: nat, result: Vec, i: nat, value: string -> real)
    requires Uniform(w, dim) && |w| < 3 && IsKrum(w, dim, result) && i < dim
    requires forall c :: c in w ==> value(c) == w[c][i]
    ensures |w| as real * result[i] == SetSum(w.Keys, value)
  {
    hide SetSum, PartialMean;
    var sizes, one := EqualSizes(w), (c: string) => 1.0;
    assert sizes.Keys == w.Keys && |w.Keys| == |w|;
    FedAvgWeighs(w, sizes, dim, i, value, one, value);
    SetSumAtLeast(w.Keys, one, 1.0);
    SetSumAtMost(w.Keys, one, 1.0);
    assert SetSum(sizes.Keys, one) == |w| as real;
    EqualFactors(SetSum(sizes.Keys, one), Mean(w, sizes, dim)[i], |w| as real, result[i]);
  }

  lemma EqualFactors(x: real, y: real, x': real, y': real)
    requires x == x' && y == y'
    ensures x * y == x' * y'
  {
  }

  lemma HonestNear(w: Tensors, dim: nat, c: string, bad: set<string>, d: real) returns (h: string)
    requires Uniform(w, dim) && |w| >= 3 && Selected(w, c)
    requires |bad| <= Tolerated(|w|) && d >= 0.0
    requires forall g, h :: g in w && h in w && g !in bad && h !in bad ==> SqDist(w[g], w[h]) <= d
    ensures h in w && h !in bad && SqDist(w[c], w[h]) <= Times(Neighbours(|w|) as real, d)
  {
    if c in bad {
      h := HonestNeighbour(w, dim, c, bad, d);
    } else {
      h := c;
      hide Times, SqDist;
      SqDistSelf(w[c]);
      TimesMono(Neighbours(|w|) as real, Neighbours(|w|) as real, 0.0, d);
      TimesZero(Neighbours(|w|) as real);
    }
  }

  /** An arbitrary client that was chosen has an honest one among its nearest neighbours. */
  lemma HonestNeighbour(w: Tensors, dim: nat, c: string, bad: set<string>, d: real) returns (h: string)
    requires Uniform(w, dim) && |w| >= 3 && Selected(w, c)
    requires |bad| <= Tolerated(|w|)
    requires forall g, h :: g in w && h in w && g !in bad && h !in bad ==> SqDist(w[g], w[h]) <= d
    ensures h in w && h !in bad && SqDist(w[c], w[h]) <= Times(Neighbours(|w|) as real, d)
  {
    hide Times, SqDist, SetSum;
    NeighbourCount(|w|);
    assert |w.Keys| > |bad|;
    var g := HonestMember(w.Keys, bad);
    var sg := HonestScore(w, dim, g, bad, d);
    var s :| IsScore(w, c, s) && (forall c', s' :: c' in w && IsScore(w, c', s') ==> s <= s');
    assert s <= sg;
    var near: set<string> :|
      near <= w.Keys - {c} && |near| == Neighbours(|w|) && SetSum(near, DistanceFrom(w, c)) == s;
    h := HonestMember(near, bad);
    forall y | y in near ensures DistanceFrom(w, c)(y) >= 0.0 {
      DistanceNonNegative(w, c, y);
    }
    SetSumDominates(near, DistanceFrom(w, c), h);
    assert DistanceFrom(w, c)(h) == SqDist(w[c], w[h]);
  }

  /** An honest client has enough honest neighbours for a score of at most k * d. */
  lemma HonestScore(w: Tensors, dim: nat, g: string, bad: set<string>, d: real) returns (score: real)
    requires Uniform(w, dim) && |w| >= 3 && g in w && g !in bad
    requires |bad| <= Tolerated(|w|)
    requires forall a, b :: a in w && b in w && a !in bad && b !in bad ==> SqDist(w[a], w[b]) <= d
    ensures IsScore(w, g, score) && score <= Times(Neighbours(|w|) as real, d)
  {
    var k := Neighbours(|w|);
    NeighbourCount(|w|);
    var honest := w.Keys - {g} - bad;
    Removed(w.Keys - {g}, bad);
    var some := SubsetOfSize(honest, k);
    score := ScoreExists(w, g);
    forall x | x in some ensures DistanceFrom(w, g)(x) <= d {
      assert DistanceFrom(w, g)(x) == SqDist(w[g], w[x]);
    }
    hide Times, SqDist, SetSum, DistanceFrom;
    SetSumAtMost(some, DistanceFrom(w, g), d);
  }

  lemma Removed(s: set<string>, bad: set<string>)
    ensures |s - bad| >= |s| - |bad|
  {
    SubsetSize(s * bad, bad);
    assert s == (s - bad) + s * bad;
  }

  lemma ScoreExists(w: Tensors, g: string) returns (score: real)
    requires |w| >= 3 && g in w
    ensures IsScore(w, g, score)
  {
    var ids := SomeEnumeration(w.Keys - {g});
    OthersScore(w, g, ids);
    score := Sum(Sort(Values(ids, DistanceFrom(w, g)))[..Neighbours(|w|)]);
  }

  lemma {:induction false} SubsetOfSize(s: set<string>, k: nat) returns (r: set<string>)
    requires k <= |s|
    ensures r <= s && |r| == k
    decreases k
  {
    if k == 0 {
      r := {};
    } else {
      var x :| x in s;
      var q := SubsetOfSize(s - {x}, k - 1);
      r := q + {x};
    }
  }
}
