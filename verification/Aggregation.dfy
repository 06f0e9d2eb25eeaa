/** The three aggregation rules over one round's client tensors, and what they promise. */
module Aggregation {
  import opened Basics
  import opened Vectors
  import opened Sums
  import opened Sorting

  type Tensors = map<string, Vec>

  ghost predicate Uniform(w: Tensors, dim: nat) {
    |w| > 0 && forall c :: c in w ==> |w[c]| == dim
  }

  // ----- Validation -----

  datatype Validation = Valid | NoWeights | EmptyTensor | MismatchedDimensions | NonFinite(client: string)

  ghost predicate AllFinite(v: Vec, finite: real -> bool) {
    forall i :: 0 <= i < |v| ==> finite(v[i])
  }

  /** Non-empty, one common non-zero dimension, every value finite. */
  ghost predicate WellFormed(w: Tensors, finite: real -> bool) {
    && |w| > 0
    && (forall c :: c in w ==> |w[c]| > 0 && AllFinite(w[c], finite))
    && (forall c, d :: c in w && d in w ==> |w[c]| == |w[d]|)
  }

  /** Accepts exactly the well-formed tensors, whichever entry is visited first. */
  method ValidateWeights(weights: Tensors, finite: real -> bool) returns (verdict: Validation)
    ensures verdict == Valid <==> WellFormed(weights, finite)
    ensures verdict.NonFinite? ==> verdict.client in weights && !AllFinite(weights[verdict.client], finite)
    ensures verdict == NoWeights <==> weights == map[]
    ensures verdict == EmptyTensor ==> exists c :: c in weights && weights[c] == []
    ensures verdict == MismatchedDimensions ==>
      exists c, d :: c in weights && d in weights && |weights[c]| != |weights[d]|
  {
    if weights == map[] {
      return NoWeights;
    }
    var first :| first in weights.Keys;
    var expected := |weights[first]|;
    if expected == 0 {
      return EmptyTensor;
    }
    var todo := weights.Keys;
    while todo != {}
      invariant todo <= weights.Keys
      invariant forall c :: c in weights.Keys - todo ==> |weights[c]| == expected && AllFinite(weights[c], finite)
      decreases |todo|
    {
      var c :| c in todo;
      var values := weights[c];
      if |values| != expected {
        return MismatchedDimensions;
      }
      for i := 0 to |values|
        invariant forall k :: 0 <= k < i ==> finite(values[k])
      {
        if !finite(values[i]) {
          return NonFinite(c);
        }
      }
      todo := todo - {c};
    }
    return Valid;
  }

  // ----- FedAvg -----

  function Samples(sizes: map<string, int>, c: string): int {
    if c in sizes then Max(1, sizes[c]) else 1
  }

  ghost function SampleTerm(sizes: map<string, int>): string -> real {
    c => Samples(sizes, c) as real
  }

  ghost function TotalSamples(sizes: map<string, int>): real {
    SetSum(sizes.Keys, SampleTerm(sizes))
  }

  /** The share of one client in the weighted mean. */
  ghost function Factor(w: Tensors, sizes: map<string, int>, c: string): real
    requires |w| > 0
  {
    var total := TotalSamples(sizes);
    if total > 0.0 then Samples(sizes, c) as real / total else 1.0 / |w| as real
  }

  ghost function FactorTerm(w: Tensors, sizes: map<string, int>): string -> real
    requires |w| > 0
  {
    c => Factor(w, sizes, c)
  }

  ghost function CoordinateTerm(w: Tensors, sizes: map<string, int>, i: nat): string -> real
    requires |w| > 0
  {
    c => if c in w && i < |w[c]| then Times(w[c][i], Factor(w, sizes, c)) else 0.0
  }

  /** The weighted sum over some of the clients. */
  ghost function PartialMean(w: Tensors, sizes: map<string, int>, keys: set<string>, dim: nat): (r: Vec)
    requires |w| > 0
    ensures |r| == dim
  {
    seq(dim, i requires 0 <= i < dim => SetSum(keys, CoordinateTerm(w, sizes, i)))
  }

  ghost function Mean(w: Tensors, sizes: map<string, int>, dim: nat): Vec
    requires |w| > 0
  {
    PartialMean(w, sizes, w.Keys, dim)
  }

  lemma PartialMeanStep(w: Tensors, sizes: map<string, int>, keys: set<string>, dim: nat, c: string)
    requires Uniform(w, dim) && c in w && c !in keys
    ensures PartialMean(w, sizes, keys + {c}, dim)
         == Axpy(PartialMean(w, sizes, keys, dim), Factor(w, sizes, c), w[c])
  {
    var p := PartialMean(w, sizes, keys, dim);
    var q := PartialMean(w, sizes, keys + {c}, dim);
    var r := Axpy(p, Factor(w, sizes, c), w[c]);
    forall i | 0 <= i < dim ensures q[i] == r[i] {
      SetSumAdd(keys, CoordinateTerm(w, sizes, i), c);
      assert q[i] == SetSum(keys, CoordinateTerm(w, sizes, i)) + CoordinateTerm(w, sizes, i)(c);
      assert r[i] == p[i] + Times(w[c][i], Factor(w, sizes, c));
    }
  }

  lemma TotalNonNegative(sizes: map<string, int>)
    ensures TotalSamples(sizes) >= 0.0 && (sizes != map[] ==> TotalSamples(sizes) > 0.0)
  {
    SetSumAtLeast(sizes.Keys, SampleTerm(sizes), 1.0);
    assert Times(|sizes.Keys| as real, 1.0) == |sizes.Keys| as real;
  }

  /** The first loop: the total number of samples, each client counting for at least one. */
  method CountSamples(datasetSizes: map<string, int>) returns (totalSamples: int)
    ensures totalSamples as real == TotalSamples(datasetSizes)
  {
    totalSamples := 0;
    var todo := datasetSizes.Keys;
    while todo != {}
      invariant todo <= datasetSizes.Keys
      invariant totalSamples as real == SetSum(datasetSizes.Keys - todo, SampleTerm(datasetSizes))
      decreases |todo|
    {
      var c :| c in todo;
      SetSumAdd(datasetSizes.Keys - todo, SampleTerm(datasetSizes), c);
      assert datasetSizes.Keys - (todo - {c}) == (datasetSizes.Keys - todo) + {c};
      totalSamples := totalSamples + Max(1, datasetSizes[c]);
      todo := todo - {c};
    }
    assert datasetSizes.Keys - todo == datasetSizes.Keys;
  }

  lemma PartialMeanEmpty(w: Tensors, sizes: map<string, int>, dim: nat)
    requires |w| > 0
    ensures PartialMean(w, sizes, {}, dim) == Zero(dim)
    ensures SetSum({}, FactorTerm(w, sizes)) == 0.0
  {
  }

  /** Weighted mean: coordinate i is the sum over the clients of value i times the client's share. */
  method AggFedAvg(weights: Tensors, datasetSizes: map<string, int>, ghost dim: nat) returns (mean: Vec)
    requires Uniform(weights, dim)
    ensures mean == Mean(weights, datasetSizes, dim)
  {
    var first :| first in weights.Keys;
    var size := |weights[first]|;
    var result := new real[size](_ => 0.0);
    var totalSamples := CountSamples(datasetSizes);
    hide PartialMean;
    var todo := weights.Keys;
    assert weights.Keys - todo == {};
    PartialMeanEmpty(weights, datasetSizes, dim);
    assert result[..] == Zero(dim);
    while todo != {}
      invariant todo <= weights.Keys
      invariant result[..] == PartialMean(weights, datasetSizes, weights.Keys - todo, dim)
      decreases |todo|
    {
      var c :| c in todo;
      var clientSamples := Samples(datasetSizes, c);
      var factor := if totalSamples > 0 then clientSamples as real / totalSamples as real
                    else 1.0 / |weights| as real;
      assert factor == Factor(weights, datasetSizes, c);
      AddScaled(result, weights[c], factor);
      PartialMeanStep(weights, datasetSizes, weights.Keys - todo, dim, c);
      assert weights.Keys - (todo - {c}) == (weights.Keys - todo) + {c};
      todo := todo - {c};
    }
    assert weights.Keys - todo == weights.Keys;
    mean := result[..];
  }

  /** The inner accumulation loop. */
  method AddScaled(result: array<real>, values: Vec, factor: real)
    requires result.Length == |values|
    modifies result
    ensures result[..] == Axpy(old(result[..]), factor, values)
  {
    ghost var before := result[..];
    for i := 0 to |values|
      invariant forall k :: 0 <= k < i ==> result[k] == before[k] + Times(values[k], factor)
      invariant forall k :: i <= k < |values| ==> result[k] == before[k]
    {
      result[i] := result[i] + values[i] * factor;
    }
    assert forall k :: 0 <= k < |values| ==> Axpy(before, factor, values)[k] == before[k] + Times(values[k], factor);
  }

  ghost predicate AllNormsAtMost(w: Tensors, s: real) {
    forall c :: c in w ==> NormSq(w[c]) <= s
  }

  lemma FactorNonNegative(w: Tensors, sizes: map<string, int>, c: string)
    requires |w| > 0
    ensures Factor(w, sizes, c) >= 0.0
  {
    TotalNonNegative(sizes);
    QuotientNonNegative(Samples(sizes, c) as real, TotalSamples(sizes));
    QuotientNonNegative(1.0, |w| as real);
  }

  lemma QuotientNonNegative(a: real, b: real)
    requires a >= 0.0
    ensures b > 0.0 ==> a / b >= 0.0
  {
    if b > 0.0 {
      var q := a / b;
      assert q * b == a;
      if q < 0.0 {
        StrictProduct(-q, b);
        assert false;
      }
    }
  }

  /** With one dataset size per client the shares form a convex combination. */
  lemma SharesSumToOne(w: Tensors, sizes: map<string, int>)
    requires |w| > 0 && sizes.Keys == w.Keys
    ensures SetSum(w.Keys, FactorTerm(w, sizes)) == 1.0
    ensures forall c :: Factor(w, sizes, c) >= 0.0
  {
    forall c ensures Factor(w, sizes, c) >= 0.0 {
      FactorNonNegative(w, sizes, c);
    }
    TotalNonNegative(sizes);
    assert |sizes.Keys| == |w.Keys| > 0;
    var total := TotalSamples(sizes);
    forall c | c in w.Keys ensures FactorTerm(w, sizes)(c) == Times(SampleTerm(sizes)(c), 1.0 / total) {
      assert Samples(sizes, c) as real / total == Samples(sizes, c) as real * (1.0 / total);
    }
    SetSumScale(w.Keys, SampleTerm(sizes), FactorTerm(w, sizes), 1.0 / total);
    Reciprocal(total);
  }

  lemma Reciprocal(t: real)
    requires t > 0.0
    ensures Times(t, 1.0 / t) == 1.0
  {
  }

  lemma {:induction false} PartialMeanNorm(w: Tensors, sizes: map<string, int>, keys: set<string>, dim: nat, s: real)
    requires Uniform(w, dim) && keys <= w.Keys && AllNormsAtMost(w, s)
    ensures SetSum(keys, FactorTerm(w, sizes)) >= 0.0
    ensures NormSq(PartialMean(w, sizes, keys, dim))
         <= Times(Times(SetSum(keys, FactorTerm(w, sizes)), SetSum(keys, FactorTerm(w, sizes))), s)
    decreases |keys|
  {
    hide Times, Factor, SetSum, PartialMean;
    if keys == {} {
      PartialMeanEmpty(w, sizes, dim);
      NormSqZero(dim);
      TimesZero(0.0);
      TimesZero(s);
    } else {
      var c :| c in keys;
      var rest := keys - {c};
      PartialMeanNorm(w, sizes, rest, dim, s);
      FactorNonNegative(w, sizes, c);
      PartialMeanStep(w, sizes, rest, dim, c);
      SetSumAdd(rest, FactorTerm(w, sizes), c);
      assert rest + {c} == keys;
      NormStep(PartialMean(w, sizes, rest, dim), w[c], SetSum(rest, FactorTerm(w, sizes)), Factor(w, sizes, c), s);
    }
  }

  /** The raw weighted mean of clipped tensors already respects the clipping norm. */
  lemma FedAvgNorm(w: Tensors, sizes: map<string, int>, dim: nat, s: real)
    requires Uniform(w, dim) && sizes.Keys == w.Keys && AllNormsAtMost(w, s)
    ensures NormSq(Mean(w, sizes, dim)) <= s
  {
    SharesSumToOne(w, sizes);
    PartialMeanNorm(w, sizes, w.Keys, dim, s);
    assert Times(Times(1.0, 1.0), s) == s;
  }

  /** Mean times total is the total of the products. */
  lemma UndoShare(x: real, n: real, total: real)
    requires total != 0.0
    ensures Times(Times(x, n / total), total) == x * n
  {
    assert n / total * total == n;
  }

  /** What FedAvg weighs by: the sum of all sizes, each at least one, times a coordinate of the mean is the sum of that
      coordinate over the clients, each taken as often as its size says, or once if it has none; without any sizes it is
      the plain average. */
  lemma FedAvgWeighs(w: Tensors, sizes: map<string, int>, dim: nat, i: nat, value: string -> real,
                     count: string -> real, product: string -> real)
    requires Uniform(w, dim) && i < dim
    requires forall c :: c in w ==> value(c) == w[c][i]
    requires forall c :: count(c) == if c in sizes && sizes[c] > 1 then sizes[c] as real else 1.0
    requires forall c :: product(c) == value(c) * count(c)
    ensures sizes != map[] ==> SetSum(sizes.Keys, count) * Mean(w, sizes, dim)[i] == SetSum(w.Keys, product)
    ensures sizes == map[] ==> |w| as real * Mean(w, sizes, dim)[i] == SetSum(w.Keys, value)
  {
    hide Times, SetSum, Factor, PartialMean;
    var total, term := TotalSamples(sizes), CoordinateTerm(w, sizes, i);
    TotalNonNegative(sizes);
    SetSumSame(sizes.Keys, SampleTerm(sizes), count);
    forall c | c in w.Keys
      ensures sizes != map[] ==> product(c) == Times(term(c), total)
      ensures sizes == map[] ==> value(c) == Times(term(c), |w| as real)
    {
      WeighedTerm(w, sizes, i, c);
    }
    MeanAt(w, sizes, dim, i);
    if sizes != map[] {
      SetSumScale(w.Keys, term, product, total);
      TimesSwap(SetSum(w.Keys, term), total, Mean(w, sizes, dim)[i], SetSum(sizes.Keys, count));
    } else {
      SetSumScale(w.Keys, term, value, |w| as real);
      TimesSwap(SetSum(w.Keys, term), |w| as real, Mean(w, sizes, dim)[i], |w| as real);
    }
  }

  lemma MeanAt(w: Tensors, sizes: map<string, int>, dim: nat, i: nat)
    requires |w| > 0 && i < dim
    ensures Mean(w, sizes, dim)[i] == SetSum(w.Keys, CoordinateTerm(w, sizes, i))
  {
  }

  lemma WeighedTerm(w: Tensors, sizes: map<string, int>, i: nat, c: string)
    requires c in w && i < |w[c]|
    ensures var term := CoordinateTerm(w, sizes, i)(c);
      && (sizes != map[] ==>
            Times(term, TotalSamples(sizes))
              == w[c][i] * (if c in sizes && sizes[c] > 1 then sizes[c] as real else 1.0))
      && (sizes == map[] ==> Times(term, |w| as real) == w[c][i])
  {
    TotalNonNegative(sizes);
    if sizes != map[] {
      UndoShare(w[c][i], Samples(sizes, c) as real, TotalSamples(sizes));
    } else {
      UndoShare(w[c][i], 1.0, |w| as real);
    }
  }

  lemma TimesSwap(x: real, y: real, x': real, y': real)
    requires x' == x && y' == y
    ensures Times(x, y) == y' * x'
  {
  }

  // ----- Trimmed mean -----

  ghost function Coordinate(w: Tensors, d: nat): string -> real {
    c => if c in w && d < |w[c]| then w[c][d] else 0.0
  }

  function TrimCount(n: nat, beta: real): int {
    ((if beta < 0.0 then 0.0 else beta) * n as real).Floor
  }

  /** The mean of a sorted axis without its trim lowest and trim highest values; all of them if that leaves none. */
  function TrimmedAverage(axis: seq<real>, trim: nat): real
    requires |axis| > 0
  {
    var n := |axis|;
    var end := if n > trim then n - trim else n;
    if trim >= end then Sum(axis) / n as real else Sum(axis[trim..end]) / (end - trim) as real
  }

  lemma TrimNonNegative(n: nat, beta: real)
    ensures TrimCount(n, beta) >= 0
  {
    if beta >= 0.0 { assert beta * n as real >= 0.0; }
  }

  /** std::sort on a buffer. */
  method SortInPlace(a: array<real>)
    modifies a
    ensures a[..] == Sort(old(a[..]))
  {
    var sorted := Sort(a[..]);
    SortSorts(a[..]);
    forall i | 0 <= i < a.Length {
      a[i] := sorted[i];
    }
  }

  /** The clients of a map in some order, as iterating it yields them. */
  method ListClients(weights: Tensors) returns (ids: seq<string>, vectors: seq<Vec>)
    ensures Enumerates(ids, weights.Keys) && |ids| == |vectors| == |weights|
    ensures forall i :: 0 <= i < |ids| ==> vectors[i] == weights[ids[i]]
  {
    ids, vectors := [], [];
    var todo := weights.Keys;
    while todo != {}
      invariant todo <= weights.Keys && |ids| == |vectors|
      invariant Enumerates(ids, weights.Keys - todo)
      invariant forall i :: 0 <= i < |ids| ==> ids[i] in weights && vectors[i] == weights[ids[i]]
      decreases |todo|
    {
      var c :| c in todo;
      ids, vectors := ids + [c], vectors + [weights[c]];
      todo := todo - {c};
      assert c in ids;
    }
    assert weights.Keys - todo == weights.Keys;
    EnumerationSize(ids, weights.Keys);
  }

  /** Coordinate d of the result is the trimmed average of the d-th values, in whatever order the clients come. */
  ghost predicate IsTrimmedMean(w: Tensors, beta: real, dim: nat, result: Vec) {
    && |result| == dim
    && TrimCount(|w|, beta) >= 0
    && forall d :: 0 <= d < dim ==> IsTrimmedCoordinate(w, TrimCount(|w|, beta), d, result[d])
  }

  ghost predicate IsTrimmedCoordinate(w: Tensors, trim: nat, d: nat, x: real) {
    forall ids :: Enumerates(ids, w.Keys) ==>
      var axis := Sort(Values(ids, Coordinate(w, d)));
      |axis| == |w| > 0 && x == TrimmedAverage(axis, trim)
  }

  lemma AxisOrderIrrelevant(w: Tensors, d: nat, ids: seq<string>, ids': seq<string>)
    requires Enumerates(ids, w.Keys) && Enumerates(ids', w.Keys)
    ensures Sort(Values(ids, Coordinate(w, d))) == Sort(Values(ids', Coordinate(w, d)))
    ensures |Sort(Values(ids, Coordinate(w, d)))| == |w|
  {
    var f := Coordinate(w, d);
    SortSorts(Values(ids, f));
    SortSorts(Values(ids', f));
    EnumerationSize(ids, w.Keys);
    EnumerationsPermute(ids, ids', w.Keys);
    ValuesPermute(ids, ids', f);
    SortedUnique(Sort(Values(ids, f)), Sort(Values(ids', f)));
  }

  lemma {:induction false} EnumerationsPermute(a: seq<string>, b: seq<string>, s: set<string>)
    requires Enumerates(a, s) && Enumerates(b, s)
    ensures multiset(a) == multiset(b)
  {
    EnumeratedMultiset(a, s);
    EnumeratedMultiset(b, s);
  }

  lemma {:induction false} EnumeratedMultiset(a: seq<string>, s: set<string>)
    requires Enumerates(a, s)
    ensures multiset(a) == multiset(s)
  {
    if |a| == 0 {
      assert s == {};
    } else {
      DropLast(a, s);
      var x := a[|a| - 1];
      EnumeratedMultiset(a[..|a| - 1], s - {x});
      assert a == a[..|a| - 1] + [x];
      assert s == (s - {x}) + {x};
    }
  }

  lemma ValuesRemove(b: seq<string>, k: nat, f: string -> real)
    requires k < |b|
    ensures multiset(Values(b, f)) == multiset(Values(b[..k] + b[k + 1..], f)) + multiset{f(b[k])}
  {
    var v := Values(b, f);
    assert Values(b[..k] + b[k + 1..], f) == v[..k] + v[k + 1..];
    assert v == v[..k] + [f(b[k])] + v[k + 1..];
  }

  lemma TakeOut(b: seq<string>, k: nat)
    requires k < |b|
    ensures multiset(b[..k] + b[k + 1..]) == multiset(b) - multiset{b[k]}
  {
    assert b == b[..k] + [b[k]] + b[k + 1..];
  }

  lemma {:induction false} ValuesPermute(a: seq<string>, b: seq<string>, f: string -> real)
    requires multiset(a) == multiset(b)
    ensures multiset(Values(a, f)) == multiset(Values(b, f))
    decreases |a|
  {
    hide Values;
    assert |multiset(a)| == |multiset(b)|;
    if |a| > 0 {
      assert a[0] in multiset(b);
      var k :| 0 <= k < |b| && b[k] == a[0];
      var a', b' := a[..0] + a[1..], b[..k] + b[k + 1..];
      TakeOut(a, 0);
      TakeOut(b, k);
      assert |a'| < |a| && multiset(a') == multiset(b');
      ValuesRemove(a, 0, f);
      ValuesRemove(b, k, f);
      ValuesPermute(a', b', f);
    } else {
      assert a == b;
    }
  }

  /** One round of the loop over coordinates: fill the axis, sort it, average what is kept. */
  method TrimCoordinate(vectors: seq<Vec>, d: nat, trimCount: nat, axisValues: array<real>) returns (average: real)
    requires |vectors| == axisValues.Length > 0
    requires forall i :: 0 <= i < |vectors| ==> d < |vectors[i]|
    modifies axisValues
    ensures |Sort(Axis(vectors, d))| == |vectors|
    ensures average == TrimmedAverage(Sort(Axis(vectors, d)), trimCount)
  {
    var n := axisValues.Length;
    for i := 0 to n
      invariant forall k :: 0 <= k < i ==> axisValues[k] == vectors[k][d]
    {
      axisValues[i] := vectors[i][d];
    }
    assert axisValues[..] == Axis(vectors, d);
    SortSorts(Axis(vectors, d));
    SortInPlace(axisValues);
    average := AverageKept(axisValues, trimCount);
  }

  /** The bounds of the kept range, with the fallback, and the mean over it. */
  method AverageKept(axisValues: array<real>, trimCount: nat) returns (average: real)
    requires axisValues.Length > 0
    ensures average == TrimmedAverage(axisValues[..], trimCount)
  {
    var n := axisValues.Length;
    var start := trimCount;
    var end := if n > trimCount then n - trimCount else n;
    if start >= end {
      start := 0;
      end := n;
    }
    hide Sum;
    var sum := SumRange(axisValues, start, end);
    assert axisValues[..][0..n] == axisValues[..];
    average := sum / (end - start) as real;
  }

  method SumRange(a: array<real>, start: nat, end: nat) returns (sum: real)
    requires start <= end <= a.Length
    ensures sum == Sum(a[..][start..end])
  {
    sum := 0.0;
    ghost var axis := a[..];
    for i := start to end
      invariant sum == Sum(axis[start..i])
    {
      assert axis[start..i + 1][..i - start] == axis[start..i];
      sum := sum + a[i];
    }
  }

  ghost function Axis(vectors: seq<Vec>, d: nat): seq<real>
    requires forall i :: 0 <= i < |vectors| ==> d < |vectors[i]|
  {
    seq(|vectors|, i requires 0 <= i < |vectors| => vectors[i][d])
  }

  lemma AnyOrderGivesTheSame(w: Tensors, ids: seq<string>, vectors: seq<Vec>, d: nat, trim: nat, x: real)
    requires Enumerates(ids, w.Keys) && |ids| == |vectors| == |w| > 0
    requires forall i :: 0 <= i < |ids| ==> ids[i] in w && vectors[i] == w[ids[i]] && d < |vectors[i]|
    requires |Sort(Axis(vectors, d))| == |vectors| && x == TrimmedAverage(Sort(Axis(vectors, d)), trim)
    ensures IsTrimmedCoordinate(w, trim, d, x)
  {
    assert Axis(vectors, d) == Values(ids, Coordinate(w, d));
    forall order | Enumerates(order, w.Keys)
      ensures Sort(Values(order, Coordinate(w, d))) == Sort(Axis(vectors, d))
    {
      AxisOrderIrrelevant(w, d, ids, order);
    }
  }

  method TrimAxis(ghost w: Tensors, ghost ids: seq<string>, vectors: seq<Vec>, ghost dim: nat, d: nat, trimCount: nat,
                  axisValues: array<real>) returns (average: real)
    requires Uniform(w, dim) && d < dim && axisValues.Length == |w|
    requires Enumerates(ids, w.Keys) && |ids| == |vectors| == |w|
    requires forall i :: 0 <= i < |ids| ==> vectors[i] == w[ids[i]]
    modifies axisValues
    ensures IsTrimmedCoordinate(w, trimCount, d, average)
  {
    hide Sort, TrimmedAverage;
    average := TrimCoordinate(vectors, d, trimCount, axisValues);
    AnyOrderGivesTheSame(w, ids, vectors, d, trimCount, average);
  }

  /** Per coordinate: sort the clients' values, drop the extremes, average the rest. */
  method AggTrimmedMean(weights: Tensors, beta: real, ghost dim: nat) returns (mean: Vec)
    requires Uniform(weights, dim)
    ensures IsTrimmedMean(weights, beta, dim, mean)
  {
    var n := |weights|;
    var first :| first in weights.Keys;
    var size := |weights[first]|;
    var trimCount := TrimCount(n, beta);
    TrimNonNegative(n, beta);
    var ids, vectors := ListClients(weights);
    var result := new real[size](_ => 0.0);
    var axisValues := new real[n];
    hide IsTrimmedCoordinate, Enumerates, Uniform, TrimCount;
    for d := 0 to size
      invariant forall k :: 0 <= k < d ==> IsTrimmedCoordinate(weights, trimCount, k, result[k])
    {
      var average := TrimAxis(weights, ids, vectors, dim, d, trimCount, axisValues);
      result[d] := average;
    }
    mean := result[..];
  }

  /** For a fraction below one half the fallback to the full average is never taken. */
  lemma TrimLeavesSome(n: nat, beta: real)
    requires n > 0 && beta < 0.5
    ensures 0 <= TrimCount(n, beta) && 2 * TrimCount(n, beta) < n
    ensures TrimCount(n, beta) as real <= (if beta < 0.0 then 0.0 else beta) * n as real
      < TrimCount(n, beta) as real + 1.0
  {
    TrimNonNegative(n, beta);
    HalfBound(n as real, if beta < 0.0 then 0.0 else beta, TrimCount(n, beta));
  }

  lemma HalfBound(n: real, b: real, t: int)
    requires n > 0.0 && b < 0.5 && t as real <= b * n
    ensures (2 * t) as real < n
  {
    StrictProduct(0.5 - b, n);
    HalfExpand(b, n);
    HalfStep((0.5 - b) * n, b * n, n, t);
  }

  lemma HalfExpand(b: real, n: real)
    ensures (0.5 - b) * n == 0.5 * n - b * n
  {
  }

  lemma HalfStep(p: real, x: real, n: real, t: int)
    requires p > 0.0 && p == 0.5 * n - x && t as real <= x
    ensures (2 * t) as real < n
  {
  }

  /** Every kept value of an axis is bracketed by honest values. */
  lemma KeptValueBracketed(ids: seq<string>, s: set<string>, f: string -> real, bad: set<string>,
                           trim: nat, j: nat, lo: real, hi: real)
    requires Enumerates(ids, s) && |bad| <= trim <= j < |ids| - trim
    requires forall h :: h in s && h !in bad ==> lo <= f(h) <= hi
    ensures |Sort(Values(ids, f))| == |ids| && lo <= Sort(Values(ids, f))[j] <= hi
  {
    var p := SortIds(ids, f);
    SortSorts(Values(ids, f));
    SortIdsValues(ids, f);
    SortIdsPermutes(ids, f);
    PermutationEnumerates(p, ids, s);
    hide Sort, SortIds;
    HonestBelow(p, s, f, bad, j, lo, hi);
    HonestAbove(p, s, f, bad, j, lo, hi);
  }

  /** More than |bad| clients are at or below position j, so an honest one is. */
  lemma HonestBelow(p: seq<string>, s: set<string>, f: string -> real, bad: set<string>, j: nat, lo: real, hi: real)
    requires Enumerates(p, s) && Sorted(Values(p, f)) && |bad| <= j < |p|
    requires forall h :: h in s && h !in bad ==> lo <= f(h) <= hi
    ensures lo <= Values(p, f)[j]
  {
    PrefixEnumerated(p, s, j + 1);
    var h := HonestMember(Prefix(p, j + 1), bad);
    var i :| 0 <= i < j + 1 && p[i] == h;
    assert Values(p, f)[i] <= Values(p, f)[j];
  }

  lemma HonestAbove(p: seq<string>, s: set<string>, f: string -> real, bad: set<string>, j: nat, lo: real, hi: real)
    requires Enumerates(p, s) && Sorted(Values(p, f)) && j < |p| - |bad|
    requires forall h :: h in s && h !in bad ==> lo <= f(h) <= hi
    ensures Values(p, f)[j] <= hi
  {
    var m := |p| - j;
    SuffixEnumerated(p, s, m);
    var h := HonestMember(Prefix(p[j..], m), bad);
    var i :| 0 <= i < m && p[j..][i] == h;
    assert p[j + i] == h;
    assert Values(p, f)[j] <= Values(p, f)[j + i];
  }

  lemma SuffixEnumerated(p: seq<string>, s: set<string>, m: nat)
    requires Enumerates(p, s) && m <= |p|
    ensures |Prefix(p[|p| - m..], m)| == m && Prefix(p[|p| - m..], m) <= s
  {
    var q := p[|p| - m..];
    assert forall i :: 0 <= i < m ==> q[i] == p[|p| - m + i];
    PrefixEnumerated(q, (set x | x in q), m);
    assert q[..m] == q;
  }

  lemma HonestMember(s: set<string>, bad: set<string>) returns (h: string)
    requires |s| > |bad|
    ensures h in s && h !in bad
  {
    if s <= bad {
      SubsetSize(s, bad);
      assert false;
    }
    h :| h in s && h !in bad;
  }

  lemma {:induction false} SubsetSize(a: set<string>, b: set<string>)
    requires a <= b
    ensures |a| <= |b|
    decreases |a|
  {
    if a != {} {
      var x :| x in a;
      SubsetSize(a - {x}, b - {x});
    }
  }

  /** What Trimmed-Mean averages: with t the largest number not above beta times n, and in any order of the clients in
      which the coordinate ascends, n - 2t times the result is the sum of the values at positions t to n - t; if that
      leaves none, n times the result is the sum of all. */
  lemma TrimmedMeanAverages(w: Tensors, beta: real, dim: nat, result: Vec, d: nat, ids: seq<string>, t: nat,
                            values: seq<real>)
    requires Uniform(w, dim) && IsTrimmedMean(w, beta, dim, result) && d < dim && Enumerates(ids, w.Keys)
    requires |values| == |ids| && forall i :: 0 <= i < |ids| ==> values[i] == w[ids[i]][d]
    requires forall i, j :: 0 <= i <= j < |ids| ==> values[i] <= values[j]
    requires IsTrim(t, beta, |w|)
    ensures |values| == |w|
    ensures 2 * t < |w| ==> Times((|w| - 2 * t) as real, result[d]) == Sum(values[t..|w| - t])
    ensures 2 * t >= |w| ==> Times(|w| as real, result[d]) == Sum(values)
  {
    hide IsTrimmedCoordinate, Sort, Sum, TrimmedAverage, TrimCount, Enumerates, IsTrim, Times;
    EnumerationSize(ids, w.Keys);
    TrimCountIs(|w|, beta, t);
    EnumeratedIn(ids, w.Keys);
    AscendingIsSorted(w, d, ids, values);
    hide Uniform;
    CoordinateIs(w, t, d, result[d], ids, values);
    AverageTimes(values, t);
  }

  /** The largest number not above beta times n, for a beta that is not negative. */
  ghost predicate IsTrim(t: nat, beta: real, n: nat) {
    t as real <= (if beta < 0.0 then 0.0 else beta) * n as real < t as real + 1.0
  }

  lemma EnumeratedIn(ids: seq<string>, s: set<string>)
    requires Enumerates(ids, s)
    ensures forall i :: 0 <= i < |ids| ==> ids[i] in s
  {
  }

  lemma TrimCountIs(n: nat, beta: real, t: nat)
    requires IsTrim(t, beta, n)
    ensures TrimCount(n, beta) == t
  {
  }

  lemma AscendingIsSorted(w: Tensors, d: nat, ids: seq<string>, values: seq<real>)
    requires Enumerates(ids, w.Keys) && |values| == |ids|
    requires forall i :: 0 <= i < |ids| ==> d < |w[ids[i]]| && values[i] == w[ids[i]][d]
    requires forall i, j :: 0 <= i <= j < |ids| ==> values[i] <= values[j]
    ensures values == Values(ids, Coordinate(w, d)) && Sort(values) == values
  {
    assert values == Values(ids, Coordinate(w, d));
    SortSorts(values);
    SortedUnique(values, Sort(values));
  }

  lemma CoordinateIs(w: Tensors, t: nat, d: nat, x: real, ids: seq<string>, values: seq<real>)
    requires IsTrimmedCoordinate(w, t, d, x) && Enumerates(ids, w.Keys)
    requires values == Values(ids, Coordinate(w, d)) == Sort(values)
    ensures |values| > 0 && x == TrimmedAverage(values, t)
  {
    hide Sort, TrimmedAverage;
  }

  lemma AverageTimes(values: seq<real>, t: nat)
    requires |values| > 0
    ensures var n := |values|;
      && (2 * t < n ==> Times((n - 2 * t) as real, TrimmedAverage(values, t)) == Sum(values[t..n - t]))
      && (2 * t >= n ==> Times(n as real, TrimmedAverage(values, t)) == Sum(values))
  {
    hide Sum, Times;
    var n := |values|;
    if 2 * t < n {
      TimesQuotient(Sum(values[t..n - t]), (n - 2 * t) as real);
    } else {
      TimesQuotient(Sum(values), n as real);
    }
  }

  lemma TimesQuotient(x: real, n: real)
    requires n != 0.0
    ensures Times(n, x / n) == x
  {
  }

  /** Byzantine resilience per coordinate: with at most beta * n arbitrary clients the result stays between the least
      and the greatest honest value. */
  lemma TrimmedMeanResilient(w: Tensors, beta: real, dim: nat, result: Vec, bad: set<string>, d: nat, lo: real,
                             hi: real)
    requires Uniform(w, dim) && IsTrimmedMean(w, beta, dim, result) && d < dim
    requires beta < 0.5 && |bad| as real <= (if beta < 0.0 then 0.0 else beta) * |w| as real
    requires forall h :: h in w && h !in bad ==> lo <= w[h][d] <= hi
    ensures lo <= result[d] <= hi
  {
    hide IsTrimmedCoordinate, TrimCount;
    BadWithinTrim(|bad|, |w|, beta);
    TrimLeavesSome(|w|, beta);
    TrimmedCoordinateBracketed(w, TrimCount(|w|, beta), result[d], bad, d, lo, hi);
  }

  lemma TrimmedCoordinateBracketed(w: Tensors, trim: nat, x: real, bad: set<string>, d: nat, lo: real, hi: real)
    requires IsTrimmedCoordinate(w, trim, d, x) && |bad| <= trim && 2 * trim < |w|
    requires forall h :: h in w && h !in bad ==> d < |w[h]| && lo <= w[h][d] <= hi
    ensures lo <= x <= hi
  {
    var n, f := |w|, Coordinate(w, d);
    var ids := SomeEnumeration(w.Keys);
    EnumerationSize(ids, w.Keys);
    var axis := Sort(Values(ids, f));
    assert |axis| == n && x == TrimmedAverage(axis, trim);
    hide IsTrimmedCoordinate, Times, Sort, Enumerates;
    var kept := axis[trim..n - trim];
    forall i | 0 <= i < |kept| ensures lo <= kept[i] <= hi {
      KeptValueBracketed(ids, w.Keys, f, bad, trim, trim + i, lo, hi);
    }
    SumBounds(kept, lo, hi);
    AverageBounds(Sum(kept), |kept| as real, lo, hi);
  }

  lemma BadWithinTrim(bad: nat, n: nat, beta: real)
    requires bad as real <= (if beta < 0.0 then 0.0 else beta) * n as real
    ensures bad <= TrimCount(n, beta)
  {
  }

  lemma AverageBounds(sum: real, n: real, lo: real, hi: real)
    requires n > 0.0 && Times(n, lo) <= sum <= Times(n, hi)
    ensures lo <= sum / n <= hi
  {
    var q := sum / n;
    assert n * q == sum;
    CancelFactor(n, lo, q);
    CancelFactor(n, q, hi);
  }

  lemma {:induction false} SomeEnumeration(s: set<string>) returns (ids: seq<string>)
    ensures Enumerates(ids, s)
    decreases |s|
  {
    if s == {} {
      ids := [];
    } else {
      var x :| x in s;
      var rest := SomeEnumeration(s - {x});
      ids := rest + [x];
      assert forall y :: y in s - {x} ==> y in rest;
    }
  }
}
