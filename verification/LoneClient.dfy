/** A round of one client: under every rule its clipped tensor is the aggregate. */
module LoneClient {
  import opened Basics
  import opened ByteStrings
  import opened Vectors
  import opened Sums
  import opened Sorting
  import opened Records
  import opened Aggregation
  import opened StateStore
  import opened WeightBuffer
  import opened FederatedService
  import opened Steps
  import KrumRule = Krum

  lemma UnitNorm(x: real)
    ensures NormSq([x]) == x * x
  {
    assert [x][..0] == [];
    assert Dot([x][..0], [x][..0]) == 0.0;
  }

  /** Every client sent the same one coordinate. */
  ghost predicate AllEqual(w: Tensors, x: real) {
    w != map[] && forall k :: k in w ==> w[k] == [x]
  }

  lemma EqualMean(w: Tensors, sizes: map<string, int>, x: real)
    requires AllEqual(w, x) && sizes.Keys == w.Keys
    ensures |w| > 0 && Mean(w, sizes, 1) == [x]
  {
    NonEmpty(w);
    SharesSumToOne(w, sizes);
    EqualTerms(w, sizes, x);
    hide Times, SetSum, Factor, PartialMean;
    SetSumScale(w.Keys, FactorTerm(w, sizes), CoordinateTerm(w, sizes, 0), x);
    MeanAt(w, sizes, 1, 0);
    OneTimes(x);
    MeanLength(w, sizes);
  }

  lemma EqualTerms(w: Tensors, sizes: map<string, int>, x: real)
    requires AllEqual(w, x) && |w| > 0
    ensures forall k :: k in w.Keys ==> CoordinateTerm(w, sizes, 0)(k) == Times(FactorTerm(w, sizes)(k), x)
  {
    hide Factor;
    forall k | k in w.Keys ensures CoordinateTerm(w, sizes, 0)(k) == Times(FactorTerm(w, sizes)(k), x) {
      assert w[k][0] == x;
    }
  }

  lemma OneTimes(x: real)
    ensures Times(1.0, x) == x
  {
  }

  lemma MeanLength(w: Tensors, sizes: map<string, int>)
    requires |w| > 0
    ensures |Mean(w, sizes, 1)| == 1
  {
  }

  lemma NonEmpty(w: Tensors)
    requires w != map[]
    ensures |w| > 0
  {
  }

  lemma EqualTrimmedMean(w: Tensors, beta: real, x: real)
    requires AllEqual(w, x) && 0.0 <= beta < 0.5
    ensures IsTrimmedMean(w, beta, 1, [x])
  {
    NonEmpty(w);
    var n, trim, f := |w|, TrimCount(|w|, beta), Coordinate(w, 0);
    TrimLeavesSome(n, beta);
    forall ids | Enumerates(ids, w.Keys)
      ensures |Sort(Values(ids, f))| == n && x == TrimmedAverage(Sort(Values(ids, f)), trim)
    {
      EnumerationSize(ids, w.Keys);
      SortSorts(Values(ids, f));
      var axis := Sort(Values(ids, f));
      EqualSorted(ids, w, x);
      var kept := axis[trim..n - trim];
      forall i | 0 <= i < |kept| ensures kept[i] == x {
        assert axis[trim + i] in axis;
      }
      SumBounds(kept, x, x);
      AverageBounds(Sum(kept), |kept| as real, x, x);
    }
  }

  lemma EqualSorted(ids: seq<string>, w: Tensors, x: real)
    requires AllEqual(w, x) && Enumerates(ids, w.Keys)
    ensures forall v :: v in Sort(Values(ids, Coordinate(w, 0))) ==> v == x
  {
    var values := Values(ids, Coordinate(w, 0));
    SortSorts(values);
    forall v | v in Sort(values) ensures v == x {
      assert v in multiset(Sort(values));
      assert v in multiset(values);
      var i :| 0 <= i < |values| && values[i] == v;
      assert ids[i] in w.Keys;
    }
  }

  /** Of one or two clients that sent the same coordinate that is the aggregate, whatever the rule. */
  lemma EqualIsAggregated(finite: real -> bool, cfg: Config, w: Tensors, sizes: map<string, int>)
    requires ValidConfig(cfg) && finite(cfg.clipNorm) && AllEqual(w, cfg.clipNorm) && sizes.Keys == w.Keys && |w| <= 2
    ensures |w| > 0 && WellFormed(w, finite) && IsAggregate(cfg, w, sizes, [cfg.clipNorm])
  {
    EqualMean(w, sizes, cfg.clipNorm);
    EqualMean(w, KrumRule.EqualSizes(w), cfg.clipNorm);
    EqualTrimmedMean(w, cfg.beta, cfg.clipNorm);
    hide Mean, IsTrimmedMean;
  }

  lemma LoneIsAggregated(client: string, finite: real -> bool, cfg: Config, w: Tensors, sizes: map<string, int>)
    requires ValidConfig(cfg) && finite(cfg.clipNorm)
    requires w == map[client := [cfg.clipNorm]] && sizes == map[client := 1]
    ensures |w| > 0 && WellFormed(w, finite) && IsAggregate(cfg, w, sizes, [cfg.clipNorm])
  {
    assert client in w;
    assert w.Keys == {client} == sizes.Keys && |w| == |w.Keys|;
    EqualIsAggregated(finite, cfg, w, sizes);
    hide WellFormed, IsAggregate;
  }

  // ----- A submission that fills its round alone -----

  /** One coordinate of just the clipping norm, sent as these bytes. */
  function LoneSubmission(sub: Submission, cfg: Config, bytes: Bytes, iv: Bytes, fault: Fault, now: Time): Step {
    Submits(Request(sub, 1, true, true, Some(bytes)), Env(now, cfg, iv, _ => 0.0, fault), [cfg.clipNorm], Valid)
  }

  /** The configuration clips, and the bytes are those of a vector of that norm. */
  ghost predicate Sendable(p: Setup, cfg: Config, bytes: Bytes) {
    && IsSqrt(p.sqrt) && ValidConfig(cfg) && cfg.clipNorm > 0.0 && p.finite(cfg.clipNorm)
    && |bytes| % 4 == 0 && p.codec.fromBytes(bytes) == [cfg.clipNorm]
  }

  /** The round holds at most one tensor, and that is the same. */
  ghost predicate EqualSoFar(b: Buffer, key: RoundKey, client: string, c: real) {
    var w, sizes := RoundOf(b.weights, key), RoundOf(b.sizes, key);
    && w.Keys == sizes.Keys && |w| <= 1 && client !in w && forall k :: k in w ==> w[k] == [c]
  }

  /** What one more equal tensor makes of the round. */
  lemma EqualJoins(p: Setup, w: World, sub: Submission, cfg: Config, bytes: Bytes, iv: Bytes, fault: Fault, now: Time)
    requires var s := LoneSubmission(sub, cfg, bytes, iv, fault, now);
      Sendable(p, cfg, bytes) && EqualSoFar(w.buffer, KeyOf(s.req), sub.client, cfg.clipNorm)
    ensures var s := LoneSubmission(sub, cfg, bytes, iv, fault, now);
      var at := AttemptOn(p, w, s);
      var tensors, sizes := RoundTensors(w.buffer, p.sqrt, at), RoundSizes(w.buffer, at);
      && at.key == KeyOf(s.req) && at.client == sub.client && at.required == Required(p, w.tables, KeyOf(s.req).scope)
      && Clip(p.sqrt, at.weights, at.cfg.clipNorm) == [cfg.clipNorm]
      && AllEqual(tensors, cfg.clipNorm) && sizes.Keys == tensors.Keys
      && |RoundOf(w.buffer.weights, at.key).Keys + {at.client}| == |tensors|
      && |tensors| == |RoundOf(w.buffer.weights, at.key)| + 1 <= 2
  {
    hide Required, Clip, NormSq;
    var s := LoneSubmission(sub, cfg, bytes, iv, fault, now);
    var at, c := AttemptOn(p, w, s), cfg.clipNorm;
    UnitNorm(c);
    ClipIdentity(p.sqrt, [c], c);
    var old', tensors := RoundOf(w.buffer.weights, at.key), RoundTensors(w.buffer, p.sqrt, at);
    assert tensors == old'[sub.client := [c]];
    assert tensors.Keys == old'.Keys + {sub.client} && |tensors| == |tensors.Keys| && |old'| == |old'.Keys|;
  }

  /** With as many as are asked for it fills the round, under every rule; otherwise it does not reach aggregation. */
  lemma EqualFills(p: Setup, w: World, sub: Submission, cfg: Config, bytes: Bytes, iv: Bytes, fault: Fault, now: Time)
    requires var s := LoneSubmission(sub, cfg, bytes, iv, fault, now);
      Sendable(p, cfg, bytes) && Screened(w, s) && EqualSoFar(w.buffer, KeyOf(s.req), sub.client, cfg.clipNorm)
    ensures var s := LoneSubmission(sub, cfg, bytes, iv, fault, now);
      && Plausible(p, w, s.req, s.env, s.raw, s.verdict)
      && (Fills(p, w, s) <==>
          Required(p, w.tables, KeyOf(s.req).scope) <= |RoundOf(w.buffer.weights, KeyOf(s.req))| + 1)
  {
    hide Screen, Required, Clip, IsAggregate, WellFormed, NormSq, AllEqual;
    var s := LoneSubmission(sub, cfg, bytes, iv, fault, now);
    var at := AttemptOn(p, w, s);
    ScreenedIsNew(w, s);
    EqualJoins(p, w, sub, cfg, bytes, iv, fault, now);
    EqualIsAggregated(p.finite, cfg, RoundTensors(w.buffer, p.sqrt, at), RoundSizes(w.buffer, at));
    hide RoundTensors, RoundSizes;
  }

  /** If one client is enough and no tensor is there yet, it fills the round, under every rule. */
  lemma LoneFills(p: Setup, w: World, sub: Submission, cfg: Config, bytes: Bytes, iv: Bytes, fault: Fault, now: Time)
    requires var s := LoneSubmission(sub, cfg, bytes, iv, fault, now);
      Sendable(p, cfg, bytes) && Screened(w, s) && Required(p, w.tables, KeyOf(s.req).scope) <= 1
    requires var key := KeyOf(LoneSubmission(sub, cfg, bytes, iv, fault, now).req);
      key !in w.buffer.weights && key !in w.buffer.sizes
    ensures var s := LoneSubmission(sub, cfg, bytes, iv, fault, now);
      Fills(p, w, s) && Plausible(p, w, s.req, s.env, s.raw, s.verdict)
  {
    hide Screen, Required, Fills, Plausible, Sendable;
    EqualFills(p, w, sub, cfg, bytes, iv, fault, now);
  }
}
