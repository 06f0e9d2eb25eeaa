/** What every attempt keeps of the round buffer, over any run of attempts. */
module RoundBuffer {
  import opened Basics
  import opened Vectors
  import opened Records
  import opened Aggregation
  import opened WeightBuffer
  import KrumRule = Krum

  // ----- The two maps of a round -----

  /** Weights and dataset sizes are kept for the same rounds and the same clients, and no empty round is kept. */
  ghost predicate MapsAgree(b: Buffer) {
    && b.weights.Keys == b.sizes.Keys
    && forall key :: key in b.weights ==> b.weights[key].Keys == b.sizes[key].Keys && b.weights[key] != map[]
  }

  /** One attempt with everything the outside world contributes to it. */
  datatype Try = Try(at: Attempt, raw: Vec, verdict: Validation, noise: nat -> real, fault: Fault, version: int)

  function Tried(b: Buffer, sqrt: real -> real, y: Try): AddEffect {
    Add(b, sqrt, y.at, y.raw, y.verdict, y.noise, y.fault, y.version)
  }

  ghost predicate Allowed(b: Buffer, sqrt: real -> real, finite: real -> bool, y: Try) {
    Aggregates(b, sqrt, y.at, finite, y.raw, y.verdict)
  }

  function Received(b: Buffer, sqrt: real -> real, at: Attempt): Buffer {
    Buffered(b, at, Clip(sqrt, at.weights, at.cfg.clipNorm))
  }

  /** The four ways an attempt ends. */
  ghost predicate Ignored(b: Buffer, y: Try, e: AddEffect) {
    y.at.key in b.completed && e.buffer == b && !e.outcome.accepted && !e.outcome.aggregated && e.stage == NotReached
  }

  ghost predicate Waits(b: Buffer, sqrt: real -> real, y: Try, e: AddEffect) {
    && y.at.key !in b.completed && e.buffer == Received(b, sqrt, y.at)
    && |e.buffer.weights[y.at.key]| < Max(1, y.at.required)
    && e.outcome.accepted && !e.outcome.aggregated && e.stage == NotReached && e.outcome.message == Waiting
  }

  ghost predicate TakenBack(b: Buffer, sqrt: real -> real, y: Try, e: AddEffect) {
    var s := Received(b, sqrt, y.at);
    && y.at.key !in b.completed && |s.weights[y.at.key]| >= Max(1, y.at.required)
    && e.buffer.weights == Without(s.weights, y.at.key, y.at.client)
    && e.buffer.sizes == Without(s.sizes, y.at.key, y.at.client)
    && e.buffer.completed == b.completed && e.buffer.latest == b.latest
    && (e.buffer.velocity == b.velocity
        || (y.verdict == Valid
            && e.buffer.velocity == WithMomentum(s, y.at.key.scope, y.at.cfg.momentum, y.raw).velocity))
    && !e.outcome.accepted && !e.outcome.aggregated && !e.stage.Published?
  }

  ghost predicate Publishes(b: Buffer, sqrt: real -> real, y: Try, e: AddEffect) {
    var s := Received(b, sqrt, y.at);
    && y.at.key !in b.completed && |s.weights[y.at.key]| >= Max(1, y.at.required) && y.verdict == Valid
    && e.stage == Published(FinalWeights(y.at, sqrt, s, y.raw, y.noise), |s.weights[y.at.key]|)
    && e.buffer.weights == s.weights && e.buffer.sizes == s.sizes
    && e.buffer.completed == b.completed + {y.at.key}
    && e.buffer.latest == b.latest[y.at.key.scope := Snapshot(y.at.key.round, y.version, e.stage.weights)]
    && e.buffer.velocity == WithMomentum(s, y.at.key.scope, y.at.cfg.momentum, y.raw).velocity
    && e.outcome.accepted && e.outcome.aggregated && e.outcome.modelVersion == y.version
  }

  lemma AddEnds(b: Buffer, sqrt: real -> real, y: Try)
    ensures var e := Tried(b, sqrt, y);
      Ignored(b, y, e) || Waits(b, sqrt, y, e) || TakenBack(b, sqrt, y, e) || Publishes(b, sqrt, y, e)
  {
    hide Clip, FinalWeights, Without, RoundOf, Close;
    if y.at.key !in b.completed && |Received(b, sqrt, y.at).weights[y.at.key]| >= Max(1, y.at.required) {
      CloseEnds(b, sqrt, y);
    }
  }

  /** A full round is taken back or published. */
  lemma CloseEnds(b: Buffer, sqrt: real -> real, y: Try)
    requires var s := Received(b, sqrt, y.at);
      y.at.key !in b.completed && |s.weights[y.at.key]| >= Max(1, y.at.required)
    ensures var e := Close(Received(b, sqrt, y.at), sqrt, y.at, y.raw, y.verdict, y.noise, y.fault, y.version);
      TakenBack(b, sqrt, y, e) || Publishes(b, sqrt, y, e)
  {
    hide Clip, FinalWeights, Without, NewVelocity, UsesMomentum;
  }

  lemma BufferedAgree(b: Buffer, at: Attempt, clipped: Vec)
    requires MapsAgree(b)
    ensures MapsAgree(Buffered(b, at, clipped))
  {
    var r := Buffered(b, at, clipped);
    assert r.weights[at.key].Keys == RoundOf(b.weights, at.key).Keys + {at.client} == r.sizes[at.key].Keys;
    assert at.client in r.weights[at.key];
  }

  lemma RemovedAgree(b: Buffer, key: RoundKey, client: string)
    requires MapsAgree(b)
    ensures MapsAgree(Removed(b, key, client))
  {
    var r := Removed(b, key, client);
    if key in b.weights {
      var w, s := b.weights[key] - {client}, b.sizes[key] - {client};
      assert w.Keys == b.weights[key].Keys - {client} == s.Keys;
      assert w == map[] <==> w.Keys == {};
      assert s == map[] <==> s.Keys == {};
    }
  }

  lemma AddKeepsMapsAgree(b: Buffer, sqrt: real -> real, y: Try)
    requires MapsAgree(b)
    ensures MapsAgree(Tried(b, sqrt, y).buffer)
  {
    hide Tried, Clip, FinalWeights, WithMomentum;
    AddEnds(b, sqrt, y);
    BufferedAgree(b, y.at, Clip(sqrt, y.at.weights, y.at.cfg.clipNorm));
    RemovedAgree(Received(b, sqrt, y.at), y.at.key, y.at.client);
    hide Buffered, Without;
  }

  // ----- Taking a submission back -----

  lemma WithoutUndoes<T>(m: map<RoundKey, map<string, T>>, key: RoundKey, client: string, x: T)
    requires key in m ==> m[key] != map[]
    ensures Without(m[key := RoundOf(m, key)[client := x]], key, client) == m <==> client !in RoundOf(m, key)
  {
    var round := RoundOf(m, key);
    var m' := m[key := round[client := x]];
    var rest := m'[key] - {client};
    var r := Without(m', key, client);
    if client !in round {
      assert rest == round;
      if key in m {
        assert r == m;
      } else {
        assert r == m' - {key} == m;
      }
    } else {
      assert RoundOf(r, key) == rest && client !in rest;
    }
  }

  /** A refused attempt on an open round gives back the completed rounds and the latest models, and it gives
      back the round's maps exactly when the client had not submitted to the round before. */
  lemma FailedAttemptRestores(b: Buffer, sqrt: real -> real, y: Try)
    requires MapsAgree(b) && y.at.key !in b.completed && !Tried(b, sqrt, y).outcome.accepted
    ensures var r := Tried(b, sqrt, y).buffer;
      && r.completed == b.completed && r.latest == b.latest
      && (r.weights == b.weights && r.sizes == b.sizes <==> y.at.client !in RoundOf(b.weights, y.at.key))
      && (forall s :: s != y.at.key.scope ==> (s in r.velocity <==> s in b.velocity))
      && (forall s :: s != y.at.key.scope && s in b.velocity ==> r.velocity[s] == b.velocity[s])
  {
    hide Tried, Clip, FinalWeights, NewVelocity, Without;
    AddEnds(b, sqrt, y);
    WithoutUndoes(b.weights, y.at.key, y.at.client, Clip(sqrt, y.at.weights, y.at.cfg.clipNorm));
    WithoutUndoes(b.sizes, y.at.key, y.at.client, Max(1, y.at.size));
  }

  // ----- When a round closes -----

  /** With one fixed threshold: open rounds are below it, closed rounds stand exactly at it. */
  ghost predicate AtThreshold(b: Buffer, threshold: nat) {
    && (forall key :: key in b.completed ==> |RoundOf(b.weights, key)| == threshold)
    && (forall key :: key !in b.completed ==> |RoundOf(b.weights, key)| < threshold)
  }

  lemma GrowsByAtMostOne<T>(m: map<string, T>, client: string, x: T)
    ensures |m| <= |m[client := x]| <= |m| + 1
    ensures |m[client := x] - {client}| <= |m|
    ensures client in m ==> |m[client := x]| == |m|
  {
    assert m[client := x].Keys == m.Keys + {client};
    var rest := m[client := x] - {client};
    assert rest.Keys == m.Keys - {client};
    assert |m.Keys| == |m| && |rest.Keys| == |rest|;
    if client in m { assert m.Keys + {client} == m.Keys; }
  }

  lemma AddKeepsThreshold(b: Buffer, sqrt: real -> real, y: Try)
    requires AtThreshold(b, Max(1, y.at.required))
    ensures AtThreshold(Tried(b, sqrt, y).buffer, Max(1, y.at.required))
  {
    hide Tried, Clip, FinalWeights, WithMomentum, Without;
    AddEnds(b, sqrt, y);
    var at, key := y.at, y.at.key;
    var e, s := Tried(b, sqrt, y), Received(b, sqrt, at);
    GrowsByAtMostOne(RoundOf(b.weights, key), at.client, Clip(sqrt, at.weights, at.cfg.clipNorm));
    RoundWithout(s.weights, key, at.client);
    forall k | k != key ensures RoundOf(e.buffer.weights, k) == RoundOf(b.weights, k) {
      assert RoundOf(s.weights, k) == RoundOf(b.weights, k);
    }
  }

  lemma RoundWithout<T>(m: map<RoundKey, map<string, T>>, key: RoundKey, client: string)
    ensures RoundOf(Without(m, key, client), key) == RoundOf(m, key) - {client}
    ensures forall k :: k != key ==> RoundOf(Without(m, key, client), k) == RoundOf(m, k)
  {
  }

  /** Under a fixed threshold no client that already submitted can be taken back: it only replaces its own tensor. */
  lemma ResubmissionOnlyWaits(b: Buffer, sqrt: real -> real, y: Try)
    requires AtThreshold(b, Max(1, y.at.required)) && y.at.key !in b.completed
    requires y.at.client in RoundOf(b.weights, y.at.key)
    ensures Tried(b, sqrt, y).outcome.message == Waiting
  {
    GrowsByAtMostOne(RoundOf(b.weights, y.at.key), y.at.client, Clip(sqrt, y.at.weights, y.at.cfg.clipNorm));
  }

  /** A closed round is frozen, and every attempt leaves the other rounds alone. */
  lemma OtherRoundsFrozen(b: Buffer, sqrt: real -> real, y: Try, key: RoundKey)
    requires key in b.completed || key != y.at.key
    ensures RoundOf(Tried(b, sqrt, y).buffer.weights, key) == RoundOf(b.weights, key)
    ensures RoundOf(Tried(b, sqrt, y).buffer.sizes, key) == RoundOf(b.sizes, key)
    ensures key in b.completed ==> key in Tried(b, sqrt, y).buffer.completed
  {
    hide Tried, Clip, FinalWeights, WithMomentum, Without, Received, RoundOf, Ignored, Waits, TakenBack, Publishes;
    AddEnds(b, sqrt, y);
    if key in b.completed && key == y.at.key {
      IgnoredIsSame(b, sqrt, y);
    } else {
      OtherRoundKept(b, sqrt, y, key);
    }
  }

  lemma IgnoredIsSame(b: Buffer, sqrt: real -> real, y: Try)
    requires y.at.key in b.completed
    ensures Tried(b, sqrt, y).buffer == b
  {
  }

  lemma OtherRoundKept(b: Buffer, sqrt: real -> real, y: Try, key: RoundKey)
    requires key != y.at.key
    ensures RoundOf(Tried(b, sqrt, y).buffer.weights, key) == RoundOf(b.weights, key)
    ensures RoundOf(Tried(b, sqrt, y).buffer.sizes, key) == RoundOf(b.sizes, key)
    ensures key in b.completed ==> key in Tried(b, sqrt, y).buffer.completed
  {
    hide Tried, Clip, FinalWeights, WithMomentum, Without;
    AddEnds(b, sqrt, y);
    var s := Received(b, sqrt, y.at);
    assert RoundOf(s.weights, key) == RoundOf(b.weights, key) && RoundOf(s.sizes, key) == RoundOf(b.sizes, key);
    RoundWithout(s.weights, y.at.key, y.at.client);
    RoundWithout(s.sizes, y.at.key, y.at.client);
    hide Received, RoundOf;
  }

  // ----- Runs of attempts -----

  ghost function Run(b: Buffer, sqrt: real -> real, ys: seq<Try>): Buffer {
    if |ys| == 0 then b else Tried(Run(b, sqrt, ys[..|ys| - 1]), sqrt, ys[|ys| - 1]).buffer
  }

  /** How often a round was aggregated along a run. */
  ghost function TimesAggregated(b: Buffer, sqrt: real -> real, ys: seq<Try>, key: RoundKey): nat {
    if |ys| == 0 then 0
    else
      var y := ys[|ys| - 1];
      var before := TimesAggregated(b, sqrt, ys[..|ys| - 1], key);
      if y.at.key == key && Tried(Run(b, sqrt, ys[..|ys| - 1]), sqrt, y).outcome.aggregated then before + 1 else before
  }

  /** A round is aggregated at most once, and exactly once if it ends up completed. */
  lemma {:induction false} AggregatedOnce(b: Buffer, sqrt: real -> real, ys: seq<Try>, key: RoundKey)
    requires key !in b.completed
    ensures TimesAggregated(b, sqrt, ys, key) == if key in Run(b, sqrt, ys).completed then 1 else 0
  {
    if |ys| > 0 {
      AggregatedOnce(b, sqrt, ys[..|ys| - 1], key);
      hide Tried, Received;
      AddEnds(Run(b, sqrt, ys[..|ys| - 1]), sqrt, ys[|ys| - 1]);
    }
  }

  /** Over every run with one threshold, the maps agree and rounds close exactly at the threshold. */
  lemma {:induction false} RunKeepsProtocol(sqrt: real -> real, ys: seq<Try>, required: int)
    requires forall i :: 0 <= i < |ys| ==> ys[i].at.required == required
    ensures MapsAgree(Run(EMPTY_BUFFER, sqrt, ys))
    ensures AtThreshold(Run(EMPTY_BUFFER, sqrt, ys), Max(1, required))
  {
    if |ys| > 0 {
      var p, y := ys[..|ys| - 1], ys[|ys| - 1];
      RunKeepsProtocol(sqrt, p, required);
      AddKeepsMapsAgree(Run(EMPTY_BUFFER, sqrt, p), sqrt, y);
      AddKeepsThreshold(Run(EMPTY_BUFFER, sqrt, p), sqrt, y);
    }
  }

  // ----- Norms -----

  /** Every published model respects the clipping norm, whatever the rule, the momentum and the noise. */
  lemma PublishedNorm(b: Buffer, sqrt: real -> real, y: Try)
    requires IsSqrt(sqrt) && ValidConfig(y.at.cfg) && y.at.cfg.clipNorm > 0.0
    requires Tried(b, sqrt, y).stage.Published?
    ensures NormSq(Tried(b, sqrt, y).stage.weights) <= y.at.cfg.clipNorm * y.at.cfg.clipNorm
    ensures Tried(b, sqrt, y).buffer.latest[y.at.key.scope].weights == Tried(b, sqrt, y).stage.weights
  {
    hide Tried, Clip, NormSq, Without, Smoothed, Noisy, WithMomentum;
    AddEnds(b, sqrt, y);
    var s := Received(b, sqrt, y.at);
    assert |RoundOf(s.weights, y.at.key)| > 0;
    ClipNorm(sqrt, Noisy(Smoothed(s, y.at.key.scope, y.at.cfg.momentum, y.raw), y.noise), y.at.cfg.clipNorm);
  }

  /** All buffered tensors have squared norm at most s. */
  ghost predicate TensorsBounded(b: Buffer, s: real) {
    forall key :: key in b.weights ==> AllNormsAtMost(b.weights[key], s)
  }

  lemma AddKeepsBounded(b: Buffer, sqrt: real -> real, y: Try, s: real)
    requires TensorsBounded(b, s) && NormSq(Clip(sqrt, y.at.weights, y.at.cfg.clipNorm)) <= s
    ensures TensorsBounded(Tried(b, sqrt, y).buffer, s)
    ensures AllNormsAtMost(RoundTensors(b, sqrt, y.at), s)
  {
    hide Tried, Clip, NormSq, WithMomentum, FinalWeights;
    AddEnds(b, sqrt, y);
    assert AllNormsAtMost(RoundOf(b.weights, y.at.key), s);
    assert AllNormsAtMost(RoundTensors(b, sqrt, y.at), s);
    assert TensorsBounded(Received(b, sqrt, y.at), s);
    WithoutClipped(Received(b, sqrt, y.at).weights, y.at.key, y.at.client, s);
  }

  /** All buffered tensors are clipped. */
  ghost predicate TensorsClipped(b: Buffer, c: real) {
    TensorsBounded(b, c * c)
  }

  lemma AddKeepsClipped(b: Buffer, sqrt: real -> real, y: Try)
    requires IsSqrt(sqrt) && y.at.cfg.clipNorm > 0.0 && TensorsClipped(b, y.at.cfg.clipNorm)
    ensures TensorsClipped(Tried(b, sqrt, y).buffer, y.at.cfg.clipNorm)
    ensures AllNormsAtMost(RoundTensors(b, sqrt, y.at), y.at.cfg.clipNorm * y.at.cfg.clipNorm)
  {
    ClipNorm(sqrt, y.at.weights, y.at.cfg.clipNorm);
    AddKeepsBounded(b, sqrt, y, y.at.cfg.clipNorm * y.at.cfg.clipNorm);
  }

  lemma WithoutClipped(m: map<RoundKey, Tensors>, key: RoundKey, client: string, s: real)
    requires forall k :: k in m ==> AllNormsAtMost(m[k], s)
    ensures forall k :: k in Without(m, key, client) ==> AllNormsAtMost(Without(m, key, client)[k], s)
  {
    hide NormSq;
  }

  /** The raw FedAvg of clipped tensors already respects the norm. */
  lemma RawFedAvgNorm(b: Buffer, sqrt: real -> real, finite: real -> bool, y: Try)
    requires IsSqrt(sqrt) && MapsAgree(b) && y.at.cfg.clipNorm > 0.0 && TensorsClipped(b, y.at.cfg.clipNorm)
    requires Allowed(b, sqrt, finite, y) && Reaches(b, y.at) && y.verdict == Valid && y.at.cfg.strategy == FedAvg
    ensures NormSq(y.raw) <= y.at.cfg.clipNorm * y.at.cfg.clipNorm
  {
    AddKeepsClipped(b, sqrt, y);
    RoundKeysAgree(b, sqrt, y.at);
    FedAvgNorm(RoundTensors(b, sqrt, y.at), RoundSizes(b, y.at), |y.raw|, y.at.cfg.clipNorm * y.at.cfg.clipNorm);
  }

  lemma RoundKeysAgree(b: Buffer, sqrt: real -> real, at: Attempt)
    requires MapsAgree(b)
    ensures RoundTensors(b, sqrt, at).Keys == RoundSizes(b, at).Keys && |RoundTensors(b, sqrt, at)| > 0
  {
    hide Clip;
    KeysAfter(RoundOf(b.weights, at.key), at.client, Clip(sqrt, at.weights, at.cfg.clipNorm));
    KeysAfter(RoundOf(b.sizes, at.key), at.client, Max(1, at.size));
  }

  lemma KeysAfter<T>(m: map<string, T>, client: string, x: T)
    ensures m[client := x].Keys == m.Keys + {client} && |m[client := x]| == |m.Keys + {client}| > 0
  {
    assert client in m[client := x];
    assert m[client := x].Keys == m.Keys + {client};
    assert |m[client := x]| == |m[client := x].Keys|;
  }

  /** Whatever the rule, every coordinate of the raw aggregate of clipped tensors lies in [-c, c]. */
  lemma RawWithin(b: Buffer, sqrt: real -> real, finite: real -> bool, y: Try)
    requires IsSqrt(sqrt) && MapsAgree(b) && ValidConfig(y.at.cfg)
    requires y.at.cfg.clipNorm > 0.0 && TensorsClipped(b, y.at.cfg.clipNorm)
    requires Allowed(b, sqrt, finite, y) && Reaches(b, y.at) && y.verdict == Valid
    ensures Within(y.raw, y.at.cfg.clipNorm)
  {
    ClipNorm(sqrt, y.at.weights, y.at.cfg.clipNorm);
    RawBounded(b, sqrt, finite, y, y.at.cfg.clipNorm * y.at.cfg.clipNorm);
  }

  ghost predicate IsSquare(s: real, c: real) {
    s == c * c
  }

  lemma RawBounded(b: Buffer, sqrt: real -> real, finite: real -> bool, y: Try, s: real)
    requires MapsAgree(b) && ValidConfig(y.at.cfg) && y.at.cfg.clipNorm > 0.0
    requires IsSquare(s, y.at.cfg.clipNorm) && TensorsBounded(b, s)
    requires NormSq(Clip(sqrt, y.at.weights, y.at.cfg.clipNorm)) <= s
    requires Allowed(b, sqrt, finite, y) && Reaches(b, y.at) && y.verdict == Valid
    ensures Within(y.raw, y.at.cfg.clipNorm)
  {
    hide AllNormsAtMost, TensorsBounded, NormSq, Clip, RoundTensors, RoundSizes, IsAggregate, WellFormed, ValidConfig,
         IsSquare;
    AddKeepsBounded(b, sqrt, y, s);
    RoundKeysAgree(b, sqrt, y.at);
    AggregateWithin(y.at.cfg, RoundTensors(b, sqrt, y.at), RoundSizes(b, y.at), y.raw, s);
  }

  lemma AggregateWithin(cfg: Config, w: Tensors, sizes: map<string, int>, raw: Vec, s: real)
    requires ValidConfig(cfg) && cfg.clipNorm > 0.0 && |w| > 0 && w.Keys == sizes.Keys
    requires IsSquare(s, cfg.clipNorm) && AllNormsAtMost(w, s) && IsAggregate(cfg, w, sizes, raw)
    ensures Within(raw, cfg.clipNorm)
  {
    hide Mean, KrumRule.IsKrum, IsTrimmedMean, NormSq, AllNormsAtMost;
    var c, dim := cfg.clipNorm, |raw|;
    match cfg.strategy
    case FedAvg =>
      FedAvgNorm(w, sizes, dim, s);
      NormBoundsCoordinates(raw, c);
    case Krum =>
      KrumNorm(w, dim, raw, s);
      NormBoundsCoordinates(raw, c);
    case TrimmedMean =>
      TrimmedWithin(w, cfg.beta, dim, raw, c, s);
  }

  lemma KrumNorm(w: Tensors, dim: nat, raw: Vec, s: real)
    requires Uniform(w, dim) && AllNormsAtMost(w, s) && KrumRule.IsKrum(w, dim, raw)
    ensures NormSq(raw) <= s
  {
    if |w| < 3 {
      FedAvgNorm(w, KrumRule.EqualSizes(w), dim, s);
    } else {
      var c :| KrumRule.Selected(w, c) && raw == w[c];
    }
  }

  lemma TrimmedWithin(w: Tensors, beta: real, dim: nat, raw: Vec, c: real, s: real)
    requires Uniform(w, dim) && 0.0 <= beta < 0.5 && IsTrimmedMean(w, beta, dim, raw)
    requires c > 0.0 && IsSquare(s, c) && AllNormsAtMost(w, s)
    ensures Within(raw, c)
  {
    forall h | h in w ensures Within(w[h], c) {
      NormBoundsCoordinates(w[h], c);
    }
    forall d | 0 <= d < dim ensures -c <= raw[d] <= c {
      TrimmedMeanResilient(w, beta, dim, raw, {}, d, -c, c);
    }
  }
}
