/** What one attempt does, in the caller's terms: what is held, when it waits, what is published. */
module Attempts {
  import opened Vectors
  import opened Records
  import opened Aggregation
  import opened WeightBuffer
  import opened RoundBuffer
  import KrumRule = Krum

  /** The tensors of a round with one more, and the sizes with one more, each size at least one. */
  ghost predicate JoinsRound(b: Buffer, at: Attempt, clipped: Vec, tensors: Tensors, sizes: map<string, int>) {
    && IsClipped(at.weights, at.cfg.clipNorm, clipped)
    && tensors == (if at.key in b.weights then b.weights[at.key] else map[])[at.client := clipped]
    && sizes == (if at.key in b.sizes then b.sizes[at.key] else map[])[at.client := if at.size > 1 then at.size else 1]
  }

  lemma JoinedIs(b: Buffer, sqrt: real -> real, at: Attempt, clipped: Vec, tensors: Tensors, sizes: map<string, int>)
    requires IsSqrt(sqrt) && JoinsRound(b, at, clipped, tensors, sizes)
    ensures clipped == Clip(sqrt, at.weights, at.cfg.clipNorm)
    ensures tensors == RoundTensors(b, sqrt, at) && sizes == RoundSizes(b, at)
    ensures Received(b, sqrt, at)
      == b.(weights := b.weights[at.key := tensors], sizes := b.sizes[at.key := sizes])
    ensures tensors.Keys == RoundOf(b.weights, at.key).Keys + {at.client} && |tensors| == |tensors.Keys|
  {
    hide Clip, IsClipped;
    ClipExactly(sqrt, at.weights, at.cfg.clipNorm, clipped);
    KeysAfter(RoundOf(b.weights, at.key), at.client, clipped);
  }

  /** What is held after an attempt on an open round: an accepted one adds the clipped tensor and its size to the round
      and changes no other, a refused one leaves the client's out. */
  lemma AttemptHolds(b: Buffer, sqrt: real -> real, y: Try, clipped: Vec, tensors: Tensors, sizes: map<string, int>)
    requires IsSqrt(sqrt) && y.at.key !in b.completed && JoinsRound(b, y.at, clipped, tensors, sizes)
    ensures var r, key := Tried(b, sqrt, y), y.at.key;
      && (r.outcome.accepted ==>
            r.buffer.weights == b.weights[key := tensors] && r.buffer.sizes == b.sizes[key := sizes])
      && (!r.outcome.accepted ==>
            && var left, sizesLeft := tensors - {y.at.client}, sizes - {y.at.client};
            && r.buffer.weights == (if left == map[] then b.weights - {key} else b.weights[key := left])
            && r.buffer.sizes == (if sizesLeft == map[] then b.sizes - {key} else b.sizes[key := sizesLeft]))
  {
    hide Clip, Tried, JoinsRound, RoundTensors, RoundSizes, WithMomentum, FinalWeights;
    JoinedIs(b, sqrt, y.at, clipped, tensors, sizes);
    AddEnds(b, sqrt, y);
    hide Received;
    WithoutPut(b.weights, y.at.key, tensors, y.at.client);
    WithoutPut(b.sizes, y.at.key, sizes, y.at.client);
  }

  lemma WithoutPut<T>(m: map<RoundKey, map<string, T>>, key: RoundKey, round: map<string, T>, client: string)
    ensures Without(m[key := round], key, client)
      == if round - {client} == map[] then m - {key} else m[key := round - {client}]
  {
  }

  /** All tensors are non-empty, of one length, and finite in every coordinate. */
  ghost predicate Sound(tensors: Tensors, finite: real -> bool) {
    && (forall c, d :: c in tensors && d in tensors ==> |tensors[c]| == |tensors[d]| > 0)
    && (forall c, i :: c in tensors && 0 <= i < |tensors[c]| ==> finite(tensors[c][i]))
  }

  /** How an attempt on an open round ends: it waits for as many clients as required, then fails on unsound tensors or
      on a fault of the disk, and otherwise closes the round with what the configured rule makes of its tensors. */
  lemma AttemptEnds(b: Buffer, sqrt: real -> real, finite: real -> bool, y: Try, clipped: Vec, tensors: Tensors,
                    sizes: map<string, int>)
    requires IsSqrt(sqrt) && y.at.key !in b.completed && JoinsRound(b, y.at, clipped, tensors, sizes)
    requires RoundBuffer.Allowed(b, sqrt, finite, y)
    ensures var r, at := Tried(b, sqrt, y), y.at;
      var known := if at.key.scope in b.latest then b.latest[at.key.scope].version else 0;
      && (|tensors| < at.required ==>
            r.outcome == Outcome(true, false, known, Waiting) && r.stage == NotReached)
      && (|tensors| >= at.required && !Sound(tensors, finite) ==>
            r.outcome == Outcome(false, false, known, ValidationFailed(y.verdict)) && r.stage == NotReached
            && y.verdict != Valid)
      && (|tensors| >= at.required && Sound(tensors, finite) && y.fault != NoFault ==>
            r.outcome == Outcome(false, false, known, PersistFailed(y.fault)) && r.stage == Failed(y.fault))
      && (|tensors| >= at.required && Sound(tensors, finite) && y.fault == NoFault ==>
            && r.outcome == Outcome(true, true, y.version, RoundCompleted)
            && r.stage.Published? && r.stage.clients == |tensors|
            && r.buffer.completed == b.completed + {at.key}
            && r.buffer.latest == b.latest[at.key.scope := Snapshot(at.key.round, y.version, r.stage.weights)])
      && (r.stage != NotReached ==>
            && Uniform(tensors, |y.raw|) && |y.raw| > 0
            && (at.cfg.strategy == FedAvg ==> y.raw == Mean(tensors, sizes, |y.raw|))
            && (at.cfg.strategy == Krum ==> KrumRule.IsKrum(tensors, |y.raw|, y.raw))
            && (at.cfg.strategy == TrimmedMean ==> IsTrimmedMean(tensors, at.cfg.beta, |y.raw|, y.raw)))
  {
    hide Clip, JoinsRound, RoundTensors, RoundSizes, Mean, KrumRule.IsKrum, IsTrimmedMean, WellFormed, FinalWeights,
         Smoothed, NewVelocity, UsesMomentum, Removed, Uniform, Buffered, Sound;
    JoinedIs(b, sqrt, y.at, clipped, tensors, sizes);
    SoundIs(tensors, finite, y.at.client);
  }

  lemma SoundIs(tensors: Tensors, finite: real -> bool, client: string)
    requires client in tensors
    ensures |tensors| > 0 && (WellFormed(tensors, finite) <==> Sound(tensors, finite))
  {
    assert |tensors| == |tensors.Keys|;
    if Sound(tensors, finite) {
      forall c | c in tensors ensures |tensors[c]| > 0 && AllFinite(tensors[c], finite) { }
    }
  }

  /** One step of server momentum from the latest model of the scope, if it has the same length and momentum is on: the
      velocity becomes m times itself (nothing, if there is none of that length) plus the way from the latest model to
      the aggregate, and the model moves by the velocity. Otherwise the aggregate is taken as it is. */
  ghost predicate Moves(b: Buffer, scope: Scope, m: real, raw: Vec, velocity: map<Scope, Vec>, moved: Vec) {
    if m > 0.0 && |raw| > 0 && scope in b.latest && |b.latest[scope].weights| == |raw| then
      && |moved| == |raw| && scope in velocity && |velocity[scope]| == |raw|
      && velocity == b.velocity[scope := velocity[scope]]
      && forall i :: 0 <= i < |raw| ==>
        && velocity[scope][i]
          == m * (if scope in b.velocity && |b.velocity[scope]| == |raw| then b.velocity[scope][i] else 0.0)
             + (raw[i] - b.latest[scope].weights[i])
        && moved[i] == b.latest[scope].weights[i] + velocity[scope][i]
    else velocity == b.velocity && moved == raw
  }

  lemma MomentumMoves(b: Buffer, scope: Scope, m: real, raw: Vec)
    ensures Moves(b, scope, m, raw, WithMomentum(b, scope, m, raw).velocity, Smoothed(b, scope, m, raw))
  {
    if UsesMomentum(b, scope, m, raw) {
      var velocity, moved := NewVelocity(b, scope, m, raw), Smoothed(b, scope, m, raw);
      var before := OldVelocity(b, scope, |raw|);
      forall i | 0 <= i < |raw|
        ensures velocity[i] == m * before[i] + (raw[i] - b.latest[scope].weights[i])
        ensures moved[i] == b.latest[scope].weights[i] + velocity[i]
      {
        assert velocity[i] == Sub(raw, b.latest[scope].weights)[i] + Times(before[i], m);
        assert moved[i] == b.latest[scope].weights[i] + Times(velocity[i], 1.0);
      }
    }
  }

  /** What an attempt publishes: the aggregate after one step of momentum; with privacy on, noise is added to every
      coordinate and the sum is clipped again. */
  lemma AttemptPublishes(b: Buffer, sqrt: real -> real, y: Try) returns (moved: Vec)
    requires IsSqrt(sqrt) && Tried(b, sqrt, y).stage.Published?
    ensures var r, cfg := Tried(b, sqrt, y), y.at.cfg;
      && Moves(b, y.at.key.scope, cfg.momentum, y.raw, r.buffer.velocity, moved) && |moved| == |y.raw|
      && (cfg.dpEpsilon > 0.0 && 0.0 < cfg.dpDelta < 1.0 ==>
            IsClipped(seq(|moved|, i requires 0 <= i < |moved| => moved[i] + y.noise(i)), cfg.clipNorm,
                      r.stage.weights))
      && (cfg.dpEpsilon <= 0.0 || cfg.dpDelta <= 0.0 || cfg.dpDelta >= 1.0 ==> r.stage.weights == moved)
  {
    hide Tried, Clip, IsClipped, FinalWeights, WithMomentum, Smoothed;
    var s, m, scope := Received(b, sqrt, y.at), y.at.cfg.momentum, y.at.key.scope;
    moved := Smoothed(s, scope, m, y.raw);
    AddEnds(b, sqrt, y);
    MomentumMoves(s, scope, m, y.raw);
    SameMoves(s, b, scope, m, y.raw, WithMomentum(s, scope, m, y.raw).velocity, moved);
    assert |RoundOf(s.weights, y.at.key)| > 0;
    hide Moves;
    FinalIs(y.at, sqrt, s, y.raw, y.noise);
  }

  lemma SameMoves(s: Buffer, b: Buffer, scope: Scope, m: real, raw: Vec, velocity: map<Scope, Vec>, moved: Vec)
    requires s.latest == b.latest && s.velocity == b.velocity && Moves(s, scope, m, raw, velocity, moved)
    ensures Moves(b, scope, m, raw, velocity, moved) && |moved| == |raw|
  {
  }

  lemma FinalIs(at: Attempt, sqrt: real -> real, s: Buffer, raw: Vec, noise: nat -> real)
    requires IsSqrt(sqrt) && |RoundOf(s.weights, at.key)| > 0
    ensures var moved, cfg, r := Smoothed(s, at.key.scope, at.cfg.momentum, raw), at.cfg,
        FinalWeights(at, sqrt, s, raw, noise);
      && (cfg.dpEpsilon > 0.0 && 0.0 < cfg.dpDelta < 1.0 ==>
            IsClipped(seq(|moved|, i requires 0 <= i < |moved| => moved[i] + noise(i)), cfg.clipNorm, r))
      && (cfg.dpEpsilon <= 0.0 || cfg.dpDelta <= 0.0 || cfg.dpDelta >= 1.0 ==> r == moved)
  {
    hide Smoothed, Clip, IsClipped;
    var moved := Smoothed(s, at.key.scope, at.cfg.momentum, raw);
    var noisy := Noisy(moved, noise);
    ClipExactly(sqrt, noisy, at.cfg.clipNorm, Clip(sqrt, noisy, at.cfg.clipNorm));
    assert noisy == seq(|moved|, i requires 0 <= i < |moved| => moved[i] + noise(i));
  }

  /** A round that is closed takes nothing more. */
  lemma ClosedRefuses(b: Buffer, sqrt: real -> real, y: Try)
    requires y.at.key in b.completed
    ensures var r := Tried(b, sqrt, y);
      && r.buffer == b && r.stage == NotReached && r.outcome.message == AlreadyAggregated
      && !r.outcome.accepted && !r.outcome.aggregated
      && r.outcome.modelVersion == (if y.at.key.scope in b.latest then b.latest[y.at.key.scope].version else 0)
  {
  }
}
