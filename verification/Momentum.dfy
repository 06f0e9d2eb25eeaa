/** Server momentum over unbounded runs: bounded below factor one, unbounded from one on. */
module Momentum {
  import opened Basics
  import opened Vectors
  import opened Sums
  import opened Records
  import opened Aggregation
  import opened WeightBuffer
  import opened RoundBuffer
  import opened LoneClient

  // ----- Bounded below one -----

  /** One coordinate of the velocity update. */
  lemma VelocityStep(v: real, raw: real, latest: real, m: real, c: real, limit: real)
    requires 0.0 <= m < 1.0 && c > 0.0 && Times(1.0 - m, limit) == 2.0 * c
    requires -limit <= v <= limit && -c <= raw <= c && -c <= latest <= c
    ensures -limit <= (raw - latest) + Times(v, m) <= limit
  {
    MulMono(m, v, limit);
    MulMono(m, -limit, v);
    assert m * -limit == -(m * limit);
    assert (1.0 - m) * limit == limit - m * limit;
  }

  /** What keeps the velocity bounded: clipped tensors, published models within the clipping bound, velocities within
      the limit. */
  ghost predicate MomentumInv(b: Buffer, c: real, limit: real) {
    && MapsAgree(b) && TensorsClipped(b, c)
    && (forall s :: s in b.latest ==> Within(b.latest[s].weights, c))
    && (forall s :: s in b.velocity ==> Within(b.velocity[s], limit))
  }

  lemma NewVelocityWithin(b: Buffer, scope: Scope, m: real, raw: Vec, c: real, limit: real)
    requires 0.0 <= m < 1.0 && c > 0.0 && limit >= 0.0 && Times(1.0 - m, limit) == 2.0 * c
    requires UsesMomentum(b, scope, m, raw) && Within(raw, c) && Within(b.latest[scope].weights, c)
    requires forall s :: s in b.velocity ==> Within(b.velocity[s], limit)
    ensures Within(NewVelocity(b, scope, m, raw), limit)
  {
    var old', v := OldVelocity(b, scope, |raw|), NewVelocity(b, scope, m, raw);
    forall i | 0 <= i < |v| ensures -limit <= v[i] <= limit {
      VelocityStep(old'[i], raw[i], b.latest[scope].weights[i], m, c, limit);
      assert v[i] == (raw[i] - b.latest[scope].weights[i]) + Times(old'[i], m);
    }
  }

  lemma AddKeepsMomentum(b: Buffer, sqrt: real -> real, finite: real -> bool, y: Try, limit: real)
    requires IsSqrt(sqrt) && ValidConfig(y.at.cfg) && Allowed(b, sqrt, finite, y)
    requires y.at.cfg.clipNorm > 0.0 && y.at.cfg.momentum < 1.0 && limit >= 0.0
    requires Times(1.0 - y.at.cfg.momentum, limit) == 2.0 * y.at.cfg.clipNorm
    requires MomentumInv(b, y.at.cfg.clipNorm, limit)
    ensures MomentumInv(Tried(b, sqrt, y).buffer, y.at.cfg.clipNorm, limit)
  {
    hide Clip, NormSq, FinalWeights, Without, Times, WithMomentum, TensorsBounded, Allowed, IsSqrt, MapsAgree, Within,
         Tried;
    var c, scope := y.at.cfg.clipNorm, y.at.key.scope;
    var e, s := Tried(b, sqrt, y), Received(b, sqrt, y.at);
    AddEnds(b, sqrt, y);
    AddKeepsMapsAgree(b, sqrt, y);
    AddKeepsClipped(b, sqrt, y);
    if e.stage.Published? {
      PublishedNorm(b, sqrt, y);
      NormBoundsCoordinates(e.stage.weights, c);
    }
    if y.verdict == Valid && !Ignored(b, y, e) && !Waits(b, sqrt, y, e) {
      VelocitiesWithin(b, sqrt, finite, y, limit);
    }
  }

  lemma VelocitiesWithin(b: Buffer, sqrt: real -> real, finite: real -> bool, y: Try, limit: real)
    requires IsSqrt(sqrt) && ValidConfig(y.at.cfg) && Allowed(b, sqrt, finite, y) && y.verdict == Valid
    requires y.at.cfg.clipNorm > 0.0 && y.at.cfg.momentum < 1.0 && limit >= 0.0
    requires Times(1.0 - y.at.cfg.momentum, limit) == 2.0 * y.at.cfg.clipNorm
    requires MomentumInv(b, y.at.cfg.clipNorm, limit) && y.at.key !in b.completed
    requires |Received(b, sqrt, y.at).weights[y.at.key]| >= Max(1, y.at.required)
    ensures var v := WithMomentum(Received(b, sqrt, y.at), y.at.key.scope, y.at.cfg.momentum, y.raw).velocity;
      forall s :: s in v ==> Within(v[s], limit)
  {
    hide Clip, NormSq, Times, NewVelocity, TensorsBounded, Allowed, ValidConfig, IsSqrt, MapsAgree, Within;
    var s := Received(b, sqrt, y.at);
    RawIsWithin(b, sqrt, finite, y);
    assert y.at.cfg.momentum >= 0.0 by { ValidMomentum(y.at.cfg); }
    if UsesMomentum(s, y.at.key.scope, y.at.cfg.momentum, y.raw) {
      NewVelocityWithin(s, y.at.key.scope, y.at.cfg.momentum, y.raw, y.at.cfg.clipNorm, limit);
    }
  }

  lemma ValidMomentum(c: Config)
    requires ValidConfig(c)
    ensures c.momentum >= 0.0
  {
  }

  lemma RawIsWithin(b: Buffer, sqrt: real -> real, finite: real -> bool, y: Try)
    requires IsSqrt(sqrt) && MapsAgree(b) && ValidConfig(y.at.cfg) && y.at.key !in b.completed
    requires y.at.cfg.clipNorm > 0.0 && TensorsClipped(b, y.at.cfg.clipNorm)
    requires Allowed(b, sqrt, finite, y) && y.verdict == Valid
    requires |Received(b, sqrt, y.at).weights[y.at.key]| >= Max(1, y.at.required)
    ensures Within(y.raw, y.at.cfg.clipNorm)
  {
    hide Clip, NormSq, TensorsClipped, Allowed, ValidConfig, IsSqrt, MapsAgree;
    var w := Received(b, sqrt, y.at).weights[y.at.key];
    assert w.Keys == RoundOf(b.weights, y.at.key).Keys + {y.at.client} && |w| == |w.Keys|;
    RawWithin(b, sqrt, finite, y);
  }

  /** One step of a run: an attempt, or putting back a model published earlier in the run. */
  datatype Op = TryOp(y: Try) | RestoreOp(scope: Scope, snapshot: Snapshot)

  datatype Trace = Trace(buffer: Buffer, published: seq<Vec>)

  ghost function Apply(t: Trace, sqrt: real -> real, op: Op): Trace {
    match op
    case TryOp(y) =>
      var e := Tried(t.buffer, sqrt, y);
      Trace(e.buffer, if e.stage.Published? then t.published + [e.stage.weights] else t.published)
    case RestoreOp(scope, snapshot) =>
      Trace(t.buffer.(latest := t.buffer.latest[scope := snapshot]), t.published)
  }

  ghost predicate OpAllowed(t: Trace, sqrt: real -> real, finite: real -> bool, cfg: Config, op: Op) {
    match op
    case TryOp(y) => y.at.cfg == cfg && Allowed(t.buffer, sqrt, finite, y)
    case RestoreOp(_, snapshot) => snapshot.weights in t.published
  }

  ghost function RunOps(sqrt: real -> real, ops: seq<Op>): Trace {
    if |ops| == 0 then Trace(EMPTY_BUFFER, []) else Apply(RunOps(sqrt, ops[..|ops| - 1]), sqrt, ops[|ops| - 1])
  }

  ghost predicate OpsAllowed(sqrt: real -> real, finite: real -> bool, cfg: Config, ops: seq<Op>) {
    forall i :: 0 <= i < |ops| ==> OpAllowed(RunOps(sqrt, ops[..i]), sqrt, finite, cfg, ops[i])
  }

  lemma PrefixAllowed(sqrt: real -> real, finite: real -> bool, cfg: Config, ops: seq<Op>)
    requires OpsAllowed(sqrt, finite, cfg, ops) && |ops| > 0
    ensures OpsAllowed(sqrt, finite, cfg, ops[..|ops| - 1])
  {
    var p := ops[..|ops| - 1];
    forall i | 0 <= i < |p| ensures OpAllowed(RunOps(sqrt, p[..i]), sqrt, finite, cfg, p[i]) {
      assert p[..i] == ops[..i];
    }
  }

  /** With factor m below one every velocity coordinate stays within 2c / (1 - m), over attempts of every outcome,
      dimension changes and rollbacks. */
  lemma {:induction false} MomentumBounded(sqrt: real -> real, finite: real -> bool, cfg: Config, ops: seq<Op>,
                                           limit: real)
    requires IsSqrt(sqrt) && ValidConfig(cfg) && cfg.clipNorm > 0.0 && cfg.momentum < 1.0
    requires limit >= 0.0 && Times(1.0 - cfg.momentum, limit) == 2.0 * cfg.clipNorm
    requires OpsAllowed(sqrt, finite, cfg, ops)
    ensures MomentumInv(RunOps(sqrt, ops).buffer, cfg.clipNorm, limit)
    ensures forall i :: 0 <= i < |RunOps(sqrt, ops).published| ==> Within(RunOps(sqrt, ops).published[i], cfg.clipNorm)
  {
    hide Times, Tried, Allowed;
    if |ops| > 0 {
      var p, op := ops[..|ops| - 1], ops[|ops| - 1];
      PrefixAllowed(sqrt, finite, cfg, ops);
      MomentumBounded(sqrt, finite, cfg, p, limit);
      var t := RunOps(sqrt, p);
      assert OpAllowed(t, sqrt, finite, cfg, op);
      if op.TryOp? {
        AddKeepsMomentum(t.buffer, sqrt, finite, op.y, limit);
        if Tried(t.buffer, sqrt, op.y).stage.Published? {
          PublishedNorm(t.buffer, sqrt, op.y);
          NormBoundsCoordinates(Tried(t.buffer, sqrt, op.y).stage.weights, cfg.clipNorm);
        }
      }
    }
  }

  // ----- Unbounded from one on -----

  const SCOPE := Scope("t", "m")
  const CLIENT := "c"

  /** One client per round, submitting the vector [c], with the noise given. */
  function Push(cfg: Config, round: int, noise: nat -> real): Try {
    Try(Attempt(RoundKey(SCOPE, round), CLIENT, 1, [cfg.clipNorm], 1, cfg), [cfg.clipNorm], Valid, noise, NoFault,
        round)
  }

  /** Latest model [-c], velocity [v], no trace of round r or any later one. */
  ghost predicate Pushed(b: Buffer, c: real, r: int, v: real) {
    && SCOPE in b.latest && b.latest[SCOPE].weights == [-c]
    && OldVelocity(b, SCOPE, 1) == [v]
    && Untouched(b, r)
  }

  ghost predicate Untouched(b: Buffer, r: int) {
    forall k :: k >= r ==>
      RoundKey(SCOPE, k) !in b.completed && RoundKey(SCOPE, k) !in b.weights && RoundKey(SCOPE, k) !in b.sizes
  }

  /** The push is an allowed attempt: its raw aggregate is the one clipped tensor, under every rule. */
  lemma PushAllowed(b: Buffer, sqrt: real -> real, finite: real -> bool, cfg: Config, round: int, noise: nat -> real)
    requires IsSqrt(sqrt) && ValidConfig(cfg) && cfg.clipNorm > 0.0 && finite(cfg.clipNorm)
    requires Untouched(b, round)
    ensures Clip(sqrt, [cfg.clipNorm], cfg.clipNorm) == [cfg.clipNorm]
    ensures Allowed(b, sqrt, finite, Push(cfg, round, noise))
  {
    var y, c := Push(cfg, round, noise), cfg.clipNorm;
    UnitNorm(c);
    ClipIdentity(sqrt, [c], c);
    PushTensors(b, sqrt, cfg, round, noise);
    LoneIsAggregated(CLIENT, finite, cfg, RoundTensors(b, sqrt, y.at), RoundSizes(b, y.at));
    hide Clip, NormSq, IsSqrt, ValidConfig, RoundTensors, RoundSizes, WellFormed, IsAggregate, Reaches, Untouched;
  }

  lemma PushTensors(b: Buffer, sqrt: real -> real, cfg: Config, round: int, noise: nat -> real)
    requires Untouched(b, round) && Clip(sqrt, [cfg.clipNorm], cfg.clipNorm) == [cfg.clipNorm]
    ensures var at := Push(cfg, round, noise).at;
      RoundTensors(b, sqrt, at) == map[CLIENT := [cfg.clipNorm]] && RoundSizes(b, at) == map[CLIENT := 1]
  {
    hide Clip;
    assert RoundKey(SCOPE, round) !in b.weights && RoundKey(SCOPE, round) !in b.sizes;
  }

  /** Publishing a push: whatever comes out of momentum, the noise can bring the model back to [-c]. */
  lemma PushPublishes(b: Buffer, sqrt: real -> real, cfg: Config, round: int, noise: nat -> real)
    requires IsSqrt(sqrt) && ValidConfig(cfg) && cfg.clipNorm > 0.0
    requires Clip(sqrt, [cfg.clipNorm], cfg.clipNorm) == [cfg.clipNorm]
    requires Untouched(b, round)
    requires noise(0) == -cfg.clipNorm - Smoothed(b, SCOPE, cfg.momentum, [cfg.clipNorm])[0]
    ensures var e := Tried(b, sqrt, Push(cfg, round, noise));
      && e.buffer.latest == b.latest[SCOPE := Snapshot(round, round, [-cfg.clipNorm])]
      && e.buffer.velocity == WithMomentum(b, SCOPE, cfg.momentum, [cfg.clipNorm]).velocity
      && Untouched(e.buffer, round + 1)
  {
    hide Tried, Clip, NewVelocity, Times, Without;
    var y, c := Push(cfg, round, noise), cfg.clipNorm;
    AddEnds(b, sqrt, y);
    var s, e := Received(b, sqrt, y.at), Tried(b, sqrt, y);
    assert RoundKey(SCOPE, round) !in b.weights && RoundKey(SCOPE, round) !in b.completed;
    assert s.weights[y.at.key] == map[CLIENT := [c]];
    PushStage(b, sqrt, cfg, round, noise);
    assert Publishes(b, sqrt, y, e);
    SameMomentum(b, s, cfg.momentum, [c]);
    PushedBack(sqrt, cfg, Smoothed(s, SCOPE, cfg.momentum, [c]), noise);
    hide Smoothed, WithMomentum, NormSq;
  }

  lemma PushedBack(sqrt: real -> real, cfg: Config, smoothed: Vec, noise: nat -> real)
    requires IsSqrt(sqrt) && cfg.clipNorm > 0.0 && |smoothed| == 1 && noise(0) == -cfg.clipNorm - smoothed[0]
    ensures Clip(sqrt, Noisy(smoothed, noise), cfg.clipNorm) == [-cfg.clipNorm]
  {
    var c := cfg.clipNorm;
    assert Noisy(smoothed, noise) == [-c];
    UnitNorm(-c);
    ClipIdentity(sqrt, [-c], c);
  }

  lemma PushStage(b: Buffer, sqrt: real -> real, cfg: Config, round: int, noise: nat -> real)
    requires Untouched(b, round)
    ensures Tried(b, sqrt, Push(cfg, round, noise)).stage.Published?
  {
    hide Clip, FinalWeights, WithMomentum;
    assert RoundKey(SCOPE, round) !in b.weights && RoundKey(SCOPE, round) !in b.completed;
  }

  lemma SameMomentum(b: Buffer, s: Buffer, m: real, raw: Vec)
    requires s.latest == b.latest && s.velocity == b.velocity
    ensures Smoothed(s, SCOPE, m, raw) == Smoothed(b, SCOPE, m, raw)
    ensures WithMomentum(s, SCOPE, m, raw).velocity == WithMomentum(b, SCOPE, m, raw).velocity
  {
  }

  /** From one push to the next the velocity gains at least 2c. */
  lemma PushGains(b: Buffer, sqrt: real -> real, finite: real -> bool, cfg: Config, round: int, v: real)
    returns (y: Try, v': real)
    requires IsSqrt(sqrt) && ValidConfig(cfg) && cfg.clipNorm > 0.0 && finite(cfg.clipNorm)
    requires cfg.momentum >= 1.0 && v >= 0.0 && Pushed(b, cfg.clipNorm, round, v)
    ensures y.at.cfg == cfg && y.at.key.round == round && Allowed(b, sqrt, finite, y)
    ensures v' >= v + 2.0 * cfg.clipNorm && Pushed(Tried(b, sqrt, y).buffer, cfg.clipNorm, round + 1, v')
  {
    hide Times, Tried, Clip, Allowed, NewVelocity, Smoothed, Untouched, IsSqrt, ValidConfig, OldVelocity;
    var c := cfg.clipNorm;
    var noise := Cancelling(b, cfg);
    y := Push(cfg, round, noise);
    PushAllowed(b, sqrt, finite, cfg, round, noise);
    PushPublishes(b, sqrt, cfg, round, noise);
    v' := 2.0 * c + Times(v, cfg.momentum);
    VelocityAfterPush(b, c, round, v, cfg.momentum);
    GrowsAtLeast(v, cfg.momentum);
    OldVelocityIs(Tried(b, sqrt, y).buffer, v');
  }

  /** The noise draw that cancels the drift of the model. */
  function Cancelling(b: Buffer, cfg: Config): (noise: nat -> real)
    ensures noise(0) == -cfg.clipNorm - Smoothed(b, SCOPE, cfg.momentum, [cfg.clipNorm])[0]
  {
    var drift := -cfg.clipNorm - Smoothed(b, SCOPE, cfg.momentum, [cfg.clipNorm])[0];
    _ => drift
  }

  lemma OldVelocityIs(b: Buffer, v: real)
    ensures SCOPE in b.velocity && b.velocity[SCOPE] == [v] ==> OldVelocity(b, SCOPE, 1) == [v]
    ensures SCOPE !in b.velocity ==> OldVelocity(b, SCOPE, 1) == [0.0]
  {
    assert Zero(1) == [0.0];
  }

  lemma VelocityAfterPush(b: Buffer, c: real, round: int, v: real, m: real)
    requires Pushed(b, c, round, v) && m > 0.0
    ensures UsesMomentum(b, SCOPE, m, [c])
    ensures NewVelocity(b, SCOPE, m, [c]) == [2.0 * c + Times(v, m)]
  {
    hide Times;
    var n := NewVelocity(b, SCOPE, m, [c]);
    assert n[0] == (c - -c) + Times(v, m);
  }

  lemma GrowsAtLeast(v: real, m: real)
    requires v >= 0.0 && m >= 1.0
    ensures Times(v, m) >= v
  {
    MulMono(v, 1.0, m);
  }

  /** With a factor of one or more, which the configuration accepts, no bound holds, whatever the rule: rounds
      1 to n + 1 of allowed attempts reach a velocity of at least 2cn. */
  lemma {:induction false} MomentumUnbounded(sqrt: real -> real, finite: real -> bool, cfg: Config, n: nat)
    returns (ops: seq<Op>, v: real)
    requires IsSqrt(sqrt) && ValidConfig(cfg) && cfg.clipNorm > 0.0 && finite(cfg.clipNorm)
    requires cfg.momentum >= 1.0
    ensures |ops| == n + 1 && OpsAllowed(sqrt, finite, cfg, ops)
    ensures forall i :: 0 <= i <= n ==> ops[i].TryOp? && ops[i].y.at.key.round == i + 1
    ensures v >= Times(2.0 * cfg.clipNorm, n as real) && Pushed(RunOps(sqrt, ops).buffer, cfg.clipNorm, n + 2, v)
    ensures v >= 0.0
  {
    hide Times, Tried, Push, Allowed, Smoothed, Pushed;
    if n == 0 {
      ops := FirstPush(sqrt, finite, cfg);
      v := 0.0;
      TimesZero(2.0 * cfg.clipNorm);
    } else {
      var p, u := MomentumUnbounded(sqrt, finite, cfg, n - 1);
      var y;
      y, v := PushGains(RunOps(sqrt, p).buffer, sqrt, finite, cfg, n + 1, u);
      ops := p + [TryOp(y)];
      Extended(sqrt, finite, cfg, p, y);
      Distribute((n - 1) as real, 1.0, n as real, 2.0 * cfg.clipNorm);
      TimesCommutes(2.0 * cfg.clipNorm, n);
    }
  }

  lemma FirstPush(sqrt: real -> real, finite: real -> bool, cfg: Config) returns (ops: seq<Op>)
    requires IsSqrt(sqrt) && ValidConfig(cfg) && cfg.clipNorm > 0.0 && finite(cfg.clipNorm)
    ensures |ops| == 1 && OpsAllowed(sqrt, finite, cfg, ops) && ops[0].TryOp? && ops[0].y.at.key.round == 1
    ensures Pushed(RunOps(sqrt, ops).buffer, cfg.clipNorm, 2, 0.0)
  {
    hide Times, Tried, Clip, Allowed, NewVelocity, Smoothed, IsSqrt, ValidConfig, OldVelocity;
    var noise := Cancelling(EMPTY_BUFFER, cfg);
    PushAllowed(EMPTY_BUFFER, sqrt, finite, cfg, 1, noise);
    PushPublishes(EMPTY_BUFFER, sqrt, cfg, 1, noise);
    var y := Push(cfg, 1, noise);
    Extended(sqrt, finite, cfg, [], y);
    ops := [] + [TryOp(y)];
    OldVelocityIs(RunOps(sqrt, ops).buffer, 0.0);
  }

  lemma Extended(sqrt: real -> real, finite: real -> bool, cfg: Config, p: seq<Op>, y: Try)
    requires OpsAllowed(sqrt, finite, cfg, p)
    requires y.at.cfg == cfg && Allowed(RunOps(sqrt, p).buffer, sqrt, finite, y)
    ensures OpsAllowed(sqrt, finite, cfg, p + [TryOp(y)])
    ensures RunOps(sqrt, p + [TryOp(y)]).buffer == Tried(RunOps(sqrt, p).buffer, sqrt, y).buffer
  {
    hide Tried, Allowed;
    var ops := p + [TryOp(y)];
    assert ops[..|p|] == p;
    forall i | 0 <= i < |ops| ensures OpAllowed(RunOps(sqrt, ops[..i]), sqrt, finite, cfg, ops[i]) {
      if i < |p| { assert ops[..i] == p[..i]; }
    }
  }

  lemma TimesCommutes(x: real, n: nat)
    requires n > 0
    ensures Times(x, n as real) == Times(n as real, x) && Times(x, (n - 1) as real) == Times((n - 1) as real, x)
    ensures Times(1.0, x) == x
  {
  }
}
