/** The round buffer: clipping, momentum, noise, the aggregation attempt and its rollback. */
module WeightBuffer {
  import opened Basics
  import opened ByteStrings
  import opened Vectors
  import opened Records
  import opened Aggregation
  import KrumRule = Krum
  import Crypto
  import StateFile
  import StateStore

  datatype Config = Config(strategy: Strategy, clipNorm: real, dpEpsilon: real, dpDelta: real, beta: real,
                           momentum: real)

  /** The ranges Config::Validate enforces. */
  ghost predicate ValidConfig(c: Config) {
    && c.clipNorm >= 0.0 && c.momentum >= 0.0 && 0.0 <= c.beta < 0.5
    && c.dpEpsilon > 0.0 && 0.0 < c.dpDelta < 1.0
  }

  datatype Snapshot = Snapshot(round: int, version: int, weights: Vec)

  datatype Buffer = Buffer(weights: map<RoundKey, Tensors>, sizes: map<RoundKey, map<string, int>>,
                           completed: set<RoundKey>, latest: map<Scope, Snapshot>, velocity: map<Scope, Vec>)

  const EMPTY_BUFFER := Buffer(map[], map[], {}, map[], map[])

  // ----- Clipping and noise -----

  function Clip(sqrt: real -> real, w: Vec, c: real): (r: Vec)
    ensures |r| == |w|
  {
    var l2 := sqrt(NormSq(w));
    if c > 0.0 && l2 > c then Scale(w, if l2 == 0.0 then 0.0 else c / l2) else w
  }

  lemma ClipArithmetic(n: real, l2: real, c: real)
    requires c > 0.0 && l2 > c && l2 * l2 == n
    ensures Times(n, Times(c / l2, c / l2)) == c * c
  {
    var a := c / l2;
    assert a * l2 == c;
    assert (l2 * l2) * (a * a) == (a * l2) * (a * l2);
  }

  /** Clipping enforces the norm. */
  lemma ClipNorm(sqrt: real -> real, w: Vec, c: real)
    requires IsSqrt(sqrt) && c > 0.0
    ensures NormSq(Clip(sqrt, w, c)) <= c * c
  {
    var n := NormSq(w);
    NormSqNonNegative(w);
    var l2 := sqrt(n);
    if l2 > c {
      NormSqScale(w, c / l2);
      ClipArithmetic(n, l2, c);
    } else {
      SquareMono(l2, c);
    }
  }

  /** Clipping leaves a vector alone exactly when it already respects the norm. */
  lemma ClipIdentity(sqrt: real -> real, w: Vec, c: real)
    requires IsSqrt(sqrt) && c > 0.0
    ensures Clip(sqrt, w, c) == w <==> NormSq(w) <= c * c
  {
    var n := NormSq(w);
    NormSqNonNegative(w);
    var l2 := sqrt(n);
    if n <= c * c {
      SquareBound(l2, c);
    } else {
      if l2 <= c { SquareMono(l2, c); }
      ClipNorm(sqrt, w, c);
    }
  }

  ghost predicate IsMultiple(r: Vec, w: Vec, k: real) {
    |r| == |w| && forall i :: 0 <= i < |w| ==> r[i] == w[i] * k
  }

  /** What clipping promises: a vector longer than c is shrunk to length c in its own direction; any other is left
      alone, as every vector is when c is not positive. */
  ghost predicate IsClipped(w: Vec, c: real, r: Vec) {
    if c > 0.0 && NormSq(w) > c * c then NormSq(r) == c * c && exists k :: 0.0 <= k <= 1.0 && IsMultiple(r, w, k)
    else r == w
  }

  /** Clipping returns the one vector that is as promised. */
  lemma ClipExactly(sqrt: real -> real, w: Vec, c: real, r: Vec)
    requires IsSqrt(sqrt)
    ensures r == Clip(sqrt, w, c) <==> IsClipped(w, c, r)
  {
    hide NormSq;
    var n := NormSq(w);
    NormSqNonNegative(w);
    var l2 := sqrt(n);
    if c > 0.0 && n > c * c {
      if l2 <= c { SquareMono(l2, c); }
      ShrinkFactor(n, l2, c);
      NormSqScale(w, c / l2);
      ClipArithmetic(n, l2, c);
      assert IsMultiple(Scale(w, c / l2), w, c / l2);
      if IsClipped(w, c, r) {
        var k :| 0.0 <= k <= 1.0 && IsMultiple(r, w, k);
        assert r == Scale(w, k);
        NormSqScale(w, k);
        FactorKnown(n, l2, c, k);
      }
    } else if c > 0.0 {
      SquareBound(l2, c);
    }
  }

  lemma ShrinkFactor(n: real, l2: real, c: real)
    requires 0.0 < c < l2
    ensures 0.0 <= c / l2 <= 1.0
  {
    var a := c / l2;
    assert a * l2 == c;
    if a < 0.0 {
      StrictProduct(-a, l2);
    }
    if a > 1.0 {
      StrictProduct(a - 1.0, l2);
      assert (a - 1.0) * l2 == a * l2 - l2;
    }
  }

  /** The factor is determined by the length it leads to. */
  lemma FactorKnown(n: real, l2: real, c: real, k: real)
    requires 0.0 < c < l2 && l2 * l2 == n && k >= 0.0 && Times(n, Times(k, k)) == c * c
    ensures k == c / l2
  {
    var x := k * l2;
    assert x * x == (k * k) * (l2 * l2);
    MulMono(l2, 0.0, k);
    if x < c { StrictSquare(x, c); }
    if c < x { StrictSquare(c, x); }
  }

  lemma StrictSquare(a: real, b: real)
    requires 0.0 <= a < b
    ensures a * a < b * b
  {
    if b * b <= a * a {
      SquareBound(b, a);
    }
  }

  function Noisy(v: Vec, noise: nat -> real): Vec {
    seq(|v|, i requires 0 <= i < |v| => v[i] + noise(i))
  }

  function Privatize(sqrt: real -> real, v: Vec, c: Config, noise: nat -> real, clients: nat): (r: Vec)
    ensures |r| == |v|
  {
    if c.dpEpsilon <= 0.0 || c.dpDelta <= 0.0 || c.dpDelta >= 1.0 || clients == 0 then v
    else Clip(sqrt, Noisy(v, noise), c.clipNorm)
  }

  // ----- Buffering -----

  datatype Attempt = Attempt(key: RoundKey, client: string, size: int, weights: Vec, required: int, cfg: Config)

  /** The attempt under the normalised key. */
  function Keyed(at: Attempt): Attempt {
    at.(key := NormalizedKey(at.key))
  }

  function RoundOf<T>(m: map<RoundKey, map<string, T>>, key: RoundKey): map<string, T> {
    if key in m then m[key] else map[]
  }

  function Buffered(b: Buffer, at: Attempt, clipped: Vec): Buffer {
    b.(weights := b.weights[at.key := RoundOf(b.weights, at.key)[at.client := clipped]],
       sizes := b.sizes[at.key := RoundOf(b.sizes, at.key)[at.client := Max(1, at.size)]])
  }

  function Without<T>(m: map<RoundKey, map<string, T>>, key: RoundKey, client: string): map<RoundKey, map<string, T>> {
    if key !in m then m
    else
      var rest := m[key] - {client};
      if rest == map[] then m - {key} else m[key := rest]
  }

  function Removed(b: Buffer, key: RoundKey, client: string): Buffer {
    b.(weights := Without(b.weights, key, client), sizes := Without(b.sizes, key, client))
  }

  function LatestVersion(b: Buffer, scope: Scope): int {
    if scope in b.latest then b.latest[scope].version else 0
  }

  // ----- Momentum -----

  predicate UsesMomentum(b: Buffer, scope: Scope, m: real, raw: Vec) {
    scope in b.latest && |b.latest[scope].weights| > 0 && |b.latest[scope].weights| == |raw| && m > 0.0
  }

  function OldVelocity(b: Buffer, scope: Scope, dim: nat): (v: Vec)
    ensures |v| == dim
  {
    if scope in b.velocity && |b.velocity[scope]| == dim then b.velocity[scope] else Zero(dim)
  }

  /** m * velocity + (raw - latest). */
  function NewVelocity(b: Buffer, scope: Scope, m: real, raw: Vec): (v: Vec)
    requires UsesMomentum(b, scope, m, raw)
    ensures |v| == |raw|
  {
    Axpy(Sub(raw, b.latest[scope].weights), m, OldVelocity(b, scope, |raw|))
  }

  function WithMomentum(b: Buffer, scope: Scope, m: real, raw: Vec): Buffer {
    if UsesMomentum(b, scope, m, raw) then b.(velocity := b.velocity[scope := NewVelocity(b, scope, m, raw)]) else b
  }

  /** latest + velocity. */
  function Smoothed(b: Buffer, scope: Scope, m: real, raw: Vec): (v: Vec)
    ensures |v| == |raw|
  {
    if UsesMomentum(b, scope, m, raw) then Axpy(b.latest[scope].weights, 1.0, NewVelocity(b, scope, m, raw)) else raw
  }

  // ----- The attempt -----

  datatype Message = AlreadyAggregated | Waiting | ValidationFailed(reason: Validation) | PersistFailed(fault: Fault)
    | RoundCompleted

  datatype Outcome = Outcome(accepted: bool, aggregated: bool, modelVersion: int, message: Message)

  /** What goes wrong when the checkpoint is written: the cipher throws, the file does not open, the write is cut
      short. */
  datatype Fault = NoFault | EncryptFault | OpenFault | WriteFault

  datatype Stage = NotReached | Failed(fault: Fault) | Published(weights: Vec, clients: nat)

  datatype AddEffect = AddEffect(buffer: Buffer, outcome: Outcome, stage: Stage)

  function FinalWeights(at: Attempt, sqrt: real -> real, s: Buffer, raw: Vec, noise: nat -> real): Vec {
    var smoothed := Smoothed(s, at.key.scope, at.cfg.momentum, raw);
    if at.cfg.dpEpsilon > 0.0 then Privatize(sqrt, smoothed, at.cfg, noise, |RoundOf(s.weights, at.key)|) else smoothed
  }

  /** One attempt, given the raw aggregate, the verdict of validation, the noise drawn and the version the store
      assigns. */
  function Add(b: Buffer, sqrt: real -> real, at: Attempt, raw: Vec, verdict: Validation, noise: nat -> real,
               fault: Fault, version: int): AddEffect
  {
    var scope := at.key.scope;
    if at.key in b.completed then
      AddEffect(b, Outcome(false, false, LatestVersion(b, scope), AlreadyAggregated), NotReached)
    else
      var s := Buffered(b, at, Clip(sqrt, at.weights, at.cfg.clipNorm));
      var clients := |s.weights[at.key]|;
      if clients < Max(1, at.required) then
        AddEffect(s, Outcome(true, false, LatestVersion(b, scope), Waiting), NotReached)
      else Close(s, sqrt, at, raw, verdict, noise, fault, version)
  }

  /** Closing a full round: validate, aggregate, persist. */
  function Close(s: Buffer, sqrt: real -> real, at: Attempt, raw: Vec, verdict: Validation, noise: nat -> real,
                 fault: Fault, version: int): AddEffect
  {
    var scope := at.key.scope;
    if verdict != Valid then
      AddEffect(Removed(s, at.key, at.client),
                Outcome(false, false, LatestVersion(s, scope), ValidationFailed(verdict)), NotReached)
    else
      Persist(WithMomentum(s, scope, at.cfg.momentum, raw), at, FinalWeights(at, sqrt, s, raw, noise),
              |RoundOf(s.weights, at.key)|, fault, version)
  }

  /** Writing the checkpoint: a fault takes the submission back, otherwise the model is published. */
  function Persist(b: Buffer, at: Attempt, result: Vec, clients: nat, fault: Fault, version: int): AddEffect {
    var scope := at.key.scope;
    if fault != NoFault then
      AddEffect(Removed(b, at.key, at.client), Outcome(false, false, LatestVersion(b, scope), PersistFailed(fault)),
                Failed(fault))
    else
      AddEffect(b.(latest := b.latest[scope := Snapshot(at.key.round, version, result)],
                   completed := b.completed + {at.key}),
                Outcome(true, true, version, RoundCompleted), Published(result, clients))
  }

  /** raw is what the configured rule makes of the round's tensors. */
  ghost predicate IsAggregate(c: Config, w: Tensors, sizes: map<string, int>, raw: Vec)
    requires |w| > 0
  {
    && Uniform(w, |raw|) && |raw| > 0
    && match c.strategy
       case Krum => KrumRule.IsKrum(w, |raw|, raw)
       case TrimmedMean => IsTrimmedMean(w, c.beta, |raw|, raw)
       case FedAvg => raw == Mean(w, sizes, |raw|)
  }

  /** The attempt got as far as aggregating. */
  predicate Reaches(b: Buffer, at: Attempt) {
    at.key !in b.completed && |RoundOf(b.weights, at.key).Keys + {at.client}| >= Max(1, at.required)
  }

  /** The tensors and sizes the attempt aggregates. */
  function RoundTensors(b: Buffer, sqrt: real -> real, at: Attempt): Tensors {
    RoundOf(b.weights, at.key)[at.client := Clip(sqrt, at.weights, at.cfg.clipNorm)]
  }

  function RoundSizes(b: Buffer, at: Attempt): map<string, int> {
    RoundOf(b.sizes, at.key)[at.client := Max(1, at.size)]
  }

  /** What the aggregation step is allowed to come up with. */
  ghost predicate Aggregates(b: Buffer, sqrt: real -> real, at: Attempt, finite: real -> bool, raw: Vec,
                             verdict: Validation) {
    Reaches(b, at) ==>
      && (verdict == Valid <==> WellFormed(RoundTensors(b, sqrt, at), finite))
      && (verdict == Valid ==> IsAggregate(at.cfg, RoundTensors(b, sqrt, at), RoundSizes(b, at), raw))
  }

  // ----- Checkpoints -----

  /** Tensors as bytes; those that are made of floats read back. */
  datatype Codec = Codec(toBytes: Vec -> Bytes, fromBytes: Bytes -> Vec)

  function FilesAfter(files: map<RoundKey, Bytes>, key: RoundKey, stage: Stage, blob: Bytes): map<RoundKey, Bytes> {
    match stage
    case NotReached => files
    case Failed(OpenFault) => files
    case Failed(_) => files - {key}
    case Published(_, _) => files[key := blob]
  }

  /** The tables after the attempt: a published model is recorded, anything else leaves them alone. */
  function TablesAfter(t: Tables, at: Attempt, stage: Stage, keyVersion: int, now: Time): Tables {
    match stage
    case Published(w, clients) =>
      StateStore.RecordModel(t, at.key.scope, at.key.round, at.key, at.cfg.strategy, keyVersion, clients, |w|,
                             now).tables
    case _ => t
  }

  class CheckpointDisk {
    var files: map<RoundKey, Bytes>

    constructor (files: map<RoundKey, Bytes>)
      ensures this.files == files
    {
      this.files := files;
    }
  }

  class WeightBuffer {
    const sqrt: real -> real
    const finite: real -> bool
    const codec: Codec
    var roundWeights: map<RoundKey, Tensors>
    var roundDatasetSizes: map<RoundKey, map<string, int>>
    var completedRounds: set<RoundKey>
    var latestModels: map<Scope, Snapshot>
    var optimizerVelocity: map<Scope, Vec>

    ghost function State(): Buffer
      reads this
    {
      Buffer(roundWeights, roundDatasetSizes, completedRounds, latestModels, optimizerVelocity)
    }

    constructor (sqrt: real -> real, finite: real -> bool, codec: Codec)
      ensures State() == EMPTY_BUFFER
      ensures this.sqrt == sqrt && this.finite == finite && this.codec == codec
    {
      this.sqrt, this.finite, this.codec := sqrt, finite, codec;
      roundWeights, roundDatasetSizes, completedRounds, latestModels, optimizerVelocity :=
        map[], map[], {}, map[], map[];
    }

    method RemoveSubmissionLocked(key: RoundKey, client: string)
      modifies this`roundWeights, this`roundDatasetSizes
      ensures roundWeights == Without(old(roundWeights), key, client)
      ensures roundDatasetSizes == Without(old(roundDatasetSizes), key, client)
    {
      if key in roundWeights {
        roundWeights := roundWeights[key := roundWeights[key] - {client}];
        if roundWeights[key] == map[] {
          roundWeights := roundWeights - {key};
        }
      }
      if key in roundDatasetSizes {
        roundDatasetSizes := roundDatasetSizes[key := roundDatasetSizes[key] - {client}];
        if roundDatasetSizes[key] == map[] {
          roundDatasetSizes := roundDatasetSizes - {key};
        }
      }
    }

    /** Scales the vector down in place when its norm exceeds the bound. */
    method ClipWeights(weights: array<real>, clipNorm: real)
      modifies weights
      ensures weights[..] == Clip(sqrt, old(weights[..]), clipNorm)
    {
      ghost var before := weights[..];
      var l2 := 0.0;
      for i := 0 to weights.Length
        invariant l2 == NormSq(before[..i])
      {
        assert before[..i + 1][..i] == before[..i];
        l2 := l2 + weights[i] * weights[i];
      }
      assert before[..weights.Length] == before;
      l2 := sqrt(l2);
      if clipNorm > 0.0 && l2 > clipNorm {
        var scale := clipNorm / l2;
        for i := 0 to weights.Length
          invariant forall k :: 0 <= k < i ==> weights[k] == Times(before[k], scale)
          invariant forall k :: i <= k < weights.Length ==> weights[k] == before[k]
        {
          weights[i] := weights[i] * scale;
        }
        assert weights[..] == Scale(before, scale);
      }
    }

    method ApplyDifferentialPrivacy(weights: array<real>, cfg: Config, noise: nat -> real, clients: nat)
      modifies weights
      ensures weights[..] == Privatize(sqrt, old(weights[..]), cfg, noise, clients)
    {
      if cfg.dpEpsilon <= 0.0 || cfg.dpDelta <= 0.0 || cfg.dpDelta >= 1.0 || clients == 0 {
        return;
      }
      ghost var before := weights[..];
      for i := 0 to weights.Length
        invariant forall k :: 0 <= k < i ==> weights[k] == before[k] + noise(k)
        invariant forall k :: i <= k < weights.Length ==> weights[k] == before[k]
      {
        weights[i] := weights[i] + noise(i);
      }
      assert weights[..] == Noisy(before, noise);
      ClipWeights(weights, cfg.clipNorm);
    }

    /** Advances the scope's velocity and adds it to the latest model; without a comparable model, changes nothing. */
    method ApplyMomentum(scope: Scope, momentum: real, raw: Vec) returns (result: Vec)
      modifies this`optimizerVelocity
      ensures State() == WithMomentum(old(State()), scope, momentum, raw)
      ensures result == Smoothed(old(State()), scope, momentum, raw)
    {
      result := raw;
      if scope in latestModels && |latestModels[scope].weights| > 0 && |latestModels[scope].weights| == |raw|
        && momentum > 0.0 {
        var latest := latestModels[scope].weights;
        var old' := if scope in optimizerVelocity && |optimizerVelocity[scope]| == |raw| then optimizerVelocity[scope]
          else Zero(|raw|);
        var velocity, smoothed := [], [];
        for i := 0 to |raw|
          invariant |velocity| == |smoothed| == i
          invariant forall k :: 0 <= k < i ==> velocity[k] == (raw[k] - latest[k]) + Times(old'[k], momentum)
          invariant forall k :: 0 <= k < i ==> smoothed[k] == latest[k] + velocity[k]
        {
          var delta := raw[i] - latest[i];
          var v := momentum * old'[i] + delta;
          assert v == delta + Times(old'[i], momentum);
          velocity := velocity + [v];
          smoothed := smoothed + [latest[i] + v];
        }
        assert velocity == NewVelocity(State(), scope, momentum, raw);
        forall k | 0 <= k < |raw| ensures smoothed[k] == Smoothed(State(), scope, momentum, raw)[k] {
          assert Times(velocity[k], 1.0) == velocity[k];
        }
        assert smoothed == Smoothed(State(), scope, momentum, raw);
        optimizerVelocity := optimizerVelocity[scope := velocity];
        result := smoothed;
      }
    }

    method Aggregate(cfg: Config, weights: Tensors, sizes: map<string, int>) returns (raw: Vec)
      requires WellFormed(weights, finite)
      ensures IsAggregate(cfg, weights, sizes, raw)
    {
      ghost var first :| first in weights.Keys;
      ghost var dim := |weights[first]|;
      assert Uniform(weights, dim);
      match cfg.strategy
      case Krum =>
        raw := KrumRule.AggKrum(weights, dim);
        KrumDimension(weights, dim, raw);
      case TrimmedMean =>
        raw := AggTrimmedMean(weights, cfg.beta, dim);
      case FedAvg =>
        raw := AggFedAvg(weights, sizes, dim);
    }

    method IsRoundCompleted(request: RoundKey) returns (r: bool)
      ensures r <==> NormalizedKey(request) in completedRounds
    {
      return NormalizedKey(request) in completedRounds;
    }

    method HasClientSubmission(request: RoundKey, client: string) returns (r: bool)
      ensures r <==> client in RoundOf(roundWeights, NormalizedKey(request))
    {
      var key := NormalizedKey(request);
      return key in roundWeights && client in roundWeights[key];
    }

    method CountClients(request: RoundKey) returns (n: nat)
      ensures n == |RoundOf(roundWeights, NormalizedKey(request))|
    {
      var key := NormalizedKey(request);
      return if key in roundWeights then |roundWeights[key]| else 0;
    }

    method RestoreLatestGlobalModel(request: Scope, round: int, version: int, weights: Vec)
      modifies this`latestModels
      ensures latestModels == old(latestModels)[Normalized(request) := Snapshot(round, version, weights)]
    {
      latestModels := latestModels[Normalized(request) := Snapshot(round, version, weights)];
    }

    /** Puts the clipped tensor and the dataset size into the round's maps. */
    method BufferSubmission(at: Attempt)
      modifies this`roundWeights, this`roundDatasetSizes
      ensures State() == Buffered(old(State()), at, Clip(sqrt, at.weights, at.cfg.clipNorm))
    {
      var clipped := new real[|at.weights|](i requires 0 <= i < |at.weights| => at.weights[i]);
      assert clipped[..] == at.weights;
      ClipWeights(clipped, at.cfg.clipNorm);
      roundWeights := roundWeights[at.key := RoundOf(roundWeights, at.key)[at.client := clipped[..]]];
      roundDatasetSizes :=
        roundDatasetSizes[at.key := RoundOf(roundDatasetSizes, at.key)[at.client := Max(1, at.size)]];
    }

    /** Momentum, then noise and re-clipping. */
    method Finalize(at: Attempt, raw: Vec, noise: nat -> real, clients: nat) returns (result: Vec)
      requires clients == |RoundOf(roundWeights, at.key)|
      modifies this`optimizerVelocity
      ensures State() == WithMomentum(old(State()), at.key.scope, at.cfg.momentum, raw)
      ensures result == FinalWeights(at, sqrt, old(State()), raw, noise)
    {
      result := ApplyMomentum(at.key.scope, at.cfg.momentum, raw);
      if at.cfg.dpEpsilon > 0.0 {
        var values := new real[|result|](i requires 0 <= i < |result| => result[i]);
        assert values[..] == result;
        ApplyDifferentialPrivacy(values, at.cfg, noise, clients);
        result := values[..];
      }
    }

    /** The whole attempt: buffer, wait or aggregate, persist, record, publish; or take the submission back. */
    method AddWeightAndCheckAggregate(request: Attempt, crypto: Crypto.CryptoEngine, store: StateStore.StateStore,
                                      disk: CheckpointDisk, noise: nat -> real, iv: Bytes, fault: Fault, now: Time)
      returns (outcome: Outcome, aggregated: Vec, ghost raw: Vec, ghost verdict: Validation)
      requires |iv| == Crypto.IV_SIZE
      modifies this, store, disk
      ensures Aggregates(old(State()), sqrt, Keyed(request), finite, raw, verdict)
      ensures var at := Keyed(request);
        var e :=
          Add(old(State()), sqrt, at, raw, verdict, noise, fault,
              StateStore.NextVersion(old(store.models), at.key.scope));
        && State() == e.buffer && outcome == e.outcome
        && PersistedOutside(at, e.stage, aggregated, crypto, store, disk, iv, now, old(disk.files), old(store.View()),
                            old(store.file))
    {
      hide Clip, IsAggregate, WellFormed, Close, Aggregates, RoundTensors, RoundSizes, PersistedOutside;
      var at := Keyed(request);
      raw, verdict, aggregated := [], Valid, [];
      var scope, key := at.key.scope, at.key;
      if key in completedRounds {
        outcome := Outcome(false, false, LatestVersionLocked(scope), AlreadyAggregated);
        NotReachedAggregates(old(State()), sqrt, at, finite, raw, verdict);
        NothingPersisted(at, crypto, store, disk, iv, now);
        return;
      }
      BufferSubmission(at);
      BufferedRound(old(State()), sqrt, at);
      if |roundWeights[key]| < Max(1, at.required) {
        outcome := Outcome(true, false, LatestVersionLocked(scope), Waiting);
        NotReachedAggregates(old(State()), sqrt, at, finite, raw, verdict);
        NothingPersisted(at, crypto, store, disk, iv, now);
        return;
      }
      outcome, aggregated, raw, verdict := CloseRound(at, crypto, store, disk, noise, iv, fault, now);
      ClosedAggregates(old(State()), sqrt, at, finite, raw, verdict);
    }

    method CloseRound(at: Attempt, crypto: Crypto.CryptoEngine, store: StateStore.StateStore, disk: CheckpointDisk,
                      noise: nat -> real, iv: Bytes, fault: Fault, now: Time)
      returns (outcome: Outcome, aggregated: Vec, ghost raw: Vec, ghost verdict: Validation)
      requires Normalized(at.key.scope) == at.key.scope && |iv| == Crypto.IV_SIZE
      requires at.key in roundWeights && at.key in roundDatasetSizes && |roundWeights[at.key]| > 0
      modifies this, store, disk
      ensures verdict == Valid <==> WellFormed(old(roundWeights)[at.key], finite)
      ensures verdict == Valid ==> IsAggregate(at.cfg, old(roundWeights)[at.key], old(roundDatasetSizes)[at.key], raw)
      ensures var e :=
        Close(old(State()), sqrt, at, raw, verdict, noise, fault,
              StateStore.NextVersion(old(store.models), at.key.scope));
        && State() == e.buffer && outcome == e.outcome
        && PersistedOutside(at, e.stage, aggregated, crypto, store, disk, iv, now, old(disk.files), old(store.View()),
                            old(store.file))
    {
      raw, aggregated := [], [];
      var clientMap := roundWeights[at.key];
      var validation := ValidateWeights(clientMap, finite);
      verdict := validation;
      if validation != Valid {
        RemoveSubmissionLocked(at.key, at.client);
        outcome := Outcome(false, false, LatestVersionLocked(at.key.scope), ValidationFailed(validation));
        return;
      }
      hide IsAggregate, FinalWeights, WithMomentum, WellFormed;
      var aggregate := Aggregate(at.cfg, clientMap, roundDatasetSizes[at.key]);
      raw := aggregate;
      aggregated := Finalize(at, aggregate, noise, |clientMap|);
      outcome := PersistCheckpoint(at, aggregated, |clientMap|, crypto, store, disk, iv, fault, now);
    }

    method PersistCheckpoint(at: Attempt, result: Vec, clients: nat, crypto: Crypto.CryptoEngine,
                             store: StateStore.StateStore,
                             disk: CheckpointDisk, iv: Bytes, fault: Fault, now: Time) returns (outcome: Outcome)
      requires Normalized(at.key.scope) == at.key.scope && |iv| == Crypto.IV_SIZE
      modifies this, store, disk
      ensures var e :=
        Persist(old(State()), at, result, clients, fault, StateStore.NextVersion(old(store.models), at.key.scope));
        && State() == e.buffer && outcome == e.outcome
        && PersistedOutside(at, e.stage, result, crypto, store, disk, iv, now, old(disk.files), old(store.View()),
                            old(store.file))
    {
      var scope, key := at.key.scope, at.key;
      if fault == EncryptFault || fault == WriteFault {
        disk.files := disk.files - {key};
      }
      if fault != NoFault {
        RemoveSubmissionLocked(key, at.client);
        outcome := Outcome(false, false, LatestVersionLocked(scope), PersistFailed(fault));
        return;
      }
      var blob := crypto.Encrypt(iv, codec.toBytes(result));
      disk.files := disk.files[key := blob];
      var version :=
        store.RecordAggregatedModel(scope, key.round, key, at.cfg.strategy, crypto.activeKeyVersion, clients, |result|,
                                    now);
      latestModels := latestModels[scope := Snapshot(key.round, version, result)];
      completedRounds := completedRounds + {key};
      outcome := Outcome(true, true, version, RoundCompleted);
    }

    /** The checkpoint directory and the store after an attempt that ended in the given stage. */
    ghost predicate PersistedOutside(at: Attempt, stage: Stage, aggregated: Vec, crypto: Crypto.CryptoEngine,
                                     store: StateStore.StateStore, disk: CheckpointDisk, iv: Bytes, now: Time,
                                     files: map<RoundKey, Bytes>, tables: Tables, file: Option<StateFile.Json>)
      reads crypto, store, disk
    {
      && (stage.Published? ==> aggregated == stage.weights)
      && disk.files == FilesAfter(files, at.key, stage,
           Crypto.EncryptBlob(crypto.aead, crypto.Keys(), iv, codec.toBytes(aggregated)))
      && store.View() == TablesAfter(tables, at, stage, crypto.activeKeyVersion, now)
      && store.file == (if stage.Published? then Some(StateFile.Save(store.View())) else file)
    }

    lemma NothingPersisted(at: Attempt, crypto: Crypto.CryptoEngine, store: StateStore.StateStore, disk: CheckpointDisk,
                           iv: Bytes, now: Time)
      ensures PersistedOutside(at, NotReached, [], crypto, store, disk, iv, now, disk.files, store.View(), store.file)
    {
    }

    function LatestVersionLocked(scope: Scope): int
      reads this
    {
      if scope in latestModels then latestModels[scope].version else 0
    }
  }

  /** The round's maps once the submission is in. */
  lemma BufferedRound(b: Buffer, sqrt: real -> real, at: Attempt)
    ensures var s := Buffered(b, at, Clip(sqrt, at.weights, at.cfg.clipNorm));
      && s.weights[at.key] == RoundTensors(b, sqrt, at) && s.sizes[at.key] == RoundSizes(b, at)
      && |s.weights[at.key]| > 0
      && (Reaches(b, at) <==> at.key !in b.completed && |s.weights[at.key]| >= Max(1, at.required))
  {
    hide Clip;
    var s := Buffered(b, at, Clip(sqrt, at.weights, at.cfg.clipNorm));
    assert at.client in s.weights[at.key];
    assert s.weights[at.key].Keys == RoundOf(b.weights, at.key).Keys + {at.client};
    assert |s.weights[at.key]| == |s.weights[at.key].Keys|;
  }

  lemma NotReachedAggregates(b: Buffer, sqrt: real -> real, at: Attempt, finite: real -> bool, raw: Vec,
                             verdict: Validation)
    requires !Reaches(b, at)
    ensures Aggregates(b, sqrt, at, finite, raw, verdict)
  {
  }

  lemma ClosedAggregates(b: Buffer, sqrt: real -> real, at: Attempt, finite: real -> bool, raw: Vec,
                         verdict: Validation)
    requires |RoundTensors(b, sqrt, at)| > 0
    requires verdict == Valid <==> WellFormed(RoundTensors(b, sqrt, at), finite)
    requires verdict == Valid ==> IsAggregate(at.cfg, RoundTensors(b, sqrt, at), RoundSizes(b, at), raw)
    ensures Aggregates(b, sqrt, at, finite, raw, verdict)
  {
    hide WellFormed, IsAggregate, RoundTensors, RoundSizes;
  }

  lemma KrumDimension(w: Tensors, dim: nat, raw: Vec)
    requires Uniform(w, dim) && KrumRule.IsKrum(w, dim, raw)
    ensures |raw| == dim
  {
    if |w| >= 3 {
      var c :| KrumRule.Selected(w, c) && raw == w[c];
    }
  }
}
