/** The server around the buffer and the store: submitting weights, the admin calls, and a process start. */
module FederatedService {
  import opened Basics
  import opened ByteStrings
  import opened Vectors
  import opened Records
  import opened StateFile
  import opened StateStore
  import opened Aggregation
  import opened WeightBuffer
  import opened Ledger
  import Crypto

  /** What does not change while the server runs. */
  datatype Setup = Setup(sqrt: real -> real, finite: real -> bool, codec: Codec, aead: Crypto.Aead,
                         requiredClients: int, defaultTtl: int)

  /** A running server: its memory, the three things it keeps on disk (checkpoints, state file, key directory), and the
      last reading of the clock. */
  datatype World = World(buffer: Buffer, tables: Tables, keys: Crypto.KeyState, files: map<RoundKey, Bytes>,
                         file: Option<Json>, keyDisk: Crypto.KeyDisk, clock: Time)

  // ----- Submitting weights -----

  /** A submission. named: its identifiers are well formed. admitted: its payload fields have the right lengths and
      its sender is registered under its certificate. payload: what the session key decrypts, if it does. */
  datatype Request = Request(sub: Submission, size: int, named: bool, admitted: bool, payload: Option<Bytes>)

  /** The clock, the configuration, and what chance contributes. */
  datatype Env = Env(now: Time, cfg: Config, iv: Bytes, noise: nat -> real, fault: Fault)

  datatype Note = BadIdentifiers | BadRound | BadSize | NotAdmitted | StaleBase | BadAssignment(verdict: Verdict)
    | RoundClosed | AlreadySubmitted | Undecryptable | BadDimensions | Attempted(message: Message)

  datatype Response = Response(accepted: bool, received: nat, required: int, aggregated: bool, modelVersion: int,
                               keyVersion: int, note: Note)

  datatype SubmitEffect = SubmitEffect(world: World, stage: Stage, recorded: bool, response: Response)

  function Incoming(req: Request): Submission {
    Named(req.sub)
  }

  function KeyOf(req: Request): RoundKey {
    RoundKey(Normalized(req.sub.scope), req.sub.round)
  }

  predicate IsStale(t: Tables, sub: Submission) {
    var current := ActiveVersion(t.models, sub.scope);
    sub.baseVersion > 0 && current > 0 && sub.baseVersion != current
  }

  predicate HasActiveJob(t: Tables, scope: Scope) {
    LastActive(t.jobs, scope) >= 0
  }

  /** The checks that need no state. */
  function Preliminary(req: Request): Option<Note> {
    if !req.named then Some(BadIdentifiers)
    else if req.sub.round <= 0 then Some(BadRound)
    else if req.size <= 0 then Some(BadSize)
    else if !req.admitted then Some(NotAdmitted)
    else None
  }

  /** The tables after the assignment was looked at: leases may have expired. */
  function ScreenedTables(w: World, req: Request, now: Time): Tables {
    var sub := Incoming(req);
    if Preliminary(req).None? && !IsStale(w.tables, sub) && HasActiveJob(w.tables, sub.scope)
    then Validate(w.tables, sub, now).tables else w.tables
  }

  /** Why a submission does not get as far as the buffer, if so. */
  function Screen(w: World, req: Request, now: Time): Option<Note> {
    var sub := Incoming(req);
    if Preliminary(req).Some? then Preliminary(req)
    else if IsStale(w.tables, sub) then Some(StaleBase)
    else if HasActiveJob(w.tables, sub.scope) && Validate(w.tables, sub, now).result != Accepted then
      Some(BadAssignment(Validate(w.tables, sub, now).result))
    else ScreenRound(w.buffer, req)
  }

  function ScreenRound(b: Buffer, req: Request): Option<Note> {
    if KeyOf(req) in b.completed then Some(RoundClosed)
    else if req.sub.client in RoundOf(b.weights, KeyOf(req)) then Some(AlreadySubmitted)
    else match req.payload
      case None => Some(Undecryptable)
      case Some(bytes) => if |bytes| % 4 != 0 then Some(BadDimensions) else None
  }

  lemma RefusedUnlessPayload(b: Buffer, req: Request)
    ensures ScreenRound(b, req).None? ==> req.payload.Some?
  {
  }

  function Refusal(w: World, req: Request, note: Note): Response {
    var version := if note.StaleBase? || note.BadAssignment? || note.RoundClosed? || note.AlreadySubmitted?
      then ActiveVersion(w.tables.models, Normalized(req.sub.scope)) else 0;
    Response(false, 0, 0, false, version, w.keys.active, note)
  }

  function Required(p: Setup, t: Tables, scope: Scope): int {
    var k := LastActive(t.jobs, scope);
    if k >= 0 && t.jobs[k].minClients > 0 then t.jobs[k].minClients else p.requiredClients
  }

  function AttemptFor(p: Setup, t: Tables, req: Request, cfg: Config): Attempt {
    var bytes := match req.payload case Some(b) => b case None => [];
    Attempt(KeyOf(req), req.sub.client, Max(1, req.size), p.codec.fromBytes(bytes),
            Required(p, t, Normalized(req.sub.scope)), cfg)
  }

  /** The whole handler: screen, count, attempt, and settle the assignment and the job. */
  function Submit(p: Setup, w: World, req: Request, env: Env, raw: Vec, verdict: Validation): SubmitEffect {
    var t := ScreenedTables(w, req, env.now);
    match Screen(w, req, env.now)
    case Some(note) => SubmitEffect(w.(tables := t, clock := env.now), NotReached, false, Refusal(w, req, note))
    case None =>
      var counted := t.(totalSubmissions := t.totalSubmissions + 1);
      var at := AttemptFor(p, w.tables, req, env.cfg);
      var e := Settle(HasActiveJob(w.tables, Normalized(req.sub.scope)), at, Incoming(req), env.now,
                      Attempting(p, w.(tables := counted), at, env, raw, verdict));
      e.(world := e.world.(file := Some(Save(e.world.tables)), clock := env.now))
  }

  datatype AttemptResult = AttemptResult(world: World, stage: Stage, outcome: Outcome)

  /** The attempt with what it leaves in the buffer, the store and the checkpoint directory. */
  function Attempting(p: Setup, w: World, at: Attempt, env: Env, raw: Vec, verdict: Validation): AttemptResult {
    var e := Add(w.buffer, p.sqrt, at, raw, verdict, env.noise, env.fault, NextVersion(w.tables.models, at.key.scope));
    AttemptResult(
      w.(buffer := e.buffer, tables := TablesAfter(w.tables, at, e.stage, w.keys.active, env.now),
         files := FilesAfter(w.files, at.key, e.stage, BlobOf(p, w.keys, env.iv, e.stage))),
      e.stage, e.outcome)
  }

  function BlobOf(p: Setup, k: Crypto.KeyState, iv: Bytes, stage: Stage): Bytes {
    Crypto.EncryptBlob(p.aead, k, iv, p.codec.toBytes(if stage.Published? then stage.weights else []))
  }

  /** After an accepted attempt an active job's assignment is marked submitted, and an aggregated round advances the
      job. */
  function Settle(hasJob: bool, at: Attempt, sub: Submission, now: Time, a: AttemptResult): SubmitEffect {
    var w := a.world;
    var received := |RoundOf(w.buffer.weights, at.key)|;
    var note := Attempted(a.outcome.message);
    if !a.outcome.accepted then
      SubmitEffect(w, a.stage, true,
                   Response(false, received, at.required, false, a.outcome.modelVersion, w.keys.active, note))
    else if !hasJob then
      SubmitEffect(w, a.stage, true,
                   Response(true, received, at.required, a.outcome.aggregated, a.outcome.modelVersion, w.keys.active,
                            note))
    else
      var acc := Accept(w.tables, sub, now);
      if acc.result != Accepted then
        SubmitEffect(w.(tables := acc.tables), a.stage, true,
                     Response(false, received, at.required, false, a.outcome.modelVersion, w.keys.active,
                              BadAssignment(acc.result)))
      else
        SubmitEffect(w.(tables := if a.outcome.aggregated
                                  then Advance(acc.tables, sub.scope, sub.round, a.outcome.modelVersion, now).tables
                                  else acc.tables),
                     a.stage, true,
                     Response(true, received, at.required, a.outcome.aggregated, a.outcome.modelVersion, w.keys.active,
                              note))
  }

  /** raw and verdict are what the aggregation step may come up with for this submission. */
  ghost predicate Plausible(p: Setup, w: World, req: Request, env: Env, raw: Vec, verdict: Validation) {
    Screen(w, req, env.now).None? ==>
      Aggregates(w.buffer, p.sqrt, AttemptFor(p, w.tables, req, env.cfg), p.finite, raw, verdict)
  }

  // ----- Rolling back -----

  datatype RollbackReply = InvalidTarget | VersionNotFound | CheckpointMissing | CheckpointUnreadable | BadTensor
    | RolledBackTo(model: ModelRecord)

  datatype RollbackEffect = RollbackEffect(world: World, reply: RollbackReply)

  /** Reads a checkpoint back. */
  function ReadCheckpoint(p: Setup, w: World, path: RoundKey): Result<Vec> {
    if path !in w.files then Fail
    else match Crypto.DecryptBlob(p.aead, w.keys, w.files[path])
      case Fail => Fail
      case Ok(plain) => if |plain| % 4 != 0 then Fail else Ok(p.codec.fromBytes(plain))
  }

  function Restored(b: Buffer, m: ModelRecord, weights: Vec): Buffer {
    b.(latest := b.latest[Normalized(m.scope) := Snapshot(m.round, m.version, weights)])
  }

  /** The registry moves first; a checkpoint that cannot be read leaves the buffer behind. */
  function RollBack(p: Setup, w: World, request: Scope, target: int): RollbackEffect {
    if target <= 0 then RollbackEffect(w, InvalidTarget)
    else
      var e := Rollback(w.tables, Normalized(request), target);
      var moved := w.(tables := e.tables, file := if e.saved then Some(Save(e.tables)) else w.file);
      match e.result
      case None => RollbackEffect(moved, VersionNotFound)
      case Some(m) =>
        if m.path !in w.files then RollbackEffect(moved, CheckpointMissing)
        else match Crypto.DecryptBlob(p.aead, w.keys, w.files[m.path])
          case Fail => RollbackEffect(moved, CheckpointUnreadable)
          case Ok(plain) =>
            if |plain| % 4 != 0 then RollbackEffect(moved, BadTensor)
            else RollbackEffect(moved.(buffer := Restored(w.buffer, m, p.codec.fromBytes(plain))), RolledBackTo(m))
  }

  // ----- Starting a process -----

  /** Publishes the checkpoint of every active model that can be read. */
  function RestoreModels(p: Setup, w: World, models: seq<ModelRecord>): Buffer {
    if |models| == 0 then w.buffer
    else
      var b, m := RestoreModels(p, w, models[..|models| - 1]), models[|models| - 1];
      if !m.active then b
      else match ReadCheckpoint(p, w, m.path)
        case Fail => b
        case Ok(weights) => Restored(b, m, weights)
  }

  /** What is left on disk when a process ends. */
  datatype Disk = Disk(files: map<RoundKey, Bytes>, file: Option<Json>, keys: Crypto.KeyDisk)

  /** A process start: load the keys, load the state file, note the key version, and restore the active models. There
      is no process if the keys do not load. */
  function Booted(p: Setup, d: Disk, now: Time, random: Bytes): Option<World> {
    match Crypto.LoadKeys(d.keys, random)
    case None => None
    case Some(ring) =>
      var t := LoadedTables(EMPTY_TABLES, d.file, now).(activeKeyVersion := ring.keys.active);
      var started := World(EMPTY_BUFFER, t, ring.keys, d.files, Some(Save(t)), ring.disk, now);
      Some(started.(buffer := RestoreModels(p, started, t.models)))
  }

  function DiskOf(w: World): Disk {
    Disk(w.files, w.file, w.keyDisk)
  }

  // ----- Creating jobs -----

  datatype JobRequest = JobRequest(scope: Scope, dataset: string, targetRounds: int, plannedClients: int,
                                   minClients: int,
                                   ttl: int, notes: string, named: bool, datasetKnown: bool)

  datatype JobReply = BadJobIdentifiers | BadTarget | BadClients | TooFewPlanned | BadTtl | UnknownDataset
    | Created(job: Job)

  function JudgeJob(r: JobRequest): Option<JobReply> {
    if !r.named then Some(BadJobIdentifiers)
    else if r.targetRounds <= 0 then Some(BadTarget)
    else if r.plannedClients <= 0 || r.minClients <= 0 then Some(BadClients)
    else if r.plannedClients < r.minClients then Some(TooFewPlanned)
    else if r.ttl < 30 then Some(BadTtl)
    else if !r.datasetKnown then Some(UnknownDataset)
    else None
  }

  function JobRecord(r: JobRequest): Job {
    Job("", r.scope, r.dataset, Max(1, r.targetRounds), Max(1, r.plannedClients), Max(1, r.minClients), Max(30, r.ttl),
        Planned, 1, 0, 0, 0, 0, r.notes)
  }

  function JobCreated(w: World, r: JobRequest, now: Time): World {
    if JudgeJob(r).Some? then w
    else
      var t := CreateJob(w.tables, JobRecord(r), now);
      w.(tables := t, file := Some(Save(t)), clock := now)
  }

  // ----- Rotating keys -----

  function Rotated(w: World, newKey: Bytes): World {
    var ring := Crypto.RotatedRing(Crypto.Keyring(w.keys, w.keyDisk), newKey);
    var t := w.tables.(activeKeyVersion := ring.keys.active);
    w.(keys := ring.keys, keyDisk := ring.disk, tables := t,
       file := if w.tables.activeKeyVersion != ring.keys.active then Some(Save(t)) else w.file)
  }

  // ----- The service -----

  class Server {
    const store: StateStore
    const buffer: WeightBuffer
    const crypto: Crypto.CryptoEngine
    const disk: CheckpointDisk
    const requiredClients: int
    const defaultTtl: int
    ghost var clock: Time

    ghost function State(): World
      reads this, store, buffer, crypto, disk
    {
      World(buffer.State(), store.View(), crypto.Keys(), disk.files, store.file, crypto.Disk(), clock)
    }

    ghost function Given(): Setup {
      Setup(buffer.sqrt, buffer.finite, buffer.codec, crypto.aead, requiredClients, defaultTtl)
    }

    /** A service over a loaded store and loaded keys; it restores the active models into the empty buffer. */
    constructor (store: StateStore, buffer: WeightBuffer, crypto: Crypto.CryptoEngine, disk: CheckpointDisk,
                 requiredClients: int, defaultTtl: int, ghost now: Time)
      requires buffer.State() == EMPTY_BUFFER
      modifies buffer
      ensures this.store == store && this.buffer == buffer && this.crypto == crypto && this.disk == disk
      ensures this.requiredClients == requiredClients && this.defaultTtl == defaultTtl
      ensures var started :=
        World(EMPTY_BUFFER, store.View(), crypto.Keys(), disk.files, store.file, crypto.Disk(), now);
        State() == started.(buffer := RestoreModels(Given(), started, store.models))
    {
      this.store, this.buffer, this.crypto, this.disk := store, buffer, crypto, disk;
      this.requiredClients, this.defaultTtl := requiredClients, defaultTtl;
      this.clock := now;
      new;
      RestorePersistedModels();
    }

    method RestorePersistedModels()
      modifies buffer
      ensures State() == old(State()).(buffer := RestoreModels(Given(), old(State()), store.models))
    {
      hide Crypto.DecryptBlob;
      ghost var before := State();
      for i := 0 to |store.models|
        invariant State() == before.(buffer := RestoreModels(Given(), before, store.models[..i]))
      {
        assert store.models[..i + 1][..i] == store.models[..i];
        var model := store.models[i];
        if model.active && model.path in disk.files {
          var plain := crypto.Decrypt(disk.files[model.path]);
          if plain.Ok? && |plain.value| % 4 == 0 {
            buffer.RestoreLatestGlobalModel(model.scope, model.round, model.version,
                                            buffer.codec.fromBytes(plain.value));
          }
        }
      }
      assert store.models[..|store.models|] == store.models;
    }

    method Refuse(version: int, note: Note) returns (response: Response)
      ensures response == Response(false, 0, 0, false, version, crypto.activeKeyVersion, note)
    {
      return Response(false, 0, 0, false, version, crypto.activeKeyVersion, note);
    }

    /** The checks that need no state. */
    method CheckFields(req: Request) returns (refusal: Option<Response>)
      ensures refusal == match Preliminary(req) case Some(note) => Some(Refusal(State(), req, note)) case None => None
    {
      var r;
      if !req.named { r := Refuse(0, BadIdentifiers); return Some(r); }
      if req.sub.round <= 0 { r := Refuse(0, BadRound); return Some(r); }
      if req.size <= 0 { r := Refuse(0, BadSize); return Some(r); }
      if !req.admitted { r := Refuse(0, NotAdmitted); return Some(r); }
      refusal := None;
    }

    /** The checks against the round buffer, and the shape of the payload. */
    method CheckRound(req: Request, current: int) returns (refusal: Option<Response>)
      requires current == ActiveVersion(store.models, Normalized(req.sub.scope))
      ensures refusal
        == match ScreenRound(buffer.State(), req) case Some(note) => Some(Refusal(State(), req, note)) case None => None
    {
      hide ActiveVersion;
      var r;
      var completed := buffer.IsRoundCompleted(KeyOf(req));
      if completed { r := Refuse(current, RoundClosed); return Some(r); }
      var submitted := buffer.HasClientSubmission(KeyOf(req), req.sub.client);
      if submitted { r := Refuse(current, AlreadySubmitted); return Some(r); }
      if req.payload.None? { r := Refuse(0, Undecryptable); return Some(r); }
      if |req.payload.value| % 4 != 0 { r := Refuse(0, BadDimensions); return Some(r); }
      refusal := None;
    }

    /** The checks before the attempt, in the handler's order. */
    method CheckSubmission(req: Request, now: Time) returns (refusal: Option<Response>, job: Option<Job>)
      modifies store
      ensures var w := old(State());
        && State() == w.(tables := ScreenedTables(w, req, now))
        && refusal == (match Screen(w, req, now) case Some(note) => Some(Refusal(w, req, note)) case None => None)
        && (refusal.None? ==> req.payload.Some? && job == ActiveJob(w.tables, Normalized(req.sub.scope)))
    {
      hide Validate, ActiveVersion, LastActive, Preliminary, ScreenRound;
      var sub := Incoming(req);
      job := None;
      refusal := CheckFields(req);
      if refusal.Some? { return; }
      var current := store.GetActiveModelVersion(sub.scope);
      if sub.baseVersion > 0 && current > 0 && sub.baseVersion != current {
        var r := Refuse(current, StaleBase);
        return Some(r), None;
      }
      job := store.GetActiveTrainingJob(sub.scope);
      if job.Some? {
        ValidateShape(store.View(), sub, now);
        var verdict := store.ValidateTrainingAssignmentSubmission(sub, now);
        if verdict != Accepted {
          var r := Refuse(current, BadAssignment(verdict));
          return Some(r), job;
        }
      }
      refusal := CheckRound(req, current);
      RefusedUnlessPayload(buffer.State(), req);
    }

    /** The handler of SubmitWeights. */
    method SubmitWeights(req: Request, env: Env) returns (response: Response, ghost raw: Vec, ghost verdict: Validation)
      requires |env.iv| == Crypto.IV_SIZE
      modifies store, buffer, disk, this`clock
      ensures Plausible(Given(), old(State()), req, env, raw, verdict)
      ensures var e := Submit(Given(), old(State()), req, env, raw, verdict);
        State() == e.world && response == e.response
    {
      hide Validate, Accept, Advance, Add, ScreenedTables, Screen, Aggregates, Save, Attempting;
      ghost var before := State();
      var refusal, job := CheckSubmission(req, env.now);
      clock := env.now;
      if refusal.Some? {
        return refusal.value, [], Valid;
      }
      var required := if job.Some? && job.value.minClients > 0 then job.value.minClients else requiredClients;
      assert required == Required(Given(), before.tables, Normalized(req.sub.scope));
      var at :=
        Attempt(KeyOf(req), req.sub.client, Max(1, req.size), buffer.codec.fromBytes(req.payload.value), required,
                env.cfg);
      response, raw, verdict := TakeSubmission(job.Some?, at, before, req, env);
    }

    /** Counts the submission, hands it to the buffer and settles what comes of it. */
    method TakeSubmission(hasJob: bool, at: Attempt, ghost before: World, req: Request, env: Env)
      returns (response: Response, ghost raw: Vec, ghost verdict: Validation)
      requires |env.iv| == Crypto.IV_SIZE && Screen(before, req, env.now).None?
      requires State() == before.(tables := ScreenedTables(before, req, env.now), clock := env.now)
      requires hasJob == HasActiveJob(before.tables, Normalized(req.sub.scope)) && at.key == KeyOf(req)
      modifies store, buffer, disk
      ensures Aggregates(before.buffer, buffer.sqrt, at, buffer.finite, raw, verdict)
      ensures var t := old(store.View());
        var e := Settle(hasJob, at, Incoming(req), env.now,
                        Attempting(Given(), before.(tables := t.(totalSubmissions := t.totalSubmissions + 1)), at, env,
                                   raw, verdict));
        State() == e.world.(file := Some(Save(e.world.tables)), clock := env.now) && response == e.response
    {
      hide Validate, Accept, Advance, Add, ScreenedTables, Screen, Aggregates, Save, Settle;
      store.RecordWeightSubmission();
      ghost var counted := before.(tables := store.View());
      var outcome, aggregated;
      outcome, aggregated, raw, verdict :=
        buffer.AddWeightAndCheckAggregate(at, crypto, store, disk, env.noise, env.iv, env.fault, env.now);
      ghost var a := Attempting(Given(), counted, at, env, raw, verdict);
      AttemptKeepsLedger(Given(), counted, at, env, raw, verdict);
      ScreenedIsAccepted(before, a.world.tables, req, env.now);
      response := SettleSubmission(hasJob, at, Incoming(req), env.now, outcome, a);
    }

    /** What the handler does once the buffer has answered. */
    method SettleSubmission(hasJob: bool, at: Attempt, sub: Submission, now: Time, outcome: Outcome,
                            ghost a: AttemptResult)
      returns (response: Response)
      requires State() == a.world.(file := store.file, clock := clock) && a.outcome == outcome
      requires NormalizedKey(at.key) == at.key && Normalized(sub.scope) == sub.scope
      requires store.file == Some(Save(store.View())) && (hasJob ==> HasActiveJob(store.View(), sub.scope))
      modifies store
      ensures var e := Settle(hasJob, at, sub, now, a);
        State() == e.world.(file := store.file, clock := clock) && response == e.response
      ensures !hasJob || !outcome.accepted || Accept(a.world.tables, sub, now).result == Accepted ==>
        store.file == Some(Save(store.View()))
    {
      hide Accept, CloseRound, AdvancedJob, LastActive, Save;
      var received := buffer.CountClients(at.key);
      var note := Attempted(outcome.message);
      if !outcome.accepted {
        return Response(false, received, at.required, false, outcome.modelVersion, crypto.activeKeyVersion, note);
      }
      if hasJob {
        AcceptedSaves(store.View(), sub, now);
        AcceptShape(store.View(), sub, now);
        var verdict := store.AcceptTrainingAssignmentSubmission(sub, now);
        if verdict != Accepted {
          return Response(false, received, at.required, false, outcome.modelVersion, crypto.activeKeyVersion,
                          BadAssignment(verdict));
        }
        if outcome.aggregated {
          store.AdvanceTrainingJobRound(sub.scope, sub.round, outcome.modelVersion, now);
        }
      }
      response :=
        Response(true, received, at.required, outcome.aggregated, outcome.modelVersion, crypto.activeKeyVersion, note);
    }

    /** Activates an earlier version and publishes its checkpoint. */
    method RollbackModel(request: Scope, target: int) returns (reply: RollbackReply)
      modifies store, buffer
      ensures var e := RollBack(Given(), old(State()), request, target); State() == e.world && reply == e.reply
    {
      hide Rollback, Save;
      if target <= 0 {
        return InvalidTarget;
      }
      var restored := store.RollbackModel(request, target);
      if restored.None? {
        return VersionNotFound;
      }
      var model := restored.value;
      if model.path !in disk.files {
        return CheckpointMissing;
      }
      var plain := crypto.Decrypt(disk.files[model.path]);
      if plain.Fail? {
        return CheckpointUnreadable;
      }
      if |plain.value| % 4 != 0 {
        return BadTensor;
      }
      buffer.RestoreLatestGlobalModel(model.scope, model.round, model.version, buffer.codec.fromBytes(plain.value));
      reply := RolledBackTo(model);
    }

    /** Rotates the master key and notes its version in the store. */
    method RotateAtRestKey(random: Bytes) returns (version: int)
      requires crypto.Valid() && |random| == Crypto.KEY_SIZE && crypto.activeKeyVersion < Crypto.MAX_INT
      modifies store, crypto
      ensures crypto.Valid() && version == old(crypto.activeKeyVersion) + 1
      ensures State() == Rotated(old(State()), random)
      ensures crypto.key == random && crypto.keyVersions == old(crypto.keyVersions)[version := random]
      ensures crypto.files == old(crypto.files)[Crypto.Versioned(version) := random]
      ensures store.View() == old(store.View()).(activeKeyVersion := version)
      ensures store.file == if old(store.activeKeyVersion) != version then Some(Save(store.View())) else old(store.file)
    {
      version := crypto.RotateMasterKey(random);
      store.UpdateActiveKeyVersion(version);
    }

    /** Checks an admin's request for a job and creates it. */
    method CreateTrainingJob(request: JobRequest, now: Time) returns (reply: JobReply)
      modifies store, this`clock
      ensures State() == JobCreated(old(State()), request, now)
      ensures reply == match JudgeJob(request)
        case Some(refusal) => refusal
        case None => Created(PreparedJob(old(store.View()), JobRecord(request), now))
    {
      hide CreateJob, PreparedJob, Save;
      if !request.named { return BadJobIdentifiers; }
      if request.targetRounds <= 0 { return BadTarget; }
      if request.plannedClients <= 0 || request.minClients <= 0 { return BadClients; }
      if request.plannedClients < request.minClients { return TooFewPlanned; }
      if request.ttl < 30 { return BadTtl; }
      if !request.datasetKnown { return UnknownDataset; }
      var job := store.CreateTrainingJob(
        Job("", request.scope, request.dataset, Max(1, request.targetRounds), Max(1, request.plannedClients),
            Max(1, request.minClients), Max(30, request.ttl), Planned, 1, 0, 0, 0, 0, request.notes), now);
      clock := now;
      reply := Created(job);
    }
  }

  /** The main program's start over what is on disk. */
  method Boot(p: Setup, d: Disk, now: Time, random: Bytes) returns (server: Option<Server>)
    requires |random| == Crypto.KEY_SIZE
    ensures server.Some? <==> Booted(p, d, now, random).Some?
    ensures server.Some? ==> fresh(server.value) && server.value.Given() == p
    ensures server.Some? ==> server.value.State() == Booted(p, d, now, random).value
  {
    hide Save;
    var crypto := new Crypto.CryptoEngine(p.aead, d.keys.files, d.keys.registry);
    var ok := crypto.LoadOrGenerateKey(random);
    if !ok {
      return None;
    }
    var store := new StateStore(d.file);
    store.Load(now);
    store.UpdateActiveKeyVersion(crypto.activeKeyVersion);
    var buffer := new WeightBuffer(p.sqrt, p.finite, p.codec);
    var disk := new CheckpointDisk(d.files);
    var s := new Server(store, buffer, crypto, disk, p.requiredClients, p.defaultTtl, now);
    server := Some(s);
  }

  /** The attempt touches neither jobs nor assignments. */
  lemma AttemptKeepsLedger(p: Setup, w: World, at: Attempt, env: Env, raw: Vec, verdict: Validation)
    ensures var t := Attempting(p, w, at, env, raw, verdict).world.tables;
      t.jobs == w.tables.jobs && t.assignments == w.tables.assignments
  {
    hide Add, FilesAfter, BlobOf, NextVersion, Deactivate;
  }

  /** A submission that passed the screen while its scope had an active job is accepted after the attempt: between the
      two, jobs and assignments do not change. */
  lemma ScreenedIsAccepted(w: World, u: Tables, req: Request, now: Time)
    requires Screen(w, req, now).None?
    requires u.jobs == ScreenedTables(w, req, now).jobs && u.assignments == ScreenedTables(w, req, now).assignments
    ensures HasActiveJob(w.tables, Normalized(req.sub.scope)) ==>
      HasActiveJob(u, Normalized(req.sub.scope)) && Accept(u, Incoming(req), now).result == Accepted
  {
    hide Accept, LastActive, ActiveVersion;
    if HasActiveJob(w.tables, Normalized(req.sub.scope)) {
      ValidateShape(w.tables, Incoming(req), now);
      ValidatedIsAccepted(w.tables, u, Incoming(req), now);
    }
  }

  lemma ValidateShape(t: Tables, sub: Submission, now: Time)
    ensures var e := Validate(t, sub, now); e.tables == ExpireTables(t, now) && !e.saved
  {
    hide LastActive, Find;
    OverdueAlreadyExpired(t, sub, now);
  }

  lemma AcceptedSaves(t: Tables, sub: Submission, now: Time)
    requires HasActiveJob(t, sub.scope)
    ensures Accept(t, sub, now).result == Accepted ==> Accept(t, sub, now).saved
  {
    hide LastActive, Find;
  }

  function ActiveJob(t: Tables, scope: Scope): Option<Job> {
    var k := LastActive(t.jobs, scope);
    if k < 0 then None else Some(t.jobs[k])
  }
}
