/** The server as a state machine. */
module Steps {
  import opened Basics
  import opened ByteStrings
  import opened Vectors
  import opened Records
  import opened StateFile
  import opened StateStore
  import opened Aggregation
  import opened WeightBuffer
  import opened FederatedService
  import opened Ledger
  import Crypto

  // ----- Steps -----

  datatype Step =
    | Submits(req: Request, env: Env, raw: Vec, verdict: Validation)
    | Leases(scope: Scope, client: string, modelVersion: int, now: Time)
    | Creates(job: JobRequest, now: Time)
    | RollsBack(request: Scope, target: int)
    | Rotates(newKey: Bytes)
    | Restarts(now: Time, random: Bytes)

  function Handled(p: Setup, w: World, s: Step): SubmitEffect
    requires s.Submits?
  {
    Submit(p, w, s.req, s.env, s.raw, s.verdict)
  }

  function Moved(p: Setup, w: World, s: Step): World {
    match s
    case Submits(_, _, _, _) => Handled(p, w, s).world
    case Leases(scope, client, version, now) =>
      var e := Lease(w.tables, Normalized(scope), client, version, p.requiredClients, p.defaultTtl, now);
      w.(tables := e.tables, file := if e.saved then Some(Save(e.tables)) else w.file, clock := now)
    case Creates(job, now) => JobCreated(w, job, now)
    case RollsBack(request, target) => RollBack(p, w, request, target).world
    case Rotates(newKey) => Rotated(w, newKey)
    case Restarts(now, random) =>
      match Booted(p, DiskOf(w), now, random)
      case Some(started) => started
      case None => w
  }

  /** What the outside world owes each step; the clock does not go back. */
  ghost predicate Allowed(p: Setup, w: World, s: Step) {
    match s
    case Submits(req, env, raw, verdict) =>
      Plausible(p, w, req, env, raw, verdict) && |env.iv| == Crypto.IV_SIZE && w.clock <= env.now
    case Leases(_, _, _, now) => now > 0 && w.clock <= now
    case Creates(job, now) => NewId(w.tables, JobRecord(job), now) && w.clock <= now
    case RollsBack(_, _) => true
    case Rotates(newKey) => Crypto.OpAllowed(w.keys, Crypto.RotateTo(newKey))
    case Restarts(now, random) => |random| == Crypto.KEY_SIZE && w.clock <= now
  }

  /** A submission names an assignment of the job it names. */
  ghost predicate OwnAssignment(w: World, s: Step) {
    s.Submits? ==> OwnJob(w.tables, Incoming(s.req))
  }

  // ----- What a submission does to the tables -----

  function Counted(w: World, req: Request, now: Time): Tables {
    var t := ScreenedTables(w, req, now);
    t.(totalSubmissions := t.totalSubmissions + 1)
  }

  function AttemptOf(p: Setup, w: World, s: Step): AttemptResult
    requires s.Submits?
  {
    Attempting(p, w.(tables := Counted(w, s.req, s.env.now)), AttemptFor(p, w.tables, s.req, s.env.cfg), s.env, s.raw,
               s.verdict)
  }

  /** The submission got past the screen, so the buffer saw it. */
  predicate Screened(w: World, s: Step) {
    s.Submits? && Screen(w, s.req, s.env.now).None?
  }

  function Settled(hasJob: bool, a: AttemptResult, sub: Submission, now: Time): Tables {
    if !a.outcome.accepted || !hasJob then a.world.tables
    else
      var acc := Accept(a.world.tables, sub, now).tables;
      if a.outcome.aggregated then Advance(acc, sub.scope, sub.round, a.outcome.modelVersion, now).tables else acc
  }

  /** A refused submission at most expires leases; one that reached the buffer is settled without a refusal. */
  lemma SubmitShape(p: Setup, w: World, s: Step)
    requires s.Submits?
    ensures !Screened(w, s) ==>
      && Handled(p, w, s).world == w.(tables := ScreenedTables(w, s.req, s.env.now), clock := s.env.now)
      && Handled(p, w, s).stage == NotReached && !Handled(p, w, s).recorded
    ensures Screened(w, s) ==>
      var a := AttemptOf(p, w, s);
      var t := Settled(HasActiveJob(w.tables, KeyOf(s.req).scope), a, Incoming(s.req), s.env.now);
      && Handled(p, w, s).stage == a.stage
      && Handled(p, w, s).world == a.world.(tables := t, file := Some(Save(t)), clock := s.env.now)
      && a.world.tables.jobs == w.tables.jobs
      && a.world.tables.assignments == ScreenedTables(w, s.req, s.env.now).assignments
  {
    hide Screen, ScreenedTables, Accept, Advance, Attempting, AttemptFor, HasActiveJob;
    ScreenedSame(w, s.req, s.env.now);
    AttemptKeepsLedger(p, w.(tables := Counted(w, s.req, s.env.now)), AttemptFor(p, w.tables, s.req, s.env.cfg), s.env,
                       s.raw, s.verdict);
    if Screened(w, s) {
      ScreenedIsAccepted(w, AttemptOf(p, w, s).world.tables, s.req, s.env.now);
    }
  }

  lemma ScreenedSame(w: World, req: Request, now: Time)
    ensures var t := ScreenedTables(w, req, now); t == w.tables || t == ExpireTables(w.tables, now)
  {
    hide Validate, Preliminary, IsStale, HasActiveJob;
    ValidateShape(w.tables, Incoming(req), now);
  }

  lemma AdvanceModels(t: Tables, scope: Scope, round: int, version: int, now: Time)
    ensures var r := Advance(t, scope, round, version, now).tables;
      r.models == t.models && r.completedRounds == t.completedRounds
  {
    hide LastActive;
  }

  lemma LeaseModels(t: Tables, scope: Scope, client: string, version: int, defaultMin: int, ttl: int, now: Time)
    ensures var r := Lease(t, scope, client, version, defaultMin, ttl, now).tables;
      r.models == t.models && r.completedRounds == t.completedRounds
  {
    hide LastActive, FindLease, CountLeases, Capacity;
  }

  lemma RollbackShape(p: Setup, w: World, request: Scope, target: int)
    ensures var t := RollBack(p, w, request, target).world.tables;
      t == if target <= 0 then w.tables else Rollback(w.tables, Normalized(request), target).tables
  {
    hide Rollback, Crypto.DecryptBlob;
  }

  // ----- What a submission will do, known before it does it -----

  lemma ScreenedIsNew(w: World, s: Step)
    requires Screened(w, s)
    ensures KeyOf(s.req) !in w.buffer.completed && s.req.sub.client !in RoundOf(w.buffer.weights, KeyOf(s.req))
  {
    hide Validate, IsStale, Preliminary, HasActiveJob;
  }

  function AttemptOn(p: Setup, w: World, s: Step): Attempt
    requires s.Submits?
  {
    AttemptFor(p, w.tables, s.req, s.env.cfg)
  }

  /** The submission passes the screen and fills its round with well-formed tensors. */
  ghost predicate Fills(p: Setup, w: World, s: Step) {
    && Screened(w, s) && Reaches(w.buffer, AttemptOn(p, w, s))
    && WellFormed(RoundTensors(w.buffer, p.sqrt, AttemptOn(p, w, s)), p.finite)
  }

  /** And the checkpoint can be written. */
  ghost predicate Closes(p: Setup, w: World, s: Step) {
    Fills(p, w, s) && s.env.fault == NoFault
  }

  /** The model a closing submission publishes. */
  function PublishedBy(p: Setup, w: World, s: Step): Vec
    requires s.Submits?
  {
    var at := AttemptOn(p, w, s);
    FinalWeights(at, p.sqrt, Buffered(w.buffer, at, Clip(p.sqrt, at.weights, at.cfg.clipNorm)), s.raw, s.env.noise)
  }

  /** How far a submission gets is decided by its round, its tensors and the fault alone. */
  lemma StageKnown(p: Setup, w: World, s: Step)
    requires s.Submits? && Plausible(p, w, s.req, s.env, s.raw, s.verdict)
    ensures !Fills(p, w, s) ==> Handled(p, w, s).stage == NotReached
    ensures Fills(p, w, s) && s.env.fault != NoFault ==> Handled(p, w, s).stage == Failed(s.env.fault)
    ensures Closes(p, w, s) ==>
      Handled(p, w, s).stage.Published? && Handled(p, w, s).stage.weights == PublishedBy(p, w, s)
  {
    hide Submit, Screen, ScreenedTables, Settled, HasActiveJob, WellFormed, IsAggregate, Reaches, RoundTensors,
         RoundSizes, FilesAfter, TablesAfter, BlobOf, Clip, FinalWeights, Required, NextVersion;
    SubmitShape(p, w, s);
    if Screened(w, s) {
      ScreenedIsNew(w, s);
      KnownStage(w.buffer, p, AttemptOn(p, w, s), s.raw, s.verdict, s.env.noise, s.env.fault,
                 NextVersion(Counted(w, s.req, s.env.now).models, KeyOf(s.req).scope));
    }
  }

  lemma KnownStage(b: Buffer, p: Setup, at: Attempt, raw: Vec, verdict: Validation, noise: nat -> real, fault: Fault,
                   version: int)
    requires Aggregates(b, p.sqrt, at, p.finite, raw, verdict) && at.key !in b.completed
    ensures var fills := Reaches(b, at) && WellFormed(RoundTensors(b, p.sqrt, at), p.finite);
      var stage := Add(b, p.sqrt, at, raw, verdict, noise, fault, version).stage;
      && (!fills ==> stage == NotReached)
      && (fills && fault != NoFault ==> stage == Failed(fault))
      && (fills && fault == NoFault ==>
            stage.Published?
            && stage.weights
              == FinalWeights(at, p.sqrt, Buffered(b, at, Clip(p.sqrt, at.weights, at.cfg.clipNorm)), raw, noise))
  {
    hide WellFormed, IsAggregate, Clip, FinalWeights, Removed, WithMomentum, RoundTensors, RoundSizes;
    BufferedRound(b, p.sqrt, at);
  }
}
