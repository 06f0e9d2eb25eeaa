/** What every run of the server keeps of jobs, leases, models and rounds. */
module ControlPlane {
  import opened Basics
  import opened ByteStrings
  import opened Vectors
  import opened Records
  import opened StateFile
  import opened StateStore
  import opened Aggregation
  import opened WeightBuffer
  import opened FederatedService
  import opened Ledger
  import opened Registry
  import opened Steps
  import opened Persistence
  import opened LoneClient
  import Recovery
  import Crypto

  // ----- Leases and models -----

  /** At most one active job a scope; leases unique and within capacity; versions counted up with one active model. */
  ghost predicate Safe(p: Setup, t: Tables) {
    JobsOk(t) && LeasesOk(t, p.requiredClients) && RegistryOk(t)
  }

  /** Assignments after any number of calls: the old ones in place, each moved only along the life of a lease. */
  ghost predicate Follows(s: seq<Assignment>, s': seq<Assignment>) {
    |s| <= |s'| && forall i :: 0 <= i < |s| ==> SameLease(s[i], s'[i]) && StatusPath(s[i].status, s'[i].status)
  }

  lemma EvolvedFollows(s: seq<Assignment>, s': seq<Assignment>)
    requires Evolved(s, s')
    ensures Follows(s, s')
  {
  }

  lemma FollowsOn(s: seq<Assignment>, s': seq<Assignment>, s'': seq<Assignment>)
    requires Follows(s, s') && Follows(s', s'')
    ensures Follows(s, s'')
  {
  }

  /** Safe and Follows look only at these parts of the tables. */
  lemma SameParts(p: Setup, t: Tables, t': Tables)
    requires Safe(p, t) && t'.jobs == t.jobs && t'.assignments == t.assignments && RegistryOk(t')
    ensures Safe(p, t') && Follows(t.assignments, t'.assignments)
  {
    hide JobsOk, RegistryOk;
    EvolvedSame(t.assignments);
    assert SameJobs(t, t');
    QuietKeepsLeases(t, t', p.requiredClients);
    SameJobsOk(t, t');
  }

  lemma SameModels(t: Tables, t': Tables)
    requires RegistryOk(t) && t'.models == t.models && t'.completedRounds == t.completedRounds
    ensures RegistryOk(t')
  {
  }

  lemma ScreenKeepsSafe(p: Setup, w: World, req: Request, now: Time)
    requires Safe(p, w.tables)
    ensures Safe(p, ScreenedTables(w, req, now)) && Safe(p, Counted(w, req, now))
    ensures Follows(w.tables.assignments, ScreenedTables(w, req, now).assignments)
  {
    hide JobsOk, LeasesOk, RegistryOk, Follows, ScreenedTables;
    var t := ScreenedTables(w, req, now);
    ScreenedSame(w, req, now);
    ExpireKeeps(w.tables, now, p.requiredClients);
    SameJobsOk(w.tables, ExpireTables(w.tables, now));
    SameModels(w.tables, t);
    EvolvedSame(w.tables.assignments);
    EvolvedFollows(w.tables.assignments, t.assignments);
    SameModels(t, Counted(w, req, now));
    SameParts(p, t, Counted(w, req, now));
  }

  lemma PublishKeepsSafe(p: Setup, t: Tables, at: Attempt, stage: Stage, keyVersion: int, now: Time)
    requires Safe(p, t)
    ensures Safe(p, TablesAfter(t, at, stage, keyVersion, now))
  {
    hide JobsOk, LeasesOk, RegistryOk, Follows;
    match stage
    case Published(v, clients) =>
      RecordKeepsRegistry(t, at.key.scope, at.key.round, at.key, at.cfg.strategy, keyVersion, clients, |v|, now);
      SameParts(p, t, TablesAfter(t, at, stage, keyVersion, now));
    case _ =>
  }

  lemma SettleKeepsSafe(p: Setup, hasJob: bool, a: AttemptResult, sub: Submission, now: Time)
    requires Safe(p, a.world.tables)
    ensures Safe(p, Settled(hasJob, a, sub, now))
    ensures Follows(a.world.tables.assignments, Settled(hasJob, a, sub, now).assignments)
  {
    hide JobsOk, LeasesOk, RegistryOk, Follows, Accept, Advance, Evolved, SameJobs;
    var t := a.world.tables;
    var acc := Accept(t, sub, now).tables;
    var adv := Advance(acc, sub.scope, sub.round, a.outcome.modelVersion, now).tables;
    AcceptKeeps(t, sub, now, p.requiredClients);
    AcceptShape(t, sub, now);
    SameModels(t, acc);
    AdvanceKeeps(acc, sub.scope, sub.round, a.outcome.modelVersion, now, p.requiredClients);
    AdvanceModels(acc, sub.scope, sub.round, a.outcome.modelVersion, now);
    SameModels(acc, adv);
    EvolvedSame(t.assignments);
    EvolvedFollows(t.assignments, t.assignments);
    EvolvedFollows(t.assignments, acc.assignments);
    EvolvedFollows(acc.assignments, adv.assignments);
    FollowsOn(t.assignments, acc.assignments, adv.assignments);
  }

  lemma SubmitKeepsSafe(p: Setup, w: World, s: Step)
    requires s.Submits? && Safe(p, w.tables)
    ensures Safe(p, Moved(p, w, s).tables) && Follows(w.tables.assignments, Moved(p, w, s).tables.assignments)
  {
    hide Safe, Follows, Screen, ScreenedTables, TablesAfter, Settled, Submit, HasActiveJob, Add, FilesAfter, BlobOf,
         AttemptFor;
    ScreenKeepsSafe(p, w, s.req, s.env.now);
    SubmitShape(p, w, s);
    if Screened(w, s) {
      var a := AttemptOf(p, w, s);
      PublishKeepsSafe(p, Counted(w, s.req, s.env.now), AttemptFor(p, w.tables, s.req, s.env.cfg), a.stage,
                       w.keys.active, s.env.now);
      SettleKeepsSafe(p, HasActiveJob(w.tables, KeyOf(s.req).scope), a, Incoming(s.req), s.env.now);
      FollowsOn(w.tables.assignments, a.world.tables.assignments, Moved(p, w, s).tables.assignments);
    }
  }

  lemma LeaseStepKeepsSafe(p: Setup, w: World, s: Step)
    requires s.Leases? && s.now > 0 && Safe(p, w.tables)
    ensures Safe(p, Moved(p, w, s).tables) && Follows(w.tables.assignments, Moved(p, w, s).tables.assignments)
  {
    hide JobsOk, LeasesOk, RegistryOk, Follows, Lease;
    var t' := Moved(p, w, s).tables;
    LeaseKeeps(w.tables, Normalized(s.scope), s.client, s.modelVersion, p.requiredClients, p.defaultTtl, s.now);
    LeaseModels(w.tables, Normalized(s.scope), s.client, s.modelVersion, p.requiredClients, p.defaultTtl, s.now);
    SameModels(w.tables, t');
    EvolvedFollows(w.tables.assignments, t'.assignments);
  }

  lemma CreateStepKeepsSafe(p: Setup, w: World, s: Step)
    requires s.Creates? && Safe(p, w.tables) && Allowed(p, w, s)
    ensures Safe(p, Moved(p, w, s).tables) && Follows(w.tables.assignments, Moved(p, w, s).tables.assignments)
  {
    hide JobsOk, LeasesOk, RegistryOk, Follows, PreparedJob;
    CreateKeepsJobs(w.tables, JobRecord(s.job), s.now);
    CreateKeepsLeases(w.tables, JobRecord(s.job), s.now, p.requiredClients);
    SameModels(w.tables, CreateJob(w.tables, JobRecord(s.job), s.now));
    EvolvedSame(w.tables.assignments);
    EvolvedFollows(w.tables.assignments, w.tables.assignments);
  }

  lemma RollbackStepKeepsSafe(p: Setup, w: World, s: Step)
    requires s.RollsBack? && Safe(p, w.tables)
    ensures Safe(p, Moved(p, w, s).tables) && Follows(w.tables.assignments, Moved(p, w, s).tables.assignments)
  {
    hide JobsOk, LeasesOk, RegistryOk, RollBack;
    RollbackShape(p, w, s.request, s.target);
    RollbackKeepsRegistry(w.tables, Normalized(s.request), s.target);
    SameParts(p, w.tables, Moved(p, w, s).tables);
  }

  lemma RecoveredFollows(p: Setup, t: Tables, r: Tables, now: Time)
    requires Safe(p, t) && Recovery.Recovered(ExpireTables(t, now), r)
    ensures Safe(p, r) && Follows(t.assignments, r.assignments)
    ensures r.jobs == t.jobs && r.models == t.models && Evolved(t.assignments, r.assignments)
      && |r.assignments| == |t.assignments|
  {
    hide JobsOk, LeasesOk, RegistryOk;
    var e := ExpireTables(t, now);
    ExpireKeeps(t, now, p.requiredClients);
    forall i | 0 <= i < |r.assignments|
      ensures SameLease(t.assignments[i], r.assignments[i])
        && StatusStep(t.assignments[i].status, r.assignments[i].status) {
      assert Recovery.SameButStamp(e.assignments[i], r.assignments[i]);
    }
    assert Evolved(t.assignments, r.assignments);
    assert SameJobs(t, r);
    QuietKeepsLeases(t, r, p.requiredClients);
    SameJobsOk(t, r);
    SameModels(t, r);
    EvolvedFollows(t.assignments, r.assignments);
  }

  /** Every step keeps leases, jobs and models safe, and moves assignments only along their life. */
  lemma StepKeepsSafe(p: Setup, w: World, s: Step)
    requires Safe(p, w.tables) && Persistent(w) && Allowed(p, w, s)
    ensures Safe(p, Moved(p, w, s).tables)
    ensures Follows(w.tables.assignments, Moved(p, w, s).tables.assignments)
  {
    match s
    case Submits(_, _, _, _) => hide Safe, Follows, Submit, Plausible; SubmitKeepsSafe(p, w, s);
    case Leases(_, _, _, _) => hide Safe, Follows, Lease; LeaseStepKeepsSafe(p, w, s);
    case Creates(_, _) => hide Safe, Follows; CreateStepKeepsSafe(p, w, s);
    case RollsBack(_, _) => hide Safe, Follows; RollbackStepKeepsSafe(p, w, s);
    case Rotates(newKey) =>
      hide JobsOk, LeasesOk, RegistryOk;
      SameModels(w.tables, Moved(p, w, s).tables);
      SameParts(p, w.tables, Moved(p, w, s).tables);
    case Restarts(now, random) =>
      hide Safe, Follows, Booted;
      RestartFinds(p, w, now, random);
      RecoveredFollows(p, w.tables, Moved(p, w, s).tables, now);
  }

  // ----- Lockstep -----

  /** Settling keeps lockstep exactly if it closes no round, or the job's current one, or its last. */
  lemma SettleKeepsLockstep(hasJob: bool, a: AttemptResult, sub: Submission, now: Time)
    requires JobsOk(a.world.tables) && Lockstep(a.world.tables) && (hasJob ==> HasActiveJob(a.world.tables, sub.scope))
    requires a.outcome.aggregated ==> a.outcome.accepted
    ensures Lockstep(Settled(hasJob, a, sub, now)) <==>
      !a.outcome.aggregated || !hasJob || RoundFits(a.world.tables, sub.scope, sub.round)
    ensures JobsInStep(Settled(hasJob, a, sub, now)) ==> Lockstep(Settled(hasJob, a, sub, now))
  {
    hide JobsOk, Lockstep, Accept, Advance, LastActive;
    var t := a.world.tables;
    var acc := Accept(t, sub, now).tables;
    AcceptShape(t, sub, now);
    SameJobsOk(t, acc);
    AcceptKeepsLockstep(t, sub, now);
    if hasJob {
      AdvanceKeepsLockstep(acc, sub.scope, sub.round, a.outcome.modelVersion, now);
    }
  }

  /** The round is the current one of the scope's active job, or that job has only one round to go. */
  predicate RoundFits(t: Tables, scope: Scope, round: int)
    requires HasActiveJob(t, scope)
  {
    var j := t.jobs[LastActive(t.jobs, scope)];
    round == j.currentRound || j.completedRounds + 1 == j.targetRounds
  }

  lemma ScreenedRoundIsCurrent(w: World, s: Step)
    requires Screened(w, s) && JobsOk(w.tables) && Lockstep(w.tables) && OwnAssignment(w, s)
    ensures var k := LastActive(w.tables.jobs, KeyOf(s.req).scope);
      k >= 0 ==> s.req.sub.round == w.tables.jobs[k].currentRound
  {
    hide JobsOk, Lockstep, LastActive, Validate;
    if HasActiveJob(w.tables, KeyOf(s.req).scope) {
      ValidatedRoundIsCurrent(w.tables, Incoming(s.req), s.env.now);
    }
  }

  /** What the caller can tell beforehand: the submission closes no round of a job, or one that fits. */
  ghost predicate OnTime(p: Setup, w: World, s: Step) {
    Closes(p, w, s) && HasActiveJob(w.tables, KeyOf(s.req).scope) ==>
      RoundFits(w.tables, KeyOf(s.req).scope, s.req.sub.round)
  }

  lemma OtherOnTime(p: Setup, w: World, s: Step)
    requires !s.Submits?
    ensures OnTime(p, w, s)
  {
  }

  /** A submission that names an assignment of the job it names is on time. */
  lemma OwnIsOnTime(p: Setup, w: World, s: Step)
    requires JobsOk(w.tables) && Lockstep(w.tables) && OwnAssignment(w, s)
    ensures OnTime(p, w, s)
  {
    hide JobsOk, Lockstep, LastActive, Screen, Reaches, WellFormed;
    if Screened(w, s) {
      ScreenedRoundIsCurrent(w, s);
    }
  }

  lemma SubmitKeepsLockstep(p: Setup, w: World, s: Step)
    requires s.Submits? && JobsOk(w.tables) && Lockstep(w.tables) && Plausible(p, w, s.req, s.env, s.raw, s.verdict)
    ensures Lockstep(Moved(p, w, s).tables) <==> OnTime(p, w, s)
    ensures JobsInStep(Moved(p, w, s).tables) ==> Lockstep(Moved(p, w, s).tables)
  {
    hide JobsOk, Lockstep, JobsInStep, Screen, ScreenedTables, Settled, LastActive, Attempting, AttemptFor, Submit,
         Reaches, WellFormed, Plausible;
    var t := ScreenedTables(w, s.req, s.env.now);
    SubmitShape(p, w, s);
    StageKnown(p, w, s);
    ScreenedSame(w, s.req, s.env.now);
    ExpireEvolves(w.tables.assignments, s.env.now);
    EvolvedKeepsLockstep(w.tables, Expire(w.tables.assignments, s.env.now));
    if Screened(w, s) {
      var a := AttemptOf(p, w, s);
      AttemptOutcome(p, w, s);
      SameJobsOk(w.tables, a.world.tables);
      SameLockstep(t, a.world.tables);
      SettleKeepsLockstep(HasActiveJob(w.tables, KeyOf(s.req).scope), a, Incoming(s.req), s.env.now);
    }
  }

  lemma AttemptOutcome(p: Setup, w: World, s: Step)
    requires s.Submits?
    ensures var a := AttemptOf(p, w, s);
      (a.outcome.aggregated <==> a.stage.Published?) && (a.outcome.aggregated ==> a.outcome.accepted)
  {
    hide Clip, FinalWeights, WithMomentum, Removed, FilesAfter, TablesAfter, ScreenedTables, NextVersion, Required;
  }

  lemma SameLockstep(t: Tables, t': Tables)
    requires Lockstep(t) && t'.jobs == t.jobs && t'.assignments == t.assignments
    ensures Lockstep(t')
  {
  }

  /** A step keeps jobs going through their rounds one by one exactly if it is on time. */
  lemma StepKeepsLockstep(p: Setup, w: World, s: Step)
    requires Safe(p, w.tables) && Persistent(w) && Lockstep(w.tables) && Allowed(p, w, s)
    ensures Lockstep(Moved(p, w, s).tables) <==> OnTime(p, w, s)
  {
    hide Safe, Lockstep, Follows, JobsOk, LeasesOk, RegistryOk, Persistent;
    match s
    case Submits(_, _, _, _) =>
      hide Submit, Plausible, OnTime;
      assert JobsOk(w.tables) by { SafeParts(p, w.tables); }
      SubmitKeepsLockstep(p, w, s);
    case Leases(scope, client, version, now) =>
      hide Lease;
      SafeParts(p, w.tables);
      LeaseKeepsLockstep(w.tables, Normalized(scope), client, version, p.requiredClients, p.defaultTtl, now);
    case Creates(job, now) =>
      hide PreparedJob, CreateJob;
      SafeParts(p, w.tables);
      if JudgeJob(job).None? {
        CreateKeepsLockstep(w.tables, JobRecord(job), now, p.requiredClients);
      }
    case RollsBack(request, target) =>
      hide RollBack;
      RollbackShape(p, w, request, target);
      SameLockstep(w.tables, Moved(p, w, s).tables);
    case Rotates(newKey) => SameLockstep(w.tables, Moved(p, w, s).tables);
    case Restarts(now, random) =>
      hide Booted, Evolved;
      RestartFinds(p, w, now, random);
      var recovered := Moved(p, w, s).tables;
      RecoveredFollows(p, w.tables, recovered, now);
      EvolvedKeepsLockstep(w.tables, recovered.assignments);
      SameLockstep(w.tables.(assignments := recovered.assignments), recovered);
  }

  /** A job replaced in its second or a later round leaves leases behind that break lockstep: submitted under the id of
      the job that replaced it, such a lease validates, fills its round, and takes the new job from round 1 past rounds
      it never closed. Any server in which a job has got that far is one such step away from it. */
  lemma ReplacedJobBreaksLockstep(p: Setup, w: World, j: nat, job: JobRequest, cfg: Config, bytes: Bytes, iv: Bytes,
                                  now: Time)
    returns (s: Step)
    requires Safe(p, w.tables) && Persistent(w) && Lockstep(w.tables) && j < |w.tables.assignments|
    requires LeftBehind(w, w.tables.assignments[j], Normalized(job.scope), now)
    requires Find(w.tables.assignments, w.tables.assignments[j].id) == j
    requires JudgeJob(job).None? && job.minClients == 1 && job.targetRounds >= 2
    requires NewId(w.tables, JobRecord(job), now) && w.clock <= now && Sendable(p, cfg, bytes) && |iv| == Crypto.IV_SIZE
    ensures var w1 := Moved(p, w, Creates(job, now));
      && Allowed(p, w, Creates(job, now)) && Lockstep(w1.tables)
      && Allowed(p, w1, s) && !OnTime(p, w1, s) && !Lockstep(Moved(p, w1, s).tables)
  {
    hide JobsOk, LeasesOk, RegistryOk, Persistent, Lockstep, Fills, Validate, Supersede, Plausible, JudgeJob,
         PreparedJob, IsStale;
    var b, scope := w.tables.assignments[j], Normalized(job.scope);
    var w1 := Moved(p, w, Creates(job, now));
    OtherOnTime(p, w, Creates(job, now));
    StepKeepsLockstep(p, w, Creates(job, now));
    StepKeepsSafe(p, w, Creates(job, now));
    var saved := PreparedJob(w.tables, JobRecord(job), now);
    NewJobActive(w.tables, job, now);
    var sub := Submission(scope, b.client, saved.id, b.id, b.round, 0);
    s := LoneSubmission(sub, cfg, bytes, iv, NoFault, now);
    LiveLeaseValidates(w1.tables, Incoming(s.req), j, now);
    LoneScreened(w1, sub, cfg, bytes, iv, now);
    LoneFills(p, w1, sub, cfg, bytes, iv, NoFault, now);
    SafeParts(p, w1.tables);
    SubmitKeepsLockstep(p, w1, s);
  }

  /** A live lease of a second or later round of the scope, the round open and still without tensors. */
  predicate LeftBehind(w: World, b: Assignment, scope: Scope, now: Time) {
    && b.status == Leased && b.expiresAt > now && b.scope == scope && b.round >= 2 && b.id != ""
    && RoundKey(scope, b.round) !in w.buffer.completed
    && RoundKey(scope, b.round) !in w.buffer.weights && RoundKey(scope, b.round) !in w.buffer.sizes
  }

  lemma NewJobActive(t: Tables, job: JobRequest, now: Time)
    requires JudgeJob(job).None?
    ensures var t', saved := CreateJob(t, JobRecord(job), now), PreparedJob(t, JobRecord(job), now);
      && LastActive(t'.jobs, Normalized(job.scope)) == |t.jobs| && t'.jobs[|t.jobs|] == saved && saved.id != ""
      && saved.currentRound == 1 && saved.completedRounds == 0 && saved.targetRounds == job.targetRounds
      && saved.minClients == job.minClients && t'.assignments == t.assignments
  {
    hide Supersede, ActiveVersion;
  }

  lemma LoneScreened(w: World, sub: Submission, cfg: Config, bytes: Bytes, iv: Bytes, now: Time)
    requires Normalized(sub.scope) == sub.scope && sub.round >= 1 && sub.baseVersion <= 0 && |bytes| % 4 == 0
    requires HasActiveJob(w.tables, sub.scope) ==> Validate(w.tables, sub, now).result == Accepted
    requires RoundKey(sub.scope, sub.round) !in w.buffer.completed
      && RoundKey(sub.scope, sub.round) !in w.buffer.weights
    ensures forall fault :: Screened(w, LoneSubmission(sub, cfg, bytes, iv, fault, now))
  {
    hide Validate, LastActive, ActiveVersion;
  }

  lemma SafeParts(p: Setup, t: Tables)
    requires Safe(p, t)
    ensures JobsOk(t) && LeasesOk(t, p.requiredClients) && RegistryOk(t)
  {
  }

  // ----- Runs -----

  /** A run with what happened along it: the weights each recorded model was aggregated with, the tensors that went into
      the models of the present process, and all the tensors that ever went into a model of their round. */
  datatype Trace = Trace(world: World, published: seq<Vec>, produced: map<RoundKey, Tensors>,
                         lineage: map<RoundKey, Tensors>)

  function Traced(p: Setup, tr: Trace, s: Step): Trace {
    var w := Moved(p, tr.world, s);
    if s.Submits? && Handled(p, tr.world, s).stage.Published? then
      var key, used := KeyOf(s.req), RoundTensors(tr.world.buffer, p.sqrt, AttemptOn(p, tr.world, s));
      Trace(w, tr.published + [Handled(p, tr.world, s).stage.weights], tr.produced[key := used],
            tr.lineage[key := RoundOf(tr.lineage, key) + used])
    else tr.(world := w, produced := if s.Restarts? then map[] else tr.produced)
  }

  ghost function Run(p: Setup, start: Trace, steps: seq<Step>): Trace {
    if |steps| == 0 then start else Traced(p, Run(p, start, steps[..|steps| - 1]), steps[|steps| - 1])
  }

  ghost predicate AllAllowed(p: Setup, start: Trace, steps: seq<Step>) {
    |steps| > 0 ==>
      var before := steps[..|steps| - 1];
      AllAllowed(p, start, before) && Allowed(p, Run(p, start, before).world, steps[|steps| - 1])
  }

  ghost predicate AllOwn(p: Setup, start: Trace, steps: seq<Step>) {
    |steps| > 0 ==>
      var before := steps[..|steps| - 1];
      AllOwn(p, start, before) && OwnAssignment(Run(p, start, before).world, steps[|steps| - 1])
  }

  ghost predicate AllOnTime(p: Setup, start: Trace, steps: seq<Step>) {
    |steps| > 0 ==>
      var before := steps[..|steps| - 1];
      AllOnTime(p, start, before) && OnTime(p, Run(p, start, before).world, steps[|steps| - 1])
  }

  /** A first start: no state file, no checkpoints, and a key directory without a registry. */
  ghost predicate StartsFrom(p: Setup, start: Trace, keys: Crypto.KeyDisk, now: Time, random: Bytes) {
    && keys.registry.None? && |random| == Crypto.KEY_SIZE
    && Booted(p, Disk(map[], None, keys), now, random) == Some(start.world)
    && start.published == [] && start.produced == map[] && start.lineage == map[]
  }

  ghost predicate FirstProcess(p: Setup, start: Trace) {
    exists keys, now, random :: StartsFrom(p, start, keys, now, random)
  }

  /** It starts with nothing in the tables and the buffer, and everything on disk. */
  lemma FirstStart(p: Setup, start: Trace)
    requires FirstProcess(p, start)
    ensures Safe(p, start.world.tables) && Lockstep(start.world.tables) && Persistent(start.world)
    ensures start.world.buffer == EMPTY_BUFFER && start.world.tables == EMPTY_TABLES && start.world.files == map[]
    ensures start.published == [] && start.produced == map[] && start.lineage == map[]
  {
    hide Save;
    var keys, now, random :| StartsFrom(p, start, keys, now, random);
    Crypto.FirstLoadOk(keys, random);
    FreshlySaved(start.world);
  }

  /** Over every run, restarts included: one active job a scope, leases unique and within capacity, versions counted
      up with exactly one active, and no assignment ever left the path of its life. */
  lemma {:induction false} RunSafe(p: Setup, start: Trace, steps: seq<Step>)
    requires Safe(p, start.world.tables) && Persistent(start.world) && AllAllowed(p, start, steps)
    ensures Safe(p, Run(p, start, steps).world.tables) && Persistent(Run(p, start, steps).world)
    ensures Follows(start.world.tables.assignments, Run(p, start, steps).world.tables.assignments)
  {
    if |steps| > 0 {
      hide Run, Moved, Traced, Allowed, Safe, Follows, Persistent;
      var before := steps[..|steps| - 1];
      var tr := Run(p, start, before);
      RunStep(p, start, steps);
      RunSafe(p, start, before);
      StepKeepsSafe(p, tr.world, steps[|steps| - 1]);
      StepKeepsPersistent(p, tr.world, steps[|steps| - 1]);
      FollowsOn(start.world.tables.assignments, tr.world.tables.assignments,
                Run(p, start, steps).world.tables.assignments);
    }
  }

  /** At the end of every run no round of a job has more leases out than clients planned for, where the job plans any;
      otherwise no more than it needs, or the server by default. */
  lemma RunWithinPlan(p: Setup, start: Trace, steps: seq<Step>, k: nat, round: int, held: set<int>)
    requires FirstProcess(p, start) && AllAllowed(p, start, steps)
    requires var t := Run(p, start, steps).world.tables;
      k < |t.jobs| && forall i :: i in held <==>
        0 <= i < |t.assignments| && t.assignments[i].status == Leased && t.assignments[i].jobId == t.jobs[k].id
        && t.assignments[i].round == round
    ensures var j := Run(p, start, steps).world.tables.jobs[k];
      && (j.plannedClients > 0 ==> |held| <= j.plannedClients)
      && (j.plannedClients <= 0 && j.minClients > 0 ==> |held| <= j.minClients)
      && (j.plannedClients <= 0 && j.minClients <= 0 ==> |held| <= 1 || |held| <= p.requiredClients)
  {
    hide LeasesOk, Run;
    FirstStart(p, start);
    RunSafe(p, start, steps);
    WithinPlan(Run(p, start, steps).world.tables, p.requiredClients, k, round, held);
  }

  /** Lockstep holds all along the run. */
  ghost predicate AlwaysInStep(p: Setup, start: Trace, steps: seq<Step>) {
    && Lockstep(Run(p, start, steps).world.tables)
    && (|steps| > 0 ==> AlwaysInStep(p, start, steps[..|steps| - 1]))
  }

  /** Jobs stay in step all along a run exactly if every submission in it is on time. */
  lemma {:induction false} RunInLockstep(p: Setup, start: Trace, steps: seq<Step>)
    requires Safe(p, start.world.tables) && Persistent(start.world) && Lockstep(start.world.tables)
    requires AllAllowed(p, start, steps)
    ensures AlwaysInStep(p, start, steps) <==> AllOnTime(p, start, steps)
  {
    if |steps| > 0 {
      hide Allowed, Safe, Follows, Lockstep, OnTime, Persistent, Run;
      var before := steps[..|steps| - 1];
      RunSafe(p, start, before);
      RunInLockstep(p, start, before);
      RunStep(p, start, steps);
      if AlwaysInStep(p, start, before) {
        hide Moved;
        StepKeepsLockstep(p, Run(p, start, before).world, steps[|steps| - 1]);
      }
    }
  }

  lemma RunStep(p: Setup, start: Trace, steps: seq<Step>)
    requires |steps| > 0
    ensures var tr := Run(p, start, steps[..|steps| - 1]);
      Run(p, start, steps) == Traced(p, tr, steps[|steps| - 1])
      && Run(p, start, steps).world == Moved(p, tr.world, steps[|steps| - 1])
  {
    hide Moved, Handled, RoundTensors;
  }

  /** In particular they do if every submission names an assignment of the job it names. */
  lemma {:induction false} OwnRunInLockstep(p: Setup, start: Trace, steps: seq<Step>)
    requires Safe(p, start.world.tables) && Persistent(start.world) && Lockstep(start.world.tables)
    requires AllAllowed(p, start, steps) && AllOwn(p, start, steps)
    ensures AllOnTime(p, start, steps) && AlwaysInStep(p, start, steps)
  {
    RunInLockstep(p, start, steps);
    if |steps| > 0 {
      hide Moved, Allowed, Safe, Follows, Handled, Lockstep, RoundTensors, OnTime, Persistent, OwnAssignment;
      var before := steps[..|steps| - 1];
      OwnRunInLockstep(p, start, before);
      RunSafe(p, start, before);
      SafeParts(p, Run(p, start, before).world.tables);
      OwnIsOnTime(p, Run(p, start, before).world, steps[|steps| - 1]);
    }
  }
}
