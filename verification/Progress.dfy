/** How jobs get through their rounds, and when one never does. */
module Progress {
  import opened Records
  import opened StateStore
  import opened WeightBuffer
  import opened FederatedService
  import opened Ledger
  import opened Steps
  import opened Persistence
  import opened ControlPlane
  import opened Consistency
  import RoundBuffer

  /** This step closes a round of job k. */
  ghost predicate Advances(p: Setup, w: World, s: Step, k: int) {
    s.Submits? && Handled(p, w, s).stage.Published? && k == LastActive(w.tables.jobs, KeyOf(s.req).scope)
  }

  ghost predicate SupersedesIn(s: Step, scope: Scope) {
    s.Creates? && JudgeJob(s.job).None? && Normalized(s.job.scope) == scope
  }

  /** b is a later without a round closed: started, or superseded. */
  ghost predicate SameProgress(a: Job, b: Job) {
    && b.id == a.id && b.scope == a.scope && b.targetRounds == a.targetRounds
    && b.completedRounds == a.completedRounds && b.currentRound == a.currentRound
    && (b.status == a.status || (IsActive(a) && (b.status == Running || b.status == Superseded)))
  }

  /** What one step does to job k. */
  ghost predicate JobMoves(p: Setup, w: World, s: Step, k: nat)
    requires k < |w.tables.jobs|
  {
    var js := Moved(p, w, s).tables.jobs;
    && |js| >= |w.tables.jobs|
    && (if Advances(p, w, s, k) then
          js[k] == AdvancedJob(w.tables.jobs[k], s.req.sub.round, Handled(p, w, s).response.modelVersion, s.env.now)
        else
          SameProgress(w.tables.jobs[k], js[k])
          && (IsActive(w.tables.jobs[k]) && !SupersedesIn(s, w.tables.jobs[k].scope) ==> IsActive(js[k])))
  }

  lemma SettledResponse(hasJob: bool, at: Attempt, sub: Submission, now: Time, a: AttemptResult)
    ensures Settle(hasJob, at, sub, now, a).response.modelVersion == a.outcome.modelVersion
  {
    hide Accept, Advance;
  }

  lemma SubmitMovesJob(p: Setup, w: World, s: Step, k: nat)
    requires s.Submits? && k < |w.tables.jobs|
    ensures JobMoves(p, w, s, k)
  {
    hide Screen, ScreenedTables, Settle, Attempting, AttemptFor, LastActive, Accept, RoundBuffer.Tried, TablesAfter,
         FilesAfter, AdvancedJob, CloseRound, JudgeJob;
    SubmitShape(p, w, s);
    ScreenedSame(w, s.req, s.env.now);
    if Screened(w, s) {
      var a := AttemptOf(p, w, s);
      AttemptIsTry(p, w, s);
      TriedOutcome(w.buffer, p.sqrt, TryOf(p, w, s));
      AcceptShape(a.world.tables, Incoming(s.req), s.env.now);
      SettledResponse(HasActiveJob(w.tables, KeyOf(s.req).scope), AttemptFor(p, w.tables, s.req, s.env.cfg),
                      Incoming(s.req), s.env.now, a);
    }
  }

  /** An active job has rounds to go. */
  ghost predicate Unfinished(j: Job) {
    IsActive(j) ==> j.completedRounds < j.targetRounds
  }

  lemma StepMovesJob(p: Setup, w: World, s: Step, k: nat)
    requires Persistent(w) && Allowed(p, w, s) && k < |w.tables.jobs| && Unfinished(w.tables.jobs[k])
    ensures JobMoves(p, w, s, k)
  {
    match s
    case Submits(_, _, _, _) =>
      hide Persistent, Plausible, JobMoves;
      SubmitMovesJob(p, w, s, k);
    case Leases(_, _, _, _) =>
      hide Persistent, JobMoves;
      LeaseMovesJob(p, w, s, k);
    case Creates(job, now) =>
      hide Persistent, JudgeJob, JobMoves, Moved, NewId;
      CreateMovesJob(p, w, s, k);
    case RollsBack(request, target) =>
      hide Persistent, RollBack;
      RollbackShape(p, w, request, target);
    case Rotates(_) => hide Persistent;
    case Restarts(now, random) =>
      hide Persistent, Booted;
      RestartFinds(p, w, now, random);
  }

  lemma LeaseMovesJob(p: Setup, w: World, s: Step, k: nat)
    requires s.Leases? && k < |w.tables.jobs| && Unfinished(w.tables.jobs[k])
    ensures JobMoves(p, w, s, k)
  {
    hide LastActive, FindLease, CountLeases, Capacity, Expire;
  }

  lemma CreateMovesJob(p: Setup, w: World, s: Step, k: nat)
    requires s.Creates? && k < |w.tables.jobs|
    ensures JobMoves(p, w, s, k)
  {
    hide JudgeJob;
    if JudgeJob(s.job).None? {
      var saved := PreparedJob(w.tables, JobRecord(s.job), s.now);
      assert CreateJob(w.tables, JobRecord(s.job), s.now).jobs[k] == Supersede(w.tables.jobs, saved.scope)[k];
    }
  }

  // ----- Counting rounds over runs -----

  /** The rounds of job k that were closed along a run. */
  ghost function RoundsClosed(p: Setup, start: Trace, steps: seq<Step>, k: nat): nat {
    if |steps| == 0 then 0
    else
      var before := steps[..|steps| - 1];
      RoundsClosed(p, start, before, k) + if Advances(p, Run(p, start, before).world, steps[|steps| - 1], k) then 1
        else 0
  }

  ghost predicate CountedRight(t: Tables, k: nat, n: nat) {
    if k < |t.jobs| then
      t.jobs[k].completedRounds == n && n <= t.jobs[k].targetRounds
        && (t.jobs[k].status == Completed <==> n == t.jobs[k].targetRounds)
    else n == 0
  }

  lemma StepCounts(p: Setup, w: World, s: Step, k: nat, n: nat)
    requires Persistent(w) && Allowed(p, w, s) && CountedRight(w.tables, k, n)
    ensures CountedRight(Moved(p, w, s).tables, k, if Advances(p, w, s, k) then n + 1 else n)
  {
    hide Allowed, Moved, Handled, Persistent;
    if k < |w.tables.jobs| {
      StepMovesJob(p, w, s, k);
    } else {
      NewJobStartsAtZero(p, w, s, k);
    }
  }

  lemma NewJobStartsAtZero(p: Setup, w: World, s: Step, k: nat)
    requires Persistent(w) && Allowed(p, w, s) && k >= |w.tables.jobs|
    ensures !Advances(p, w, s, k)
    ensures k < |Moved(p, w, s).tables.jobs| ==>
      var j := Moved(p, w, s).tables.jobs[k]; j.completedRounds == 0 && j.targetRounds >= 1 && j.status == Planned
  {
    match s
    case Submits(_, _, _, _) =>
      hide Persistent, Plausible, Submit, Settled, ScreenedTables, Screen;
      SubmitJobs(p, w, s);
    case Leases(_, _, _, _) => hide Persistent, LastActive, FindLease, CountLeases, Capacity;
    case Creates(_, _) => hide Persistent, Supersede, NextVersion, ActiveVersion;
    case RollsBack(request, target) =>
      hide Persistent, RollBack;
      RollbackShape(p, w, request, target);
    case Rotates(_) => hide Persistent;
    case Restarts(now, random) =>
      hide Persistent, Booted;
      RestartFinds(p, w, now, random);
  }

  lemma SubmitJobs(p: Setup, w: World, s: Step)
    requires s.Submits?
    ensures |Moved(p, w, s).tables.jobs| == |w.tables.jobs|
  {
    hide Screen, ScreenedTables, Submit, Attempting, AttemptFor, LastActive, Accept;
    SubmitShape(p, w, s);
    ScreenedSame(w, s.req, s.env.now);
    if Screened(w, s) {
      AcceptShape(AttemptOf(p, w, s).world.tables, Incoming(s.req), s.env.now);
    }
  }

  /** Over every run from a first start, restarts included and whatever leases submissions name, a job has completed
      exactly the rounds closed for it, never more than its target, and is completed exactly when it reached that. */
  lemma JobsCountTheirRounds(p: Setup, start: Trace, steps: seq<Step>, k: nat)
    requires FirstProcess(p, start) && AllAllowed(p, start, steps)
    ensures CountedRight(Run(p, start, steps).world.tables, k, RoundsClosed(p, start, steps, k))
  {
    FirstStart(p, start);
    hide FirstProcess, Run, AllAllowed, RoundsClosed, Safe, Persistent;
    CountsAlong(p, start, steps, k);
  }

  lemma {:induction false} CountsAlong(p: Setup, start: Trace, steps: seq<Step>, k: nat)
    requires Safe(p, start.world.tables) && Persistent(start.world) && CountedRight(start.world.tables, k, 0)
    requires AllAllowed(p, start, steps)
    ensures CountedRight(Run(p, start, steps).world.tables, k, RoundsClosed(p, start, steps, k))
  {
    hide Traced, Moved, Allowed, Safe, CountedRight, Advances, Follows, Persistent;
    if |steps| > 0 {
      var before := steps[..|steps| - 1];
      RunStep(p, start, steps);
      CountsAlong(p, start, before, k);
      RunSafe(p, start, before);
      hide Run;
      StepCounts(p, Run(p, start, before).world, steps[|steps| - 1], k, RoundsClosed(p, start, before, k));
    }
  }

  // ----- Jobs that never get anywhere -----

  /** The round the scope's active job waits for is one the buffer has already closed. */
  ghost predicate Stalled(w: World, scope: Scope) {
    var k := LastActive(w.tables.jobs, scope);
    k >= 0 && Unfinished(w.tables.jobs[k]) && RoundKey(scope, w.tables.jobs[k].currentRound) in w.buffer.completed
  }

  /** Every submission to a stalled scope is refused, unless it is for another round than the job's, which takes an
      assignment of another job. */
  lemma StalledRefuses(p: Setup, w: World, s: Step)
    requires s.Submits? && JobsOk(w.tables) && Lockstep(w.tables) && Stalled(w, KeyOf(s.req).scope)
    ensures OwnAssignment(w, s) ==>
      !Screened(w, s) && !Handled(p, w, s).response.accepted && !Handled(p, w, s).stage.Published?
    ensures Screened(w, s) ==>
      s.req.sub.round != w.tables.jobs[LastActive(w.tables.jobs, KeyOf(s.req).scope)].currentRound
        && !OwnAssignment(w, s)
  {
    hide JobsOk, Lockstep, LastActive, Screen, OwnAssignment, ScreenedTables;
    if Screened(w, s) {
      ScreenedIsNew(w, s);
      if OwnAssignment(w, s) {
        ScreenedRoundIsCurrent(w, s);
        assert false;
      }
    }
  }

  /** A job starts out stalled exactly when the scope's first round is already closed. */
  lemma NewJobStalls(p: Setup, w: World, s: Step)
    requires s.Creates? && JudgeJob(s.job).None? && Safe(p, w.tables) && Allowed(p, w, s)
    ensures var scope := Normalized(s.job.scope);
      Stalled(Moved(p, w, s), scope) <==> RoundKey(scope, 1) in w.buffer.completed
  {
    hide Safe, JudgeJob, Supersede, NewId;
    var js := Moved(p, w, s).tables.jobs;
    assert ActiveIn(js[|js| - 1], Normalized(s.job.scope));
    assert js[|js| - 1].currentRound == 1;
  }

  lemma OnlyActive(t: Tables, k: nat, scope: Scope)
    requires JobsOk(t) && k < |t.jobs| && ActiveIn(t.jobs[k], scope)
    ensures LastActive(t.jobs, scope) == k
  {
  }

  lemma CompletedGrows(p: Setup, w: World, s: Step)
    requires !s.Restarts?
    ensures w.buffer.completed <= Moved(p, w, s).buffer.completed
  {
    if s.Submits? && Screened(w, s) {
      hide Screen, ScreenedTables, Submit, AttemptFor, RoundBuffer.Tried, Settled, RoundBuffer.Received, Without,
           FinalWeights;
      SubmitShape(p, w, s);
      AttemptIsTry(p, w, s);
      RoundBuffer.AddEnds(w.buffer, p.sqrt, TryOf(p, w, s));
    } else {
      hide Moved, Screen;
      QuietStepMarks(p, w, s);
    }
  }

  /** What the caller can tell beforehand: the submission closes a round of the scope. */
  ghost predicate ClosesIn(p: Setup, w: World, s: Step, scope: Scope) {
    Closes(p, w, s) && KeyOf(s.req).scope == scope
  }

  /** The scope's active job is still stalled, and is the same in number and rounds. */
  ghost predicate StillStalled(t: Tables, w: World, scope: Scope) {
    var k := LastActive(t.jobs, scope);
    && Stalled(w, scope) && k >= 0 && LastActive(w.tables.jobs, scope) == k
    && w.tables.jobs[k].completedRounds == t.jobs[k].completedRounds
  }

  lemma AdvancesIsCloses(p: Setup, w: World, s: Step, scope: Scope)
    requires Allowed(p, w, s) && HasActiveJob(w.tables, scope)
    ensures Advances(p, w, s, LastActive(w.tables.jobs, scope)) <==> ClosesIn(p, w, s, scope)
  {
    hide Fills, Submit, Plausible;
    if s.Submits? { StageKnown(p, w, s); } else { NotSubmitted(p, w, s); }
  }

  lemma NotSubmitted(p: Setup, w: World, s: Step)
    requires !s.Submits?
    ensures !Closes(p, w, s)
  {
  }

  /** Within one process, and until a new job replaces it, a stalled job stays where it is exactly as long as no
      submission closes a round of its scope. */
  lemma StallPersists(p: Setup, w: World, s: Step, scope: Scope)
    requires Safe(p, w.tables) && Persistent(w) && Allowed(p, w, s)
    requires Stalled(w, scope) && !s.Restarts? && !SupersedesIn(s, scope)
    ensures StillStalled(w.tables, Moved(p, w, s), scope) <==> !ClosesIn(p, w, s, scope)
  {
    hide Safe, Persistent, Allowed, Moved, Handled, LastActive, JudgeJob, JobsOk, Follows, ClosesIn;
    var k := LastActive(w.tables.jobs, scope);
    StepMovesJob(p, w, s, k);
    AdvancesIsCloses(p, w, s, scope);
    hide Advances;
    if !ClosesIn(p, w, s, scope) {
      StepKeepsSafe(p, w, s);
      SafeParts(p, Moved(p, w, s).tables);
      OnlyActive(Moved(p, w, s).tables, k, scope);
      CompletedGrows(p, w, s);
    }
  }

  /** And only a submission that names another job's assignment can. */
  lemma StalledOwnMisses(p: Setup, w: World, s: Step, scope: Scope)
    requires Safe(p, w.tables) && Lockstep(w.tables) && Stalled(w, scope) && OwnAssignment(w, s)
    ensures !ClosesIn(p, w, s, scope)
  {
    hide JobsOk, Lockstep, Stalled, OwnAssignment, Screen;
    SafeParts(p, w.tables);
    if s.Submits? && KeyOf(s.req).scope == scope {
      StalledRefuses(p, w, s);
    }
  }

  /** No step of the run restarts the process or creates another job for the scope. */
  ghost predicate LeftAlone(steps: seq<Step>, scope: Scope) {
    forall i :: 0 <= i < |steps| ==> !steps[i].Restarts? && !SupersedesIn(steps[i], scope)
  }

  ghost predicate AllMiss(p: Setup, start: Trace, steps: seq<Step>, scope: Scope) {
    |steps| > 0 ==>
      var before := steps[..|steps| - 1];
      AllMiss(p, start, before, scope) && !ClosesIn(p, Run(p, start, before).world, steps[|steps| - 1], scope)
  }

  ghost predicate AlwaysStalled(p: Setup, start: Trace, steps: seq<Step>, scope: Scope) {
    && StillStalled(start.world.tables, Run(p, start, steps).world, scope)
    && (|steps| > 0 ==> AlwaysStalled(p, start, steps[..|steps| - 1], scope))
  }

  lemma StillOn(t: Tables, w: World, w': World, scope: Scope)
    requires StillStalled(t, w, scope)
    ensures StillStalled(t, w', scope) <==> StillStalled(w.tables, w', scope)
  {
    hide Stalled, LastActive;
  }

  /** So over whole runs a stalled job closes no further round exactly if no submission closes a round of its scope. */
  lemma {:induction false} StalledForever(p: Setup, start: Trace, steps: seq<Step>, scope: Scope)
    requires Safe(p, start.world.tables) && Persistent(start.world) && Stalled(start.world, scope)
    requires AllAllowed(p, start, steps) && LeftAlone(steps, scope)
    ensures AlwaysStalled(p, start, steps, scope) <==> AllMiss(p, start, steps, scope)
  {
    hide Traced, Moved, Allowed, Safe, LastActive, Follows, SupersedesIn, Persistent, ClosesIn;
    if |steps| > 0 {
      hide Stalled, StillStalled;
      var before := steps[..|steps| - 1];
      RunStep(p, start, steps);
      StalledForever(p, start, before, scope);
      RunSafe(p, start, before);
      hide Run;
      if AlwaysStalled(p, start, before, scope) {
        var w := Run(p, start, before).world;
        NowStalled(start.world.tables, w, scope);
        StallPersists(p, w, steps[|steps| - 1], scope);
        StillOn(start.world.tables, w, Run(p, start, steps).world, scope);
      }
    }
  }

  lemma NowStalled(t: Tables, w: World, scope: Scope)
    requires StillStalled(t, w, scope)
    ensures Stalled(w, scope)
  {
  }

  /** In particular if every submission names an assignment of the job it names: whatever clients do then, the job of a
      stalled scope never gets on. */
  lemma OwnStalledForever(p: Setup, start: Trace, steps: seq<Step>, scope: Scope)
    requires Safe(p, start.world.tables) && Persistent(start.world) && Lockstep(start.world.tables)
    requires Stalled(start.world, scope) && AllAllowed(p, start, steps) && LeftAlone(steps, scope)
    requires AllOwn(p, start, steps)
    ensures AllMiss(p, start, steps, scope) && AlwaysStalled(p, start, steps, scope)
  {
    hide Run, Safe, Persistent, Lockstep, Stalled, AllAllowed, AllOwn, AllMiss, AlwaysStalled;
    OwnMisses(p, start, steps, scope);
    StalledForever(p, start, steps, scope);
  }

  lemma {:induction false} OwnMisses(p: Setup, start: Trace, steps: seq<Step>, scope: Scope)
    requires Safe(p, start.world.tables) && Persistent(start.world) && Lockstep(start.world.tables)
    requires Stalled(start.world, scope) && AllAllowed(p, start, steps) && LeftAlone(steps, scope)
    requires AllOwn(p, start, steps)
    ensures AllMiss(p, start, steps, scope)
  {
    if |steps| > 0 {
      hide Run, Allowed, Safe, Lockstep, OwnAssignment, Follows, Persistent, ClosesIn, Stalled, AlwaysStalled,
           AlwaysInStep, AllOnTime, AllAllowed, AllOwn, LeftAlone;
      var before := steps[..|steps| - 1];
      LastOf(p, start, steps, scope);
      OwnMisses(p, start, before, scope);
      StalledForever(p, start, before, scope);
      StalledNow(p, start, before, scope);
      OwnRunInLockstep(p, start, before);
      InStepNow(p, start, before);
      RunSafe(p, start, before);
      StalledOwnMisses(p, Run(p, start, before).world, steps[|steps| - 1], scope);
    }
  }

  lemma LastOf(p: Setup, start: Trace, steps: seq<Step>, scope: Scope)
    requires |steps| > 0 && AllAllowed(p, start, steps) && AllOwn(p, start, steps) && LeftAlone(steps, scope)
    ensures var before := steps[..|steps| - 1];
      && AllAllowed(p, start, before) && AllOwn(p, start, before) && LeftAlone(before, scope)
      && OwnAssignment(Run(p, start, before).world, steps[|steps| - 1])
  {
    hide Run, Allowed, OwnAssignment, SupersedesIn;
  }

  lemma StalledNow(p: Setup, start: Trace, steps: seq<Step>, scope: Scope)
    ensures AlwaysStalled(p, start, steps, scope) ==> Stalled(Run(p, start, steps).world, scope)
  {
    hide Run, Stalled;
  }

  lemma InStepNow(p: Setup, start: Trace, steps: seq<Step>)
    ensures AlwaysInStep(p, start, steps) ==> Lockstep(Run(p, start, steps).world.tables)
  {
    hide Run, Lockstep;
  }
}
