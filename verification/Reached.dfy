/** The counterexamples as runs: from any first start, by allowed steps alone. */
module Reached {
  import opened Basics
  import opened ByteStrings
  import opened Vectors
  import opened Records
  import opened StateStore
  import opened WeightBuffer
  import opened FederatedService
  import opened Ledger
  import opened Steps
  import opened Persistence
  import opened LoneClient
  import opened ControlPlane
  import opened Consistency
  import opened Scenarios
  import opened Checkpoints
  import Recovery
  import Crypto

  // ----- Runs step by step -----

  /** These steps are allowed from the start and lead there. */
  ghost predicate Leads(p: Setup, start: Trace, steps: seq<Step>, tr: Trace) {
    AllAllowed(p, start, steps) && Run(p, start, steps) == tr
  }

  lemma LeadsOn(p: Setup, start: Trace, steps: seq<Step>, tr: Trace, s: Step)
    requires Leads(p, start, steps, tr) && Allowed(p, tr.world, s)
    ensures Leads(p, start, steps + [s], Traced(p, tr, s))
  {
    hide Allowed, Traced;
    assert (steps + [s])[..|steps|] == steps;
  }

  lemma LeadsNowhere(p: Setup, start: Trace)
    ensures Leads(p, start, [], start)
  {
  }

  // ----- Creating a job and leasing its rounds -----

  lemma {:induction false} CountAtMost(s: seq<Assignment>, jobId: string, round: int, now: Time)
    ensures CountLeases(s, jobId, round, now) <= |s|
  {
    if |s| > 0 { CountAtMost(s[..|s| - 1], jobId, round, now); }
  }

  /** A lease is granted if the client has none of the round and the planned clients are not all there. */
  lemma LeaseGrants(p: Setup, w: World, scope: Scope, client: string, now: Time, k: nat)
    requires Normalized(scope) == scope && LastActive(w.tables.jobs, scope) == k && k < |w.tables.jobs|
    requires var j := w.tables.jobs[k];
      j.completedRounds < j.targetRounds && j.plannedClients > |w.tables.assignments|
    requires Current(w.tables.assignments, now) && now > 0 && w.clock <= now
    requires forall i :: 0 <= i < |w.tables.assignments| ==>
      w.tables.assignments[i].client != client || w.tables.assignments[i].status != Leased
    ensures var s, j := Leases(scope, client, 0, now), Started(w.tables.jobs[k], now);
      var r := Moved(p, w, s);
      && Allowed(p, w, s) && r.buffer == w.buffer && r.clock == now
      && r.tables.jobs == w.tables.jobs[k := j]
      && r.tables.assignments == w.tables.assignments + [NewLease(j, scope, client, 0, p.defaultTtl, now)]
  {
    hide LastActive, FindLease, CountLeases, AssignmentIdText, Expire;
    CurrentExpires(w.tables.assignments, now);
    CountAtMost(w.tables.assignments, w.tables.jobs[k].id, Max(1, w.tables.jobs[k].currentRound), now);
  }

  /** The id of a lease tells its client and its round apart. */
  lemma IdsDiffer(job: string, round: int, client: string, round': int, client': string, now: Time)
    requires (round == round' && client != client') || (round == 1 && round' == 2 && client == client')
    ensures AssignmentIdText(job, round, client, now) != AssignmentIdText(job, round', client', now)
    ensures AssignmentIdText(job, round, client, now) != ""
  {
    hide NatText;
    if round == round' {
      var head, tail := job + "::round:" + IntText(round) + "::client:", "::" + NatText(now);
      var s, t := AssignmentIdText(job, round, client, now), AssignmentIdText(job, round', client', now);
      assert s == head + client + tail && t == head + client' + tail;
      assert s[|head|..|s| - |tail|] == client && t[|head|..|t| - |tail|] == client';
    } else {
      RoundTexts();
      var head := job + "::round:";
      var s, t := AssignmentIdText(job, round, client, now), AssignmentIdText(job, round', client', now);
      assert s[|head|] == '1' && t[|head|] == '2';
    }
  }

  lemma RoundTexts()
    ensures IntText(1) == "1" && IntText(2) == "2"
  {
  }

  /** A scope, a request for a job in it, and the time all of it happens. */
  datatype Setting = Setting(scope: Scope, job: JobRequest, now: Time)

  ghost predicate Fitting(p: Setup, start: Trace, g: Setting, clients: int) {
    && FirstProcess(p, start) && start.world.clock <= g.now && g.now > 0
    && Normalized(g.scope) == g.scope && g.job.scope == g.scope
    && JudgeJob(g.job).None? && g.job.minClients == clients && g.job.plannedClients >= 3 && g.job.targetRounds >= 2
  }

  /** The job as the first lease finds it. */
  function FirstJob(g: Setting): Job
    requires JudgeJob(g.job).None?
  {
    Started(PreparedJob(EMPTY_TABLES, JobRecord(g.job), g.now), g.now)
  }

  function FirstLease(p: Setup, g: Setting, client: string): Assignment
    requires JudgeJob(g.job).None?
  {
    NewLease(FirstJob(g), g.scope, client, 0, p.defaultTtl, g.now)
  }

  lemma FirstJobIs(p: Setup, g: Setting, client: string)
    requires JudgeJob(g.job).None? && g.job.scope == g.scope && Normalized(g.scope) == g.scope
    ensures var j, a := FirstJob(g), FirstLease(p, g, client);
      && j.scope == g.scope && j.status == Running && j.currentRound == 1 && j.completedRounds == 0 && j.id != ""
      && j.targetRounds == g.job.targetRounds && j.plannedClients == g.job.plannedClients
      && j.minClients == g.job.minClients && j.ttl >= 30
      && a.jobId == j.id && a.scope == g.scope && a.client == client && a.round == 1 && a.status == Leased
      && a.expiresAt > g.now && a.id == AssignmentIdText(j.id, 1, client, g.now)
  {
    hide NatText, AssignmentIdText;
  }

  lemma OneActive(j: Job, scope: Scope)
    requires j.scope == scope && IsActive(j)
    ensures LastActive([j], scope) == 0
  {
  }

  /** A job and its first lease. */
  lemma JobAndLease(p: Setup, start: Trace, g: Setting, clients: int, client: string)
      returns (steps: seq<Step>, tr: Trace)
    requires Fitting(p, start, g, clients)
    ensures Leads(p, start, steps, tr) && tr.world.clock == g.now && tr.world.buffer == EMPTY_BUFFER
    ensures tr.world.tables.jobs == [FirstJob(g)] && tr.world.tables.assignments == [FirstLease(p, g, client)]
    ensures tr.produced == map[] && tr.lineage == map[]
  {
    hide FirstProcess, PreparedJob, JudgeJob, AssignmentIdText, LastActive;
    FirstStart(p, start);
    LeadsNowhere(p, start);
    var s1, s2 := Creates(g.job, g.now), Leases(g.scope, client, 0, g.now);
    LeadsOn(p, start, [], start, s1);
    var w1 := Moved(p, start.world, s1);
    NewJobActive(start.world.tables, g.job, g.now);
    FirstJobIs(p, g, client);
    assert Traced(p, start, s1) == start.(world := w1);
    assert w1.tables.jobs == [PreparedJob(EMPTY_TABLES, JobRecord(g.job), g.now)];
    LeaseGrants(p, w1, g.scope, client, g.now, 0);
    LeadsOn(p, start, [] + [s1], start.(world := w1), s2);
    steps := [] + [s1] + [s2];
    tr := start.(world := Moved(p, w1, s2));
  }

  /** One more lease of the first round. */
  lemma MoreLeases(p: Setup, start: Trace, g: Setting, steps: seq<Step>, tr: Trace, client: string)
    returns (steps': seq<Step>, tr': Trace)
    requires Leads(p, start, steps, tr) && tr.world.clock == g.now && g.now > 0
    requires JudgeJob(g.job).None? && g.job.scope == g.scope && Normalized(g.scope) == g.scope
      && g.job.targetRounds >= 2
    requires tr.world.tables.jobs == [FirstJob(g)] && |tr.world.tables.assignments| < g.job.plannedClients
    requires Current(tr.world.tables.assignments, g.now)
    requires forall i :: 0 <= i < |tr.world.tables.assignments| ==> tr.world.tables.assignments[i].client != client
    ensures Leads(p, start, steps', tr') && tr' == tr.(world := tr'.world)
    ensures tr'.world.clock == g.now && tr'.world.buffer == tr.world.buffer
    ensures tr'.world.tables.jobs == [FirstJob(g)]
    ensures tr'.world.tables.assignments == tr.world.tables.assignments + [FirstLease(p, g, client)]
  {
    hide FirstJob, LastActive, Lease, JudgeJob, Run, AllAllowed;
    FirstJobIs(p, g, client);
    OneActive(FirstJob(g), g.scope);
    var s := Leases(g.scope, client, 0, g.now);
    LeaseGrants(p, tr.world, g.scope, client, g.now, 0);
    LeadsOn(p, start, steps, tr, s);
    steps', tr' := steps + [s], tr.(world := Moved(p, tr.world, s));
  }

  // ----- A submission lost in a restart -----

  lemma ThreeLeases(p: Setup, start: Trace, g: Setting, a: string, b: string, d: string)
    returns (steps: seq<Step>, tr: Trace)
    requires Fitting(p, start, g, 2) && a != b && a != d && b != d
    ensures Leads(p, start, steps, tr) && tr.world.clock == g.now && tr.world.buffer == EMPTY_BUFFER
    ensures tr.world.tables.jobs == [FirstJob(g)]
    ensures tr.world.tables.assignments == [FirstLease(p, g, a), FirstLease(p, g, b), FirstLease(p, g, d)]
    ensures tr.produced == map[] && tr.lineage == map[]
  {
    hide FirstProcess, FirstJob, Leads, JudgeJob;
    FirstJobIs(p, g, a);
    FirstJobIs(p, g, b);
    FirstJobIs(p, g, d);
    hide FirstLease;
    steps, tr := JobAndLease(p, start, g, 2, a);
    steps, tr := MoreLeases(p, start, g, steps, tr, b);
    steps, tr := MoreLeases(p, start, g, steps, tr, d);
  }

  /** After the restart the ledger is as it was, and the buffer is empty. */
  lemma RestartedTrace(p: Setup, tr: Trace, now: Time, random: Bytes)
    requires Persistent(tr.world) && tr.world.clock <= now && |random| == Crypto.KEY_SIZE
    requires Current(tr.world.tables.assignments, now)
    requires forall i :: 0 <= i < |tr.world.tables.assignments| ==>
      tr.world.tables.assignments[i].status != LeaseStatus.Expired
    ensures var r := Traced(p, tr, Restarts(now, random));
      && Allowed(p, tr.world, Restarts(now, random)) && r.world.clock == now
      && r.world.tables.jobs == tr.world.tables.jobs && r.world.tables.assignments == tr.world.tables.assignments
      && r.world.buffer.weights == map[] && r.world.buffer.sizes == map[] && r.world.buffer.completed == {}
      && r.produced == map[] && r.lineage == tr.lineage
  {
    hide Persistent, Booted;
    RestartFinds(p, tr.world, now, random);
    RestartEmpties(p, tr.world, now, random);
    CurrentExpires(tr.world.tables.assignments, now);
    var r := Booted(p, DiskOf(tr.world), now, random).value;
    forall i | 0 <= i < |tr.world.tables.assignments|
      ensures r.tables.assignments[i] == tr.world.tables.assignments[i]
    {
      assert Recovery.SameButStamp(tr.world.tables.assignments[i], r.tables.assignments[i]);
    }
  }

  /** The state behind the first submission: one of three leases handed in, two left. */
  lemma HandedIn(p: Setup, start: Trace, g: Setting, a: string, b: string, d: string, cfg: Config, bytes: Bytes,
                 iv: Bytes)
    returns (steps: seq<Step>, tr: Trace)
    requires Fitting(p, start, g, 2) && a != b && a != d && b != d
    requires Sendable(p, cfg, bytes) && |iv| == Crypto.IV_SIZE
    ensures Leads(p, start, steps, tr) && tr.world.clock == g.now && tr.lineage == map[]
    ensures tr.world.tables.jobs == [FirstJob(g)]
    ensures tr.world.tables.assignments
      == [Handed(FirstLease(p, g, a), g.now), FirstLease(p, g, b), FirstLease(p, g, d)]
  {
    hide FirstProcess, FirstJob, Leads, JudgeJob, Fills, Plausible, Sendable, Handed, LastActive;
    steps, tr := ThreeLeases(p, start, g, a, b, d);
    FirstJobIs(p, g, a);
    FirstJobIs(p, g, b);
    FirstJobIs(p, g, d);
    OneActive(FirstJob(g), g.scope);
    IdsDiffer(FirstJob(g).id, 1, a, 1, b, g.now);
    hide FirstLease;
    var s := LoneSubmission(Submitting(tr.world.tables.assignments[0]), cfg, bytes, iv, NoFault, g.now);
    FirstOfTwoWaits(p, tr.world, 0, 0, cfg, bytes, iv, g.now);
    AllowedPlausible(p, tr.world, s);
    WaitingTraced(p, tr, s);
    LeadsOn(p, start, steps, tr, s);
    steps, tr := steps + [s], Traced(p, tr, s);
  }

  lemma LeadsSafe(p: Setup, start: Trace, steps: seq<Step>, tr: Trace)
    requires FirstProcess(p, start) && Leads(p, start, steps, tr)
    ensures Safe(p, tr.world.tables) && Persistent(tr.world)
  {
    hide FirstProcess, Safe, Persistent;
    FirstStart(p, start);
    RunSafe(p, start, steps);
  }

  /** From any first start: three leases, one submission, a restart, and the two other submissions. All steps are
      allowed, and the first client's assignment ends up aggregated though no tensor of its ever went in. */
  lemma SubmissionLostInARun(p: Setup, start: Trace, g: Setting, a: string, b: string, d: string, cfg: Config,
                             bytes: Bytes, iv: Bytes, random: Bytes) returns (steps: seq<Step>)
    requires Fitting(p, start, g, 2) && a != b && a != d && b != d
    requires Sendable(p, cfg, bytes) && |iv| == Crypto.IV_SIZE && |random| == Crypto.KEY_SIZE
    ensures AllAllowed(p, start, steps)
    ensures var tr := Run(p, start, steps);
      && |tr.world.tables.assignments| == 3 && tr.world.tables.assignments[0].client == a
      && tr.world.tables.assignments[0].status == Aggregated && !WentIn(tr.lineage, tr.world.tables.assignments[0])
  {
    hide FirstProcess, FirstJob, JudgeJob, Sendable, Persistent, Safe, Traced, WentIn, Allowed, LastActive,
         AssignmentIdText;
    var tr;
    steps, tr := HandedIn(p, start, g, a, b, d, cfg, bytes, iv);
    LeadsSafe(p, start, steps, tr);
    ThreeStates(p, g, a, b, d);
    TwoAreLeft(p, g, tr.world.tables, a, b, d);
    hide FirstLease, Leads, TwoLeft, Find, Current;
    var restart := Restarts(g.now, random);
    RestartedTrace(p, tr, g.now, random);
    LeadsOn(p, start, steps, tr, restart);
    steps, tr := steps + [restart], Traced(p, tr, restart);
    TwoAreLeft(p, g, tr.world.tables, a, b, d);
    var s1, s2 := RestartCanLoseSubmission(p, tr, 0, 1, 2, cfg, bytes, iv, g.now);
    LeadsOn(p, start, steps, tr, s1);
    LeadsOn(p, start, steps + [s1], Traced(p, tr, s1), s2);
    SameLineage(p, tr, s1);
    SameLineage(p, Traced(p, tr, s1), s2);
    steps := steps + [s1] + [s2];
    LeadsIs(p, start, steps, Traced(p, Traced(p, tr, s1), s2));
  }

  lemma ThreeStates(p: Setup, g: Setting, a: string, b: string, d: string)
    requires JudgeJob(g.job).None? && g.job.scope == g.scope && Normalized(g.scope) == g.scope
    ensures var az := [Handed(FirstLease(p, g, a), g.now), FirstLease(p, g, b), FirstLease(p, g, d)];
      && Current(az, g.now) && (forall i :: 0 <= i < 3 ==> az[i].status != LeaseStatus.Expired)
      && az[0].client == a && AssignedKey(az[0]) == RoundKey(g.scope, 1)
      && AssignedKey(az[1]) == RoundKey(g.scope, 1) && AssignedKey(az[2]) == RoundKey(g.scope, 1)
  {
    hide FirstJob, JudgeJob;
    FirstJobIs(p, g, a);
    FirstJobIs(p, g, b);
    FirstJobIs(p, g, d);
    hide FirstLease;
  }

  lemma TwoAreLeft(p: Setup, g: Setting, t: Tables, a: string, b: string, d: string)
    requires JudgeJob(g.job).None? && g.job.scope == g.scope && Normalized(g.scope) == g.scope && g.job.minClients == 2
    requires t.jobs == [FirstJob(g)] && a != b && a != d && b != d
    requires t.assignments == [Handed(FirstLease(p, g, a), g.now), FirstLease(p, g, b), FirstLease(p, g, d)]
    ensures var az := t.assignments;
      TwoLeft(t, az[0], az[1], az[2], g.now) && Find(az, az[1].id) == 1 && Find(az, az[2].id) == 2
  {
    hide FirstJob, JudgeJob, LastActive, AssignmentIdText;
    FirstJobIs(p, g, a);
    FirstJobIs(p, g, b);
    FirstJobIs(p, g, d);
    OneActive(FirstJob(g), g.scope);
    IdsDiffer(FirstJob(g).id, 1, a, 1, b, g.now);
    IdsDiffer(FirstJob(g).id, 1, a, 1, d, g.now);
    IdsDiffer(FirstJob(g).id, 1, b, 1, d, g.now);
    hide FirstLease;
    FoundAt(t.assignments, 1);
    FoundAt(t.assignments, 2);
    hide Find;
    var az := t.assignments;
    assert az[1].id == AssignmentIdText(FirstJob(g).id, 1, b, g.now) != "";
    IdsDiffer(FirstJob(g).id, 1, d, 1, a, g.now);
    assert az[2].id == AssignmentIdText(FirstJob(g).id, 1, d, g.now) != "";
  }

  lemma FoundAt(s: seq<Assignment>, i: nat)
    requires i < |s| && forall k :: 0 <= k < i ==> s[k].id != s[i].id
    ensures Find(s, s[i].id) == i
  {
  }

  lemma LeadsIs(p: Setup, start: Trace, steps: seq<Step>, tr: Trace)
    requires Leads(p, start, steps, tr)
    ensures AllAllowed(p, start, steps) && Run(p, start, steps) == tr
  {
  }

  /** As long as nothing was produced before the process, what went in went in now. */
  lemma SameLineage(p: Setup, tr: Trace, s: Step)
    requires tr.lineage == tr.produced && s.Submits? && KeyOf(s.req) !in tr.produced
    ensures Traced(p, tr, s).lineage == Traced(p, tr, s).produced
  {
    hide Moved, Handled, RoundTensors;
    var used := RoundTensors(tr.world.buffer, p.sqrt, AttemptOn(p, tr.world, s));
    assert map[] + used == used;
  }

  // ----- Lockstep lost by a job replaced midway -----

  /** A job whose first round is closed. */
  function OnwardJob(g: Setting, version: int): Job
    requires JudgeJob(g.job).None?
  {
    AdvancedJob(FirstJob(g), 1, version, g.now)
  }

  lemma OnwardJobIs(p: Setup, g: Setting, version: int, client: string)
    requires JudgeJob(g.job).None? && g.job.scope == g.scope && Normalized(g.scope) == g.scope
    requires g.job.targetRounds >= 2
    ensures var j := OnwardJob(g, version);
      var a := NewLease(Started(j, g.now), g.scope, client, 0, p.defaultTtl, g.now);
      && j.scope == g.scope && j.status == Running && j.currentRound == 2 && j.completedRounds == 1
      && j.targetRounds == g.job.targetRounds && j.plannedClients == g.job.plannedClients && j.id == FirstJob(g).id
      && a.jobId == j.id && a.scope == g.scope && a.client == client && a.round == 2 && a.status == Leased
      && a.expiresAt > g.now && a.id == AssignmentIdText(j.id, 2, client, g.now)
  {
    hide FirstJob, AssignmentIdText;
    FirstJobIs(p, g, client);
  }

  /** The first round closed by one client. */
  lemma FirstRoundClosed(p: Setup, start: Trace, g: Setting, client: string, cfg: Config, bytes: Bytes, iv: Bytes)
    returns (steps: seq<Step>, tr: Trace, version: int)
    requires Fitting(p, start, g, 1) && Sendable(p, cfg, bytes) && |iv| == Crypto.IV_SIZE
    ensures Leads(p, start, steps, tr) && tr.world.clock == g.now
    ensures tr.world.tables.jobs == [OnwardJob(g, version)]
    ensures tr.world.tables.assignments == [CloseOne(Handed(FirstLease(p, g, client), g.now), FirstJob(g).id, 1, g.now)]
    ensures forall r :: r != 1 ==> Untouched(tr.world.buffer, RoundKey(g.scope, r))
  {
    hide FirstProcess, FirstJob, FirstLease, Leads, JudgeJob, Sendable, Handed, OnwardJob, CloseOne, Allowed, Moved,
         Traced;
    steps, tr := JobAndLease(p, start, g, 1, client);
    var s := LoneSubmission(Submitting(tr.world.tables.assignments[0]), cfg, bytes, iv, NoFault, g.now);
    version := LeaseClosesFirst(p, tr.world, g, client, cfg, bytes, iv);
    LeadsOn(p, start, steps, tr, s);
    TracedWorld(p, tr, s);
    steps, tr := steps + [s], Traced(p, tr, s);
  }

  lemma LeaseClosesFirst(p: Setup, w: World, g: Setting, client: string, cfg: Config, bytes: Bytes, iv: Bytes)
    returns (version: int)
    requires JudgeJob(g.job).None? && g.job.scope == g.scope && Normalized(g.scope) == g.scope && g.job.minClients == 1
    requires w.tables.jobs == [FirstJob(g)] && w.tables.assignments == [FirstLease(p, g, client)]
    requires w.buffer == EMPTY_BUFFER && w.clock == g.now && Sendable(p, cfg, bytes) && |iv| == Crypto.IV_SIZE
    ensures var s := LoneSubmission(Submitting(w.tables.assignments[0]), cfg, bytes, iv, NoFault, g.now);
      var r := Moved(p, w, s);
      && Allowed(p, w, s) && r.clock == g.now && r.tables.jobs == [OnwardJob(g, version)]
      && r.tables.assignments == [CloseOne(Handed(FirstLease(p, g, client), g.now), FirstJob(g).id, 1, g.now)]
      && forall n :: n != 1 ==> Untouched(r.buffer, RoundKey(g.scope, n))
  {
    hide FirstJob, JudgeJob, Fills, Plausible, Sendable, Handed, LastActive, AdvancedJob, CloseOne, Screened, Moved,
         AssignmentIdText;
    FirstJobIs(p, g, client);
    IdsDiffer(FirstJob(g).id, 1, client, 2, client, g.now);
    OneActive(FirstJob(g), g.scope);
    hide FirstLease;
    var s := LoneSubmission(Submitting(w.tables.assignments[0]), cfg, bytes, iv, NoFault, g.now);
    OwnLeasePasses(p, w, 0, cfg, bytes, iv, g.now);
    AllowedPlausible(p, w, s);
    AcceptedStep(p, w, s, 0);
    SubmitClock(p, w, s);
    var r := Moved(p, w, s);
    version :| r.tables.jobs == w.tables.jobs[0 := AdvancedJob(w.tables.jobs[0], 1, version, g.now)]
      && r.tables.assignments
         == CloseRound(w.tables.assignments[0 := Handed(w.tables.assignments[0], g.now)], w.tables.jobs[0].id, 1,
                       g.now);
  }

  ghost predicate Untouched(b: Buffer, key: RoundKey) {
    key !in b.weights && key !in b.sizes && key !in b.completed
  }

  /** The closed round's assignment, and a lease of the second round. */
  lemma SecondRoundLeased(p: Setup, start: Trace, g: Setting, client: string, cfg: Config, bytes: Bytes, iv: Bytes)
    returns (steps: seq<Step>, tr: Trace)
    requires Fitting(p, start, g, 1) && Sendable(p, cfg, bytes) && |iv| == Crypto.IV_SIZE
    ensures Leads(p, start, steps, tr) && tr.world.clock == g.now
    ensures |tr.world.tables.assignments| == 2 && LeftBehind(tr.world, tr.world.tables.assignments[1], g.scope, g.now)
    ensures Find(tr.world.tables.assignments, tr.world.tables.assignments[1].id) == 1
    ensures Lockstep(tr.world.tables) && |tr.world.tables.jobs| == 1 && tr.world.tables.jobs[0].id == FirstJob(g).id
  {
    hide FirstProcess, FirstJob, FirstLease, Leads, JudgeJob, Sendable, Handed, OnwardJob, CloseOne, Lease, LastActive,
         AssignmentIdText, Run, AllAllowed;
    var version;
    steps, tr, version := FirstRoundClosed(p, start, g, client, cfg, bytes, iv);
    OnwardJobIs(p, g, version, client);
    OneActive(OnwardJob(g, version), g.scope);
    ClosedFirst(p, g, client);
    var w, s := tr.world, Leases(g.scope, client, 0, g.now);
    LeaseGrants(p, w, g.scope, client, g.now, 0);
    var r := Moved(p, w, s);
    LeadsOn(p, start, steps, tr, s);
    IdsDiffer(FirstJob(g).id, 1, client, 2, client, g.now);
    SecondId(OnwardJob(g, version).id, client, g.now);
    FoundAt(r.tables.assignments, 1);
    steps, tr := steps + [s], tr.(world := r);
    assert Started(OnwardJob(g, version), g.now) == OnwardJob(g, version);
    TwoInStep(tr.world.tables);
  }

  lemma SecondId(job: string, client: string, now: Time)
    ensures AssignmentIdText(job, 2, client, now) != ""
  {
    hide NatText;
  }

  lemma ClosedFirst(p: Setup, g: Setting, client: string)
    requires JudgeJob(g.job).None? && g.job.scope == g.scope && Normalized(g.scope) == g.scope
    ensures var a := CloseOne(Handed(FirstLease(p, g, client), g.now), FirstJob(g).id, 1, g.now);
      a.status == Aggregated && a.client == client && a.id == AssignmentIdText(FirstJob(g).id, 1, client, g.now)
  {
    hide FirstJob, AssignmentIdText;
    FirstJobIs(p, g, client);
    hide FirstLease;
  }

  lemma TwoInStep(t: Tables)
    requires |t.jobs| == 1 && t.jobs[0].status == Running && t.jobs[0].currentRound == 2
      && t.jobs[0].completedRounds == 1
    requires t.jobs[0].targetRounds >= 2 && |t.assignments| == 2
    requires t.assignments[0].status != Leased && t.assignments[1].round == 2
    ensures Lockstep(t)
  {
  }

  /** From any first start: a job whose first round is closed and whose second is leased, another job for the scope, and
      the lease handed in under its id. All steps are allowed, and lockstep is lost. */
  lemma LockstepLostInARun(p: Setup, start: Trace, g: Setting, client: string, job: JobRequest, cfg: Config,
                           bytes: Bytes,
                           iv: Bytes) returns (steps: seq<Step>)
    requires Fitting(p, start, g, 1) && Sendable(p, cfg, bytes) && |iv| == Crypto.IV_SIZE
    requires JudgeJob(job).None? && job.scope == g.scope && job.minClients == 1 && job.targetRounds >= 2
    requires |job.dataset| != |g.job.dataset|
    ensures AllAllowed(p, start, steps) && !Lockstep(Run(p, start, steps).world.tables)
  {
    hide FirstProcess, FirstJob, Leads, JudgeJob, Sendable, Persistent, Safe, Traced, Allowed, Lockstep, LeftBehind,
         OnTime, Find, NewId, Moved;
    var tr;
    steps, tr := SecondRoundLeased(p, start, g, client, cfg, bytes, iv);
    LeadsSafe(p, start, steps, tr);
    OtherId(p, g, tr.world.tables, job);
    var s := ReplacedJobBreaksLockstep(p, tr.world, 1, job, cfg, bytes, iv, g.now);
    var create := Creates(job, g.now);
    LeadsOn(p, start, steps, tr, create);
    TracedWorld(p, tr, create);
    LeadsOn(p, start, steps + [create], Traced(p, tr, create), s);
    TracedWorld(p, Traced(p, tr, create), s);
    steps := steps + [create] + [s];
    LeadsIs(p, start, steps, Traced(p, Traced(p, tr, create), s));
  }

  /** Data sets of different names give jobs of different ids. */
  lemma OtherId(p: Setup, g: Setting, t: Tables, job: JobRequest)
    requires JudgeJob(g.job).None? && g.job.scope == g.scope && Normalized(g.scope) == g.scope && job.scope == g.scope
    requires |t.jobs| == 1 && t.jobs[0].id == FirstJob(g).id && |job.dataset| != |g.job.dataset|
    ensures NewId(t, JobRecord(job), g.now)
  {
    hide NatText;
  }

  // ----- A version lost after a restart -----

  /** One client's round, outside any job, and its recorded model. */
  lemma FirstModelRecorded(p: Setup, start: Trace, scope: Scope, client: string, cfg: Config, bytes: Bytes, iv: Bytes,
                           now: Time) returns (s: Step)
    requires FirstProcess(p, start) && start.world.clock <= now && Normalized(scope) == scope && p.requiredClients <= 1
    requires Sendable(p, cfg, bytes) && Floats(p.codec, [cfg.clipNorm]) && |iv| == Crypto.IV_SIZE
    requires Crypto.IsAead(p.aead)
    ensures Allowed(p, start.world, s)
    ensures var r := Traced(p, start, s);
      && |r.published| == |r.world.tables.models| == 1 && r.world.tables.jobs == [] && r.world.clock == now
      && r.world.tables.models[0].scope == scope && r.world.tables.models[0].round == 1
      && Faithful(p, r.world, r.published)
  {
    hide FirstProcess, Sendable, Fills, Plausible, Screened, Submit, Faithful, PublishedBy, Floats, RoundTensors;
    FirstStart(p, start);
    FirstFaithful(p, start);
    var w, sub := start.world, Submission(scope, client, "", "", 1, 0);
    s := LoneSubmission(sub, cfg, bytes, iv, NoFault, now);
    SendableBytes(p, cfg, bytes);
    NoJob(w.tables, scope);
    LoneScreened(w, sub, cfg, bytes, iv, now);
    LoneFills(p, w, sub, cfg, bytes, iv, NoFault, now);
    LonePublished(p, w, sub, cfg, bytes, iv, now);
    StageKnown(p, w, s);
    FirstRecord(p, w, s);
    FreshIsHarmless(p, w, start.published, s);
    SubmitKeepsFaithful(p, start, s);
  }

  lemma SendableBytes(p: Setup, cfg: Config, bytes: Bytes)
    requires Sendable(p, cfg, bytes)
    ensures |bytes| % 4 == 0
  {
  }

  lemma NoJob(t: Tables, scope: Scope)
    requires t.jobs == []
    ensures !HasActiveJob(t, scope)
  {
  }

  lemma FirstRecord(p: Setup, w: World, s: Step)
    requires s.Submits? && Screened(w, s) && Handled(p, w, s).stage.Published?
    requires w.tables.models == [] && w.tables.jobs == []
    ensures var r := Moved(p, w, s);
      |r.tables.models| == 1 && r.tables.models[0].scope == KeyOf(s.req).scope
      && r.tables.models[0].round == s.req.sub.round && r.tables.jobs == [] && r.clock == s.env.now
  {
    hide Submit, Screen, ScreenedTables, BlobOf, FilesAfter, Checkpoints.Tried, AttemptOf, NextVersion;
    SubmitCheckpoints(p, w, s);
    SubmitShape(p, w, s);
    NoJob(w.tables, KeyOf(s.req).scope);
    SubmitClock(p, w, s);
  }

  /** With no model in force and no noise the tensor itself is published. */
  lemma LonePublished(p: Setup, w: World, sub: Submission, cfg: Config, bytes: Bytes, iv: Bytes, now: Time)
    requires Sendable(p, cfg, bytes) && w.buffer == EMPTY_BUFFER
    ensures PublishedBy(p, w, LoneSubmission(sub, cfg, bytes, iv, NoFault, now)) == [cfg.clipNorm]
  {
    hide Clip, NormSq, Required, IsSqrt;
    var s := LoneSubmission(sub, cfg, bytes, iv, NoFault, now);
    EqualJoins(p, w, sub, cfg, bytes, iv, NoFault, now);
    hide AllEqual, RoundTensors, RoundSizes;
    assert Noisy([cfg.clipNorm], s.env.noise) == [cfg.clipNorm];
    LoneClips(p, cfg, bytes);
  }

  lemma LoneClips(p: Setup, cfg: Config, bytes: Bytes)
    requires Sendable(p, cfg, bytes)
    ensures Clip(p.sqrt, [cfg.clipNorm], cfg.clipNorm) == [cfg.clipNorm]
  {
    hide Clip, NormSq;
    UnitNorm(cfg.clipNorm);
    ClipIdentity(p.sqrt, [cfg.clipNorm], cfg.clipNorm);
  }

  /** From any first start: a round of one client, a restart, and the round submitted to again while the disk is full.
      All steps are allowed, and rolling back to the recorded version then fails for want of its file. */
  lemma VersionLostInARun(p: Setup, start: Trace, scope: Scope, client: string, cfg: Config, bytes: Bytes, iv: Bytes,
                          now: Time, random: Bytes) returns (steps: seq<Step>, version: int)
    requires FirstProcess(p, start) && start.world.clock <= now && Normalized(scope) == scope && p.requiredClients <= 1
    requires Sendable(p, cfg, bytes) && Floats(p.codec, [cfg.clipNorm]) && |iv| == Crypto.IV_SIZE
    requires Crypto.IsAead(p.aead) && |random| == Crypto.KEY_SIZE
    ensures AllAllowed(p, start, steps)
    ensures RollBack(p, Run(p, start, steps).world, scope, version).reply == CheckpointMissing
  {
    hide FirstProcess, Sendable, Traced, Allowed, Moved, Faithful, Leads, Safe, Persistent, RollBack, LastActive;
    var s := FirstModelRecorded(p, start, scope, client, cfg, bytes, iv, now);
    LeadsNowhere(p, start);
    LeadsOn(p, start, [], start, s);
    var tr := Traced(p, start, s);
    LeadsSafe(p, start, [] + [s], tr);
    NoJob(tr.world.tables, scope);
    var again := RestartCanLoseVersion(p, tr.world, tr.published, 0, cfg, bytes, now, random);
    var restart := Restarts(now, random);
    LeadsOn(p, start, [] + [s], tr, restart);
    TracedWorld(p, tr, restart);
    LeadsOn(p, start, [] + [s] + [restart], Traced(p, tr, restart), again);
    TracedWorld(p, Traced(p, tr, restart), again);
    steps, version := [] + [s] + [restart] + [again], tr.world.tables.models[0].version;
    LeadsIs(p, start, steps, Traced(p, Traced(p, tr, restart), again));
  }
}
