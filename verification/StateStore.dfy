/** The training control plane's store: each public call is one step on the tables, and most of them save. */
module StateStore {
  import opened Basics
  import opened Records
  import opened StateFile

  /** What a call does: the new tables, whether they were saved, and what it returns. */
  datatype Effect<+R> = Effect(tables: Tables, saved: bool, result: R)

  // ----- Leases running out -----

  predicate IsOverdue(a: Assignment, now: Time) {
    a.status == Leased && a.expiresAt != 0 && a.expiresAt <= now
  }

  function ExpireOne(a: Assignment, now: Time): Assignment {
    if IsOverdue(a, now)
    then a.(status := Expired, updatedAt := now, detail := "Lease expired before submission")
    else a
  }

  function Expire(s: seq<Assignment>, now: Time): (r: seq<Assignment>)
    ensures |r| == |s|
  {
    seq(|s|, i requires 0 <= i < |s| => ExpireOne(s[i], now))
  }

  function ExpireTables(t: Tables, now: Time): Tables {
    t.(assignments := Expire(t.assignments, now))
  }

  // ----- Lookups -----

  predicate ActiveIn(j: Job, scope: Scope) {
    j.scope == scope && IsActive(j)
  }

  /** The last active job of the scope, or -1. */
  function LastActive(jobs: seq<Job>, scope: Scope): (r: int)
    ensures -1 <= r < |jobs|
    ensures r >= 0 ==> ActiveIn(jobs[r], scope)
    ensures forall k :: r < k < |jobs| ==> !ActiveIn(jobs[k], scope)
  {
    if |jobs| == 0 then -1
    else if ActiveIn(jobs[|jobs| - 1], scope) then |jobs| - 1
    else LastActive(jobs[..|jobs| - 1], scope)
  }

  predicate IsLiveLease(a: Assignment, jobId: string, round: int, now: Time) {
    a.jobId == jobId && a.round == round && a.status == Leased && a.expiresAt > now
  }

  /** The first live lease of a client for a round of a job, or the length. */
  function FindLease(s: seq<Assignment>, jobId: string, client: string, round: int, now: Time): (r: nat)
    ensures r <= |s|
    ensures r < |s| ==> IsLiveLease(s[r], jobId, round, now) && s[r].client == client
    ensures forall k :: 0 <= k < r ==> !(IsLiveLease(s[k], jobId, round, now) && s[k].client == client)
    decreases |s|
  {
    if |s| == 0 || (IsLiveLease(s[0], jobId, round, now) && s[0].client == client) then 0
    else
      var r := FindLease(s[1..], jobId, client, round, now);
      assert forall k :: 1 <= k < 1 + r ==> s[k] == s[1..][k - 1];
      1 + r
  }

  function CountLeases(s: seq<Assignment>, jobId: string, round: int, now: Time): nat {
    if |s| == 0 then 0
    else
      var rest := CountLeases(s[..|s| - 1], jobId, round, now);
      if IsLiveLease(s[|s| - 1], jobId, round, now) then rest + 1 else rest
  }

  /** The first assignment with an id, or the length. */
  function Find(s: seq<Assignment>, id: string): (r: nat)
    ensures r <= |s|
    ensures r < |s| ==> s[r].id == id
    ensures forall k :: 0 <= k < r ==> s[k].id != id
    decreases |s|
  {
    if |s| == 0 || s[0].id == id then 0
    else
      var r := Find(s[1..], id);
      assert forall k :: 1 <= k < 1 + r ==> s[k] == s[1..][k - 1];
      1 + r
  }

  /** The version of the first active model of the scope, or 0. */
  function ActiveVersion(models: seq<ModelRecord>, scope: Scope): int
    decreases |models|
  {
    if |models| == 0 then 0
    else if models[0].scope == scope && models[0].active then models[0].version
    else ActiveVersion(models[1..], scope)
  }

  /** One more than the largest version of the scope, at least 1. */
  function NextVersion(models: seq<ModelRecord>, scope: Scope): int {
    if |models| == 0 then 1
    else
      var v, m := NextVersion(models[..|models| - 1], scope), models[|models| - 1];
      if m.scope == scope then Max(v, m.version + 1) else v
  }

  /** The first record of a version in the scope, or the length. */
  function FindVersion(models: seq<ModelRecord>, scope: Scope, version: int): (r: nat)
    ensures r <= |models|
    ensures r < |models| ==> models[r].scope == scope && models[r].version == version
    ensures forall k :: 0 <= k < r ==> !(models[k].scope == scope && models[k].version == version)
    decreases |models|
  {
    if |models| == 0 || (models[0].scope == scope && models[0].version == version) then 0
    else
      var r := FindVersion(models[1..], scope, version);
      assert forall k :: 1 <= k < 1 + r ==> models[k] == models[1..][k - 1];
      1 + r
  }

  // ----- Text of identifiers -----

  function NatText(n: nat): string {
    if n < 10 then [('0' as int + n) as char] else NatText(n / 10) + [('0' as int + n % 10) as char]
  }

  function IntText(n: int): string {
    if n < 0 then "-" + NatText(-n) else NatText(n)
  }

  function AssignmentIdText(jobId: string, round: int, client: string, now: Time): string {
    jobId + "::round:" + IntText(round) + "::client:" + client + "::" + NatText(now)
  }

  function JobIdText(scope: Scope, dataset: string, now: Time): string {
    scope.tenant + "::" + scope.model + "::" + dataset + "::" + NatText(now)
  }

  // ----- Jobs -----

  function Supersede(jobs: seq<Job>, scope: Scope): (r: seq<Job>)
    ensures |r| == |jobs|
  {
    seq(|jobs|, i requires 0 <= i < |jobs| =>
      if ActiveIn(jobs[i], scope) then jobs[i].(status := Superseded) else jobs[i])
  }

  function PreparedJob(t: Tables, record: Job, now: Time): Job {
    var scope := Normalized(record.scope);
    record.(scope := scope, createdAt := now,
            id := if record.id == "" then JobIdText(scope, record.dataset, now) else record.id,
            currentRound := Max(1, record.currentRound), ttl := Max(30, record.ttl),
            modelVersion := ActiveVersion(t.models, scope))
  }

  /** A new job supersedes whatever was active in its scope. */
  function CreateJob(t: Tables, record: Job, now: Time): Tables {
    var saved := PreparedJob(t, record, now);
    t.(jobs := Supersede(t.jobs, saved.scope) + [saved])
  }

  // ----- Leasing -----

  datatype LeaseResult = NotLeased | LeaseGranted(assignment: Assignment, job: Job)

  function Capacity(j: Job, defaultMinClients: int): int {
    if j.plannedClients > 0 then j.plannedClients
    else Max(1, if j.minClients > 0 then j.minClients else defaultMinClients)
  }

  function Started(j: Job, now: Time): Job {
    if j.status == Planned then j.(status := Running, activatedAt := now) else j
  }

  function NewLease(j: Job, scope: Scope, client: string, modelVersion: int, defaultTtl: int, now: Time): Assignment {
    var round := Max(1, j.currentRound);
    Assignment(AssignmentIdText(j.id, round, client, now), j.id, scope, j.dataset, client, round, modelVersion,
               Leased, now, AfterSeconds(now, if j.ttl > 0 then j.ttl else defaultTtl), now, "Lease issued")
  }

  function Lease(t: Tables, scope: Scope, client: string, modelVersion: int, defaultMinClients: int,
                 defaultTtl: int, now: Time): Effect<LeaseResult>
  {
    var e := ExpireTables(t, now);
    var k := LastActive(e.jobs, scope);
    if k < 0 then Effect(e, false, NotLeased)
    else if e.jobs[k].targetRounds > 0 && e.jobs[k].completedRounds >= e.jobs[k].targetRounds then
      Effect(e.(jobs := e.jobs[k := e.jobs[k].(status := Completed)]), true, NotLeased)
    else
      var job := Started(e.jobs[k], now);
      var s := e.(jobs := e.jobs[k := job]);
      var round := Max(1, job.currentRound);
      var i := FindLease(s.assignments, job.id, client, round, now);
      if i < |s.assignments| then Effect(s, true, LeaseGranted(s.assignments[i], job))
      else if CountLeases(s.assignments, job.id, round, now) >= Capacity(job, defaultMinClients) then
        Effect(s, true, NotLeased)
      else
        var a := NewLease(job, scope, client, modelVersion, defaultTtl, now);
        Effect(s.(assignments := s.assignments + [a]), true, LeaseGranted(a, job))
  }

  // ----- Submitting -----

  datatype Submission = Submission(scope: Scope, client: string, jobId: string, assignmentId: string,
                                   round: int, baseVersion: int)

  /** The submission with its scope normalised. */
  function Named(sub: Submission): Submission {
    sub.(scope := Normalized(sub.scope))
  }

  datatype Verdict = Accepted | MissingIds | WrongJob | WrongOwner | NotLeasable | LeaseExpired | WrongRound
    | WrongBaseVersion | NotFound

  function ExpiredAtSubmission(t: Tables, i: nat, now: Time): Tables
    requires i < |t.assignments|
  {
    t.(assignments := t.assignments[i := t.assignments[i].(status := Expired, updatedAt := now,
                                                           detail := "Expired at submission time")])
  }

  /** The checks on the assignment a submission names. */
  function JudgeAssignment(a: Assignment, sub: Submission, now: Time): Verdict {
    if a.client != sub.client || a.scope != sub.scope then WrongOwner
    else if a.status != Leased then NotLeasable
    else if a.expiresAt != 0 && a.expiresAt <= now then LeaseExpired
    else if a.round != sub.round then WrongRound
    else if sub.baseVersion > 0 && a.baseVersion > 0 && a.baseVersion != sub.baseVersion then WrongBaseVersion
    else Accepted
  }

  function Validate(t: Tables, sub: Submission, now: Time): Effect<Verdict> {
    var e := ExpireTables(t, now);
    var k := LastActive(e.jobs, sub.scope);
    if k < 0 then Effect(e, false, Accepted)
    else if sub.jobId == "" || sub.assignmentId == "" then Effect(e, false, MissingIds)
    else if sub.jobId != e.jobs[k].id then Effect(e, false, WrongJob)
    else
      var i := Find(e.assignments, sub.assignmentId);
      if i == |e.assignments| then Effect(e, false, NotFound)
      else
        var v := JudgeAssignment(e.assignments[i], sub, now);
        if v == LeaseExpired then Effect(ExpiredAtSubmission(e, i, now), true, v) else Effect(e, false, v)
  }

  function Accept(t: Tables, sub: Submission, now: Time): Effect<Verdict> {
    var e := ExpireTables(t, now);
    var k := LastActive(e.jobs, sub.scope);
    if k < 0 then Effect(e, false, Accepted)
    else if sub.jobId == "" || sub.assignmentId == "" then Effect(e, false, MissingIds)
    else if sub.jobId != e.jobs[k].id then Effect(e, false, WrongJob)
    else
      var i := Find(e.assignments, sub.assignmentId);
      if i == |e.assignments| then Effect(e, false, NotFound)
      else
        var a := e.assignments[i];
        match JudgeAssignment(a, sub, now)
        case LeaseExpired => Effect(ExpiredAtSubmission(e, i, now), true, LeaseExpired)
        case Accepted =>
          var done := a.(status := Submitted, updatedAt := now, detail := "Client submitted weights");
          Effect(e.(assignments := e.assignments[i := done]), true, Accepted)
        case v => Effect(e, false, v)
  }

  // ----- Advancing -----

  function CloseOne(a: Assignment, jobId: string, round: int, now: Time): Assignment {
    if a.jobId == jobId && a.round == round then
      a.(status := if a.status == Submitted then Aggregated else if a.status == Leased then Missed else a.status,
         updatedAt := now)
    else a
  }

  function CloseRound(s: seq<Assignment>, jobId: string, round: int, now: Time): (r: seq<Assignment>)
    ensures |r| == |s|
  {
    seq(|s|, i requires 0 <= i < |s| => CloseOne(s[i], jobId, round, now))
  }

  function AdvancedJob(j: Job, round: int, modelVersion: int, now: Time): Job {
    var n := j.completedRounds + 1;
    j.(status := if j.targetRounds > 0 && n >= j.targetRounds then Completed else Running,
       activatedAt := if j.activatedAt == 0 then now else j.activatedAt,
       completedRounds := n, currentRound := round + 1, modelVersion := modelVersion)
  }

  function Advance(t: Tables, scope: Scope, round: int, modelVersion: int, now: Time): Effect<()> {
    var k := LastActive(t.jobs, scope);
    if k < 0 then Effect(t, false, ())
    else
      Effect(t.(assignments := CloseRound(t.assignments, t.jobs[k].id, round, now),
                jobs := t.jobs[k := AdvancedJob(t.jobs[k], round, modelVersion, now)]), true, ())
  }

  // ----- Models -----

  function Deactivate(models: seq<ModelRecord>, scope: Scope): (r: seq<ModelRecord>)
    ensures |r| == |models|
  {
    seq(|models|, i requires 0 <= i < |models| =>
      if models[i].scope == scope then models[i].(active := false) else models[i])
  }

  function RecordModel(t: Tables, scope: Scope, round: int, path: RoundKey, strategy: Strategy, keyVersion: int,
                       clientCount: int, dimension: int, now: Time): Effect<int>
  {
    var v := NextVersion(t.models, scope);
    var m := ModelRecord(scope, v, round, path, strategy, keyVersion, clientCount, dimension, true, now);
    Effect(t.(models := Deactivate(t.models, scope) + [m], completedRounds := t.completedRounds + 1), true, v)
  }

  function Rollback(t: Tables, scope: Scope, version: int): Effect<Option<ModelRecord>> {
    var i := FindVersion(t.models, scope, version);
    if i == |t.models| then Effect(t, false, None)
    else
      var m := t.models[i].(active := true);
      Effect(t.(models := Deactivate(t.models, scope)[i := m]), true, Some(m))
  }

  // ----- Loading -----

  /** What loading makes of the file; without one the tables stay as they are. */
  function LoadedTables(t: Tables, file: Option<Json>, now: Time): Tables {
    match file
    case None => t
    case Some(JBroken) => EMPTY_TABLES
    case Some(j) => ExpireTables(Read(j, now), now)
  }

  // ----- The store -----

  class StateStore {
    var jobs: seq<Job>
    var assignments: seq<Assignment>
    var models: seq<ModelRecord>
    var completedRounds: int
    var totalSubmissions: int
    var activeKeyVersion: int
    var file: Option<Json>

    ghost function View(): Tables
      reads this
    {
      Tables(jobs, assignments, models, completedRounds, totalSubmissions, activeKeyVersion)
    }

    /** The state and the file after a call with this effect. */
    ghost predicate Shows<R>(e: Effect<R>, before: Option<Json>)
      reads this
    {
      View() == e.tables && file == if e.saved then Some(Save(e.tables)) else before
    }

    constructor (file: Option<Json>)
      ensures View() == EMPTY_TABLES && this.file == file
    {
      jobs, assignments, models := [], [], [];
      completedRounds, totalSubmissions, activeKeyVersion := 0, 0, 1;
      this.file := file;
    }

    method SaveLocked()
      modifies this`file
      ensures file == Some(Save(View()))
    {
      var js, az, ms := [], [], [];
      for i := 0 to |jobs|
        invariant js == SaveJobs(jobs)[..i]
      {
        js := js + [SaveJob(jobs[i])];
      }
      for i := 0 to |assignments|
        invariant az == SaveAssignments(assignments)[..i]
      {
        az := az + [SaveAssignment(assignments[i])];
      }
      for i := 0 to |models|
        invariant ms == SaveModels(models)[..i]
      {
        ms := ms + [SaveModel(models[i])];
      }
      assert js == SaveJobs(jobs) && az == SaveAssignments(assignments) && ms == SaveModels(models);
      file := Some(JObject(map[CompletedRounds := JInt(completedRounds), TotalSubmissions := JInt(totalSubmissions),
                               ActiveKeyVersion := JInt(activeKeyVersion), Models := JArray(ms),
                               TrainingJobs := JArray(js), Assignments := JArray(az)]));
    }

    method ExpireAssignmentsLocked(now: Time)
      modifies this`assignments
      ensures assignments == Expire(old(assignments), now)
    {
      ghost var before := assignments;
      for i := 0 to |assignments|
        invariant |assignments| == |before|
        invariant forall k :: 0 <= k < i ==> assignments[k] == ExpireOne(before[k], now)
        invariant forall k :: i <= k < |before| ==> assignments[k] == before[k]
      {
        var a := assignments[i];
        if a.status == Leased && a.expiresAt != 0 && a.expiresAt <= now {
          assignments :=
            assignments[i := a.(status := Expired, updatedAt := now, detail := "Lease expired before submission")];
        }
      }
    }

    /** Reads the file, expires what is overdue, and saves; a file that does not parse leaves nothing, and without a
        file what is there is saved. */
    method Load(now: Time)
      modifies this
      ensures View() == LoadedTables(old(View()), old(file), now)
      ensures old(file) == None ==> View() == old(View())
      ensures old(file) == Some(JBroken) ==> View() == Tables([], [], [], 0, 0, 1)
      ensures file == Some(Save(View()))
    {
      if file == Some(JBroken) {
        jobs, assignments, models := [], [], [];
        completedRounds, totalSubmissions, activeKeyVersion := 0, 0, 1;
      } else if file.Some? {
        var r := Read(file.value, now);
        jobs, assignments, models := r.jobs, r.assignments, r.models;
        completedRounds, totalSubmissions, activeKeyVersion :=
          r.completedRounds, r.totalSubmissions, r.activeKeyVersion;
        ExpireAssignmentsLocked(now);
      }
      SaveLocked();
    }

    method FindActiveJob(scope: Scope) returns (k: int)
      ensures k == LastActive(jobs, scope)
    {
      for i := |jobs| downto 0
        invariant forall j :: i <= j < |jobs| ==> !ActiveIn(jobs[j], scope)
      {
        if jobs[i].scope == scope && IsActive(jobs[i]) {
          return i;
        }
      }
      return -1;
    }

    method GetActiveTrainingJob(request: Scope) returns (job: Option<Job>)
      ensures var k := LastActive(jobs, Normalized(request)); job == if k < 0 then None else Some(jobs[k])
    {
      var k := FindActiveJob(Normalized(request));
      return if k < 0 then None else Some(jobs[k]);
    }

    method GetActiveModelVersion(request: Scope) returns (version: int)
      ensures version == ActiveVersion(models, Normalized(request))
    {
      var scope := Normalized(request);
      for i := 0 to |models|
        invariant ActiveVersion(models, scope) == ActiveVersion(models[i..], scope)
      {
        if models[i].scope == scope && models[i].active {
          return models[i].version;
        }
        assert models[i..][1..] == models[i + 1..];
      }
      return 0;
    }

    method RecordWeightSubmission()
      modifies this
      ensures Shows(Effect(old(View()).(totalSubmissions := old(totalSubmissions) + 1), true, ()), old(file))
    {
      totalSubmissions := totalSubmissions + 1;
      SaveLocked();
    }

    method UpdateActiveKeyVersion(version: int)
      modifies this
      ensures Shows(Effect(old(View()).(activeKeyVersion := version), old(activeKeyVersion) != version, ()), old(file))
    {
      if activeKeyVersion == version {
        return;
      }
      activeKeyVersion := version;
      SaveLocked();
    }

    method DeactivateAll(scope: Scope)
      modifies this`models
      ensures models == Deactivate(old(models), scope)
    {
      ghost var before := models;
      for i := 0 to |models|
        invariant |models| == |before|
        invariant forall k :: 0 <= k < i ==> models[k] == Deactivate(before, scope)[k]
        invariant forall k :: i <= k < |before| ==> models[k] == before[k]
      {
        if models[i].scope == scope {
          models := models[i := models[i].(active := false)];
        }
      }
    }

    method RecordAggregatedModel(request: Scope, round: int, path: RoundKey, strategy: Strategy, keyVersion: int,
                                 clientCount: int, dimension: int, now: Time) returns (version: int)
      modifies this
      ensures var e :=
        RecordModel(old(View()), Normalized(request), round, path, strategy, keyVersion, clientCount, dimension, now);
        Shows(e, old(file)) && version == e.result
    {
      var scope := Normalized(request);
      version := 1;
      for i := 0 to |models|
        invariant version == NextVersion(models[..i], scope)
      {
        if models[i].scope == scope {
          version := Max(version, models[i].version + 1);
        }
        assert models[..i + 1][..i] == models[..i];
      }
      assert models[..|models|] == models;
      DeactivateAll(scope);
      models :=
        models + [ModelRecord(scope, version, round, path, strategy, keyVersion, clientCount, dimension, true, now)];
      completedRounds := completedRounds + 1;
      SaveLocked();
    }

    method RollbackModel(request: Scope, targetVersion: int) returns (restored: Option<ModelRecord>)
      modifies this
      ensures var e := Rollback(old(View()), Normalized(request), targetVersion);
        Shows(e, old(file)) && restored == e.result
    {
      var scope := Normalized(request);
      var target := 0;
      while target < |models| && !(models[target].scope == scope && models[target].version == targetVersion)
        invariant target <= |models|
        invariant forall k :: 0 <= k < target ==> !(models[k].scope == scope && models[k].version == targetVersion)
      {
        target := target + 1;
      }
      assert target == FindVersion(models, scope, targetVersion);
      if target == |models| {
        return None;
      }
      DeactivateAll(scope);
      models := models[target := models[target].(active := true)];
      restored := Some(models[target]);
      SaveLocked();
    }

    method SupersedeAll(scope: Scope)
      modifies this`jobs
      ensures jobs == Supersede(old(jobs), scope)
    {
      ghost var before := jobs;
      for i := 0 to |jobs|
        invariant |jobs| == |before|
        invariant forall k :: 0 <= k < i ==> jobs[k] == Supersede(before, scope)[k]
        invariant forall k :: i <= k < |before| ==> jobs[k] == before[k]
      {
        if jobs[i].scope == scope && IsActive(jobs[i]) {
          jobs := jobs[i := jobs[i].(status := Superseded)];
        }
      }
    }

    method CreateTrainingJob(record: Job, now: Time) returns (saved: Job)
      modifies this
      ensures saved == PreparedJob(old(View()), record, now)
      ensures Shows(Effect(CreateJob(old(View()), record, now), true, ()), old(file))
    {
      var scope := Normalized(record.scope);
      var version := GetActiveModelVersion(scope);
      saved := record.(scope := scope, createdAt := now,
                       id := if record.id == "" then JobIdText(scope, record.dataset, now) else record.id,
                       currentRound := Max(1, record.currentRound), ttl := Max(30, record.ttl),
                       modelVersion := version);
      SupersedeAll(scope);
      jobs := jobs + [saved];
      SaveLocked();
    }

    method FindLiveLease(jobId: string, client: string, round: int, now: Time) returns (i: nat)
      ensures i == FindLease(assignments, jobId, client, round, now)
    {
      i := 0;
      while i < |assignments| && !(IsLiveLease(assignments[i], jobId, round, now) && assignments[i].client == client)
        invariant i <= |assignments|
        invariant forall k :: 0 <= k < i ==>
          !(IsLiveLease(assignments[k], jobId, round, now) && assignments[k].client == client)
      {
        i := i + 1;
      }
    }

    method CountLiveLeases(jobId: string, round: int, now: Time) returns (n: nat)
      ensures n == CountLeases(assignments, jobId, round, now)
    {
      n := 0;
      for i := 0 to |assignments|
        invariant n == CountLeases(assignments[..i], jobId, round, now)
      {
        assert assignments[..i + 1][..i] == assignments[..i];
        if IsLiveLease(assignments[i], jobId, round, now) {
          n := n + 1;
        }
      }
      assert assignments[..|assignments|] == assignments;
    }

    method LeaseTrainingAssignment(request: Scope, client: string, modelVersion: int, defaultMinClients: int,
                                   defaultTtl: int, now: Time) returns (r: LeaseResult)
      modifies this
      ensures var e :=
        Lease(old(View()), Normalized(request), client, modelVersion, defaultMinClients, defaultTtl, now);
        Shows(e, old(file)) && r == e.result
    {
      hide Save, LastActive, FindLease, Expire;
      var scope := Normalized(request);
      ghost var e := Lease(View(), scope, client, modelVersion, defaultMinClients, defaultTtl, now);
      ExpireAssignmentsLocked(now);
      var k := FindActiveJob(scope);
      if k < 0 {
        return NotLeased;
      }
      if jobs[k].targetRounds > 0 && jobs[k].completedRounds >= jobs[k].targetRounds {
        jobs := jobs[k := jobs[k].(status := Completed)];
        SaveLocked();
        return NotLeased;
      }
      if jobs[k].status == Planned {
        jobs := jobs[k := jobs[k].(status := Running, activatedAt := now)];
      }
      var job := jobs[k];
      var round := Max(1, job.currentRound);
      var i := FindLiveLease(job.id, client, round, now);
      if i < |assignments| {
        SaveLocked();
        return LeaseGranted(assignments[i], job);
      }
      var capacity := Capacity(job, defaultMinClients);
      var leased := CountLiveLeases(job.id, round, now);
      if leased >= capacity {
        assert View() == e.tables;
        SaveLocked();
        return NotLeased;
      }
      var a := NewLease(job, scope, client, modelVersion, defaultTtl, now);
      assignments := assignments + [a];
      assert View() == e.tables;
      SaveLocked();
      return LeaseGranted(a, job);
    }

    method FindAssignment(id: string) returns (i: nat)
      ensures i == Find(assignments, id)
    {
      i := 0;
      while i < |assignments| && assignments[i].id != id
        invariant i <= |assignments|
        invariant forall k :: 0 <= k < i ==> assignments[k].id != id
      {
        i := i + 1;
      }
    }

    method ValidateTrainingAssignmentSubmission(request: Submission, now: Time) returns (verdict: Verdict)
      modifies this
      ensures var e := Validate(old(View()), Named(request), now); Shows(e, old(file)) && verdict == e.result
    {
      hide Save, LastActive, Find;
      var sub := Named(request);
      ExpireAssignmentsLocked(now);
      var k := FindActiveJob(sub.scope);
      if k < 0 { return Accepted; }
      if sub.jobId == "" || sub.assignmentId == "" { return MissingIds; }
      if sub.jobId != jobs[k].id { return WrongJob; }
      var i := FindAssignment(sub.assignmentId);
      if i == |assignments| { return NotFound; }
      var a := assignments[i];
      if a.client != sub.client || a.scope != sub.scope { return WrongOwner; }
      if a.status != Leased { return NotLeasable; }
      if a.expiresAt != 0 && a.expiresAt <= now {
        // Unreachable: ExpireAssignmentsLocked has just expired every such lease (see OverdueAlreadyExpired).
        assert false;
      }
      if a.round != sub.round { return WrongRound; }
      if sub.baseVersion > 0 && a.baseVersion > 0 && a.baseVersion != sub.baseVersion { return WrongBaseVersion; }
      return Accepted;
    }

    method AcceptTrainingAssignmentSubmission(request: Submission, now: Time) returns (verdict: Verdict)
      modifies this
      ensures var e := Accept(old(View()), Named(request), now); Shows(e, old(file)) && verdict == e.result
    {
      hide Save, LastActive, Find;
      var sub := Named(request);
      ExpireAssignmentsLocked(now);
      var k := FindActiveJob(sub.scope);
      if k < 0 { return Accepted; }
      if sub.jobId == "" || sub.assignmentId == "" { return MissingIds; }
      if sub.jobId != jobs[k].id { return WrongJob; }
      var i := FindAssignment(sub.assignmentId);
      if i == |assignments| { return NotFound; }
      var a := assignments[i];
      if a.client != sub.client || a.scope != sub.scope { return WrongOwner; }
      if a.status != Leased { return NotLeasable; }
      if a.expiresAt != 0 && a.expiresAt <= now {
        // Unreachable: ExpireAssignmentsLocked has just expired every such lease (see OverdueAlreadyExpired).
        assert false;
      }
      if a.round != sub.round { return WrongRound; }
      if sub.baseVersion > 0 && a.baseVersion > 0 && a.baseVersion != sub.baseVersion { return WrongBaseVersion; }
      assignments := assignments[i := a.(status := Submitted, updatedAt := now, detail := "Client submitted weights")];
      SaveLocked();
      return Accepted;
    }

    method CloseAll(jobId: string, round: int, now: Time)
      modifies this`assignments
      ensures assignments == CloseRound(old(assignments), jobId, round, now)
    {
      ghost var before := assignments;
      for i := 0 to |assignments|
        invariant |assignments| == |before|
        invariant forall j :: 0 <= j < i ==> assignments[j] == CloseOne(before[j], jobId, round, now)
        invariant forall j :: i <= j < |before| ==> assignments[j] == before[j]
      {
        var a := assignments[i];
        if a.jobId == jobId && a.round == round {
          var status := a.status;
          if status == Submitted { status := Aggregated; }
          else if status == Leased { status := Missed; }
          assignments := assignments[i := a.(status := status, updatedAt := now)];
        }
      }
    }

    method AdvanceTrainingJobRound(request: Scope, round: int, modelVersion: int, now: Time)
      modifies this
      ensures Shows(Advance(old(View()), Normalized(request), round, modelVersion, now), old(file))
    {
      var k := FindActiveJob(Normalized(request));
      if k < 0 { return; }
      var jobId := jobs[k].id;
      CloseAll(jobId, round, now);
      var j := jobs[k];
      j := j.(status := Running);
      if j.activatedAt == 0 { j := j.(activatedAt := now); }
      j := j.(completedRounds := j.completedRounds + 1);
      j := j.(currentRound := round + 1);
      j := j.(modelVersion := modelVersion);
      if j.targetRounds > 0 && j.completedRounds >= j.targetRounds {
        j := j.(status := Completed);
      }
      jobs := jobs[k := j];
      SaveLocked();
    }
  }
}
