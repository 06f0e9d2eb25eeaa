/** What every call keeps of jobs, leases and submissions. */
module Ledger {
  import opened Basics
  import opened Records
  import opened StateStore

  // ----- Jobs -----

  /** Job ids are distinct, and each scope has at most one active job. */
  ghost predicate JobsOk(t: Tables) {
    && (forall i, j :: 0 <= i < j < |t.jobs| ==> t.jobs[i].id != t.jobs[j].id)
    && (forall i, j :: 0 <= i < j < |t.jobs| ==> !(IsActive(t.jobs[i]) && ActiveIn(t.jobs[j], t.jobs[i].scope)))
  }

  /** The same jobs, possibly with other statuses and progress, none newly active. */
  ghost predicate SameJobs(t: Tables, t': Tables) {
    && |t'.jobs| == |t.jobs|
    && forall k :: 0 <= k < |t.jobs| ==>
         && t'.jobs[k].id == t.jobs[k].id && t'.jobs[k].scope == t.jobs[k].scope
         && t'.jobs[k].plannedClients == t.jobs[k].plannedClients && t'.jobs[k].minClients == t.jobs[k].minClients
         && (IsActive(t'.jobs[k]) ==> IsActive(t.jobs[k]))
  }

  lemma SameJobsOk(t: Tables, t': Tables)
    requires JobsOk(t) && SameJobs(t, t')
    ensures JobsOk(t')
  {
  }

  /** The id a created job gets is not in use. */
  ghost predicate NewId(t: Tables, record: Job, now: Time) {
    forall k :: 0 <= k < |t.jobs| ==> t.jobs[k].id != PreparedJob(t, record, now).id
  }

  lemma CreateKeepsJobs(t: Tables, record: Job, now: Time)
    requires JobsOk(t) && NewId(t, record, now)
    ensures JobsOk(CreateJob(t, record, now))
    ensures SameJobs(t, CreateJob(t, record, now).(jobs := CreateJob(t, record, now).jobs[..|t.jobs|]))
  {
    var r, saved := CreateJob(t, record, now), PreparedJob(t, record, now);
    forall k | 0 <= k < |t.jobs|
      ensures r.jobs[k].id == t.jobs[k].id && r.jobs[k].scope == t.jobs[k].scope
      ensures IsActive(r.jobs[k]) ==> IsActive(t.jobs[k]) && t.jobs[k].scope != saved.scope
    {
      assert r.jobs[k] == Supersede(t.jobs, saved.scope)[k];
    }
  }

  // ----- The life of an assignment -----

  /** A status moves from leased to submitted, expired or missed, and from submitted to aggregated; nothing else. */
  ghost predicate StatusStep(a: LeaseStatus, b: LeaseStatus) {
    a == b || (a == Leased && (b == Submitted || b == Expired || b == Missed)) || (a == Submitted && b == Aggregated)
  }

  ghost predicate SameLease(a: Assignment, b: Assignment) {
    && a.id == b.id && a.jobId == b.jobId && a.scope == b.scope && a.dataset == b.dataset && a.client == b.client
    && a.round == b.round && a.baseVersion == b.baseVersion && a.issuedAt == b.issuedAt && a.expiresAt == b.expiresAt
  }

  /** The assignments after a call: the old ones in place, each at most one status step on, and possibly new ones. */
  ghost predicate Evolved(s: seq<Assignment>, s': seq<Assignment>) {
    |s| <= |s'| && forall i :: 0 <= i < |s| ==> SameLease(s[i], s'[i]) && StatusStep(s[i].status, s'[i].status)
  }

  /** Over any number of steps only these moves are possible. */
  ghost predicate StatusPath(a: LeaseStatus, b: LeaseStatus) {
    a == b || a == Leased || (a == Submitted && b == Aggregated)
  }

  lemma ExpireEvolves(s: seq<Assignment>, now: Time)
    ensures Evolved(s, Expire(s, now))
  {
    forall i | 0 <= i < |s|
      ensures SameLease(s[i], Expire(s, now)[i]) && StatusStep(s[i].status, Expire(s, now)[i].status) {
      assert Expire(s, now)[i] == ExpireOne(s[i], now);
    }
  }

  lemma CloseEvolves(s: seq<Assignment>, jobId: string, round: int, now: Time)
    ensures Evolved(s, CloseRound(s, jobId, round, now))
  {
    forall i | 0 <= i < |s|
      ensures SameLease(s[i], CloseRound(s, jobId, round, now)[i])
        && StatusStep(s[i].status, CloseRound(s, jobId, round, now)[i].status)
    {
      assert CloseRound(s, jobId, round, now)[i] == CloseOne(s[i], jobId, round, now);
    }
  }

  // ----- Leases -----

  predicate LeasedFor(a: Assignment, jobId: string, round: int) {
    a.status == Leased && a.jobId == jobId && a.round == round
  }

  ghost function LeasedCount(s: seq<Assignment>, jobId: string, round: int): nat {
    if |s| == 0 then 0
    else
      var rest := LeasedCount(s[..|s| - 1], jobId, round);
      if LeasedFor(s[|s| - 1], jobId, round) then rest + 1 else rest
  }

  /** Leases always expire some time, belong to a job of their scope, are unique per job, client and round,
      and never exceed the round's capacity. */
  ghost predicate LeasesOk(t: Tables, defaultMin: int) {
    && (forall i :: 0 <= i < |t.assignments| ==> t.assignments[i].expiresAt > 0)
    && (forall i :: 0 <= i < |t.assignments| ==> HasJob(t, t.assignments[i]))
    && (forall i, j :: 0 <= i < j < |t.assignments| ==> !SameSlot(t.assignments[i], t.assignments[j]))
    && (forall k, r :: 0 <= k < |t.jobs| ==>
        LeasedCount(t.assignments, t.jobs[k].id, r) <= Capacity(t.jobs[k], defaultMin))
  }

  ghost predicate HasJob(t: Tables, a: Assignment) {
    exists k :: 0 <= k < |t.jobs| && t.jobs[k].id == a.jobId && t.jobs[k].scope == a.scope
  }

  /** Two live leases of one client for one round of one job. */
  ghost predicate SameSlot(a: Assignment, b: Assignment) {
    a.status == Leased && b.status == Leased && a.jobId == b.jobId && a.client == b.client && a.round == b.round
  }

  lemma {:induction false} CountShrinks(s: seq<Assignment>, s': seq<Assignment>, jobId: string, round: int)
    requires |s| == |s'| && forall i :: 0 <= i < |s| ==> LeasedFor(s'[i], jobId, round) ==>
      LeasedFor(s[i], jobId, round)
    ensures LeasedCount(s', jobId, round) <= LeasedCount(s, jobId, round)
  {
    if |s| > 0 {
      CountShrinks(s[..|s| - 1], s'[..|s| - 1], jobId, round);
    }
  }

  lemma {:induction false} NoneLeased(s: seq<Assignment>, jobId: string, round: int)
    requires forall i :: 0 <= i < |s| ==> !LeasedFor(s[i], jobId, round)
    ensures LeasedCount(s, jobId, round) == 0
  {
    if |s| > 0 {
      NoneLeased(s[..|s| - 1], jobId, round);
    }
  }

  /** A call that adds no assignment and no job keeps the lease invariant. */
  lemma QuietKeepsLeases(t: Tables, t': Tables, defaultMin: int)
    requires LeasesOk(t, defaultMin) && SameJobs(t, t')
    requires Evolved(t.assignments, t'.assignments) && |t'.assignments| == |t.assignments|
    ensures LeasesOk(t', defaultMin)
  {
    forall i | 0 <= i < |t'.assignments| ensures HasJob(t', t'.assignments[i]) {
      assert HasJob(t, t.assignments[i]);
      var k :| 0 <= k < |t.jobs| && t.jobs[k].id == t.assignments[i].jobId && t.jobs[k].scope == t.assignments[i].scope;
      assert t'.jobs[k].id == t'.assignments[i].jobId;
    }
    forall i, j | 0 <= i < j < |t'.assignments| ensures !SameSlot(t'.assignments[i], t'.assignments[j]) {
      assert !SameSlot(t.assignments[i], t.assignments[j]);
    }
    forall k, r | 0 <= k < |t'.jobs|
      ensures LeasedCount(t'.assignments, t'.jobs[k].id, r) <= Capacity(t'.jobs[k], defaultMin) {
      CountShrinks(t.assignments, t'.assignments, t.jobs[k].id, r);
      assert LeasedCount(t.assignments, t.jobs[k].id, r) <= Capacity(t.jobs[k], defaultMin);
    }
  }

  lemma CreateKeepsLeases(t: Tables, record: Job, now: Time, defaultMin: int)
    requires JobsOk(t) && LeasesOk(t, defaultMin) && NewId(t, record, now)
    ensures LeasesOk(CreateJob(t, record, now), defaultMin)
  {
    hide LeasesOk, PreparedJob;
    var saved := PreparedJob(t, record, now);
    var superseded := t.(jobs := Supersede(t.jobs, saved.scope));
    forall k | 0 <= k < |t.jobs|
      ensures superseded.jobs[k] == t.jobs[k].(status := superseded.jobs[k].status)
        && (IsActive(superseded.jobs[k]) ==> IsActive(t.jobs[k])) {
      assert superseded.jobs[k] == Supersede(t.jobs, saved.scope)[k];
    }
    EvolvedSame(t.assignments);
    QuietKeepsLeases(t, superseded, defaultMin);
    PushJobKeepsLeases(superseded, saved, defaultMin);
  }

  lemma PushJobKeepsLeases(t: Tables, j: Job, defaultMin: int)
    requires LeasesOk(t, defaultMin) && forall k :: 0 <= k < |t.jobs| ==> t.jobs[k].id != j.id
    ensures LeasesOk(t.(jobs := t.jobs + [j]), defaultMin)
  {
    var r := t.(jobs := t.jobs + [j]);
    forall i | 0 <= i < |r.assignments| ensures HasJob(r, r.assignments[i]) {
      assert HasJob(t, t.assignments[i]);
      var k :| 0 <= k < |t.jobs| && t.jobs[k].id == r.assignments[i].jobId && t.jobs[k].scope == r.assignments[i].scope;
      assert r.jobs[k] == t.jobs[k];
    }
    forall k, n | 0 <= k < |r.jobs|
      ensures LeasedCount(r.assignments, r.jobs[k].id, n) <= Capacity(r.jobs[k], defaultMin) {
      if k < |t.jobs| {
        assert LeasedCount(t.assignments, t.jobs[k].id, n) <= Capacity(t.jobs[k], defaultMin);
      } else {
        forall i | 0 <= i < |r.assignments| ensures !LeasedFor(r.assignments[i], j.id, n) {
          assert HasJob(t, t.assignments[i]);
        }
        NoneLeased(r.assignments, j.id, n);
      }
    }
  }

  /** After expiry, live and leased are the same thing. */
  lemma {:induction false} LiveIsLeased(s: seq<Assignment>, jobId: string, round: int, now: Time)
    requires forall i :: 0 <= i < |s| ==> s[i].status == Leased ==> s[i].expiresAt > now
    ensures CountLeases(s, jobId, round, now) == LeasedCount(s, jobId, round)
  {
    if |s| > 0 {
      LiveIsLeased(s[..|s| - 1], jobId, round, now);
    }
  }

  lemma ExpiredLeaves(s: seq<Assignment>, now: Time)
    requires forall i :: 0 <= i < |s| ==> s[i].expiresAt > 0
    ensures forall i :: 0 <= i < |s| ==> Expire(s, now)[i].status == Leased ==> Expire(s, now)[i].expiresAt > now
    ensures forall i :: 0 <= i < |s| ==> Expire(s, now)[i].expiresAt > 0
  {
    forall i | 0 <= i < |s|
      ensures (Expire(s, now)[i].status == Leased ==> Expire(s, now)[i].expiresAt > now)
        && Expire(s, now)[i].expiresAt > 0 {
      assert Expire(s, now)[i] == ExpireOne(s[i], now);
    }
  }

  lemma ExpireKeeps(t: Tables, now: Time, defaultMin: int)
    requires LeasesOk(t, defaultMin)
    ensures LeasesOk(ExpireTables(t, now), defaultMin) && SameJobs(t, ExpireTables(t, now))
    ensures Evolved(t.assignments, ExpireTables(t, now).assignments)
  {
    ExpireEvolves(t.assignments, now);
    QuietKeepsLeases(t, ExpireTables(t, now), defaultMin);
  }

  /** Adding a lease for a slot that is free, under the capacity, keeps the invariant. */
  lemma PushKeepsLeases(t: Tables, a: Assignment, k: nat, defaultMin: int)
    requires JobsOk(t) && LeasesOk(t, defaultMin) && k < |t.jobs| && a.jobId == t.jobs[k].id
      && a.scope == t.jobs[k].scope
    requires a.expiresAt > 0 && a.status == Leased
    requires forall i :: 0 <= i < |t.assignments| ==> !SameSlot(t.assignments[i], a)
    requires LeasedCount(t.assignments, a.jobId, a.round) < Capacity(t.jobs[k], defaultMin)
    ensures LeasesOk(t.(assignments := t.assignments + [a]), defaultMin)
  {
    var r := t.(assignments := t.assignments + [a]);
    hide LeasedCount, Capacity;
    forall i | 0 <= i < |r.assignments| ensures HasJob(r, r.assignments[i]) {
      if i < |t.assignments| { assert HasJob(t, t.assignments[i]); }
    }
    forall i, j | 0 <= i < j < |r.assignments| ensures !SameSlot(r.assignments[i], r.assignments[j]) {
      if j < |t.assignments| { assert !SameSlot(t.assignments[i], t.assignments[j]); }
    }
    forall j, n | 0 <= j < |r.jobs|
      ensures LeasedCount(r.assignments, r.jobs[j].id, n) <= Capacity(r.jobs[j], defaultMin) {
      CountPush(t.assignments, a, r.jobs[j].id, n);
      assert LeasedCount(t.assignments, t.jobs[j].id, n) <= Capacity(t.jobs[j], defaultMin);
    }
  }

  lemma CountPush(s: seq<Assignment>, a: Assignment, jobId: string, round: int)
    ensures LeasedCount(s + [a], jobId, round)
         == if LeasedFor(a, jobId, round) then LeasedCount(s, jobId, round) + 1 else LeasedCount(s, jobId, round)
  {
    assert (s + [a])[..|s|] == s;
  }

  lemma LeaseKeeps(t: Tables, scope: Scope, client: string, modelVersion: int, defaultMin: int, defaultTtl: int,
                   now: Time)
    requires JobsOk(t) && LeasesOk(t, defaultMin) && now > 0
    ensures var r := Lease(t, scope, client, modelVersion, defaultMin, defaultTtl, now).tables;
      JobsOk(r) && LeasesOk(r, defaultMin) && Evolved(t.assignments, r.assignments) && SameJobs(t, r)
  {
    hide Capacity, LeasedCount, CountLeases, Expire, LastActive, FindLease, AssignmentIdText;
    var e := ExpireTables(t, now);
    ExpireKeeps(t, now, defaultMin);
    ExpiredLeaves(t.assignments, now);
    SameJobsOk(t, e);
    var k := LastActive(e.jobs, scope);
    var r := Lease(t, scope, client, modelVersion, defaultMin, defaultTtl, now).tables;
    if k >= 0 && !(e.jobs[k].targetRounds > 0 && e.jobs[k].completedRounds >= e.jobs[k].targetRounds) {
      var job := Started(e.jobs[k], now);
      var s := e.(jobs := e.jobs[k := job]);
      assert SameJobs(e, s);
      SameJobsOk(e, s);
      EvolvedSame(e.assignments);
      QuietKeepsLeases(e, s, defaultMin);
      GrantKeeps(s, k, scope, client, modelVersion, defaultMin, defaultTtl, now);
    } else {
      assert SameJobs(e, r);
      SameJobsOk(e, r);
      EvolvedSame(e.assignments);
      QuietKeepsLeases(e, r, defaultMin);
    }
  }

  lemma {:induction false} LeasedCountIs(s: seq<Assignment>, jobId: string, round: int, held: set<int>)
    requires forall i :: i in held <==>
      0 <= i < |s| && s[i].status == Leased && s[i].jobId == jobId && s[i].round == round
    ensures LeasedCount(s, jobId, round) == |held|
  {
    if |s| > 0 {
      var n := |s| - 1;
      LeasedCountIs(s[..n], jobId, round, held - {n});
      if n !in held { assert held - {n} == held; }
    } else {
      assert forall i :: i !in held;
      assert held == {};
    }
  }

  /** What the lease invariant says of the leases of one round of a job: there are no more of them than clients planned
      for, where the job plans any; otherwise no more than it needs at least, or the server by default. */
  lemma WithinPlan(t: Tables, defaultMin: int, k: nat, round: int, held: set<int>)
    requires LeasesOk(t, defaultMin) && k < |t.jobs|
    requires forall i :: i in held <==>
      0 <= i < |t.assignments| && t.assignments[i].status == Leased && t.assignments[i].jobId == t.jobs[k].id
      && t.assignments[i].round == round
    ensures var j := t.jobs[k];
      && (j.plannedClients > 0 ==> |held| <= j.plannedClients)
      && (j.plannedClients <= 0 && j.minClients > 0 ==> |held| <= j.minClients)
      && (j.plannedClients <= 0 && j.minClients <= 0 ==> |held| <= 1 || |held| <= defaultMin)
  {
    LeasedCountIs(t.assignments, t.jobs[k].id, round, held);
  }

  /** So leasing never leaves more leases out for a round than clients planned for. */
  lemma LeaseWithinPlan(t: Tables, scope: Scope, client: string, modelVersion: int, defaultMin: int, defaultTtl: int,
                        now: Time, k: nat, round: int, held: set<int>)
    requires JobsOk(t) && LeasesOk(t, defaultMin) && now > 0 && k < |t.jobs| && t.jobs[k].plannedClients > 0
    requires var r := Lease(t, scope, client, modelVersion, defaultMin, defaultTtl, now).tables;
      forall i :: i in held <==>
        0 <= i < |r.assignments| && r.assignments[i].status == Leased && r.assignments[i].jobId == t.jobs[k].id
        && r.assignments[i].round == round
    ensures |held| <= t.jobs[k].plannedClients
  {
    hide Lease, LeasesOk, JobsOk;
    LeaseKeeps(t, scope, client, modelVersion, defaultMin, defaultTtl, now);
    WithinPlan(Lease(t, scope, client, modelVersion, defaultMin, defaultTtl, now).tables, defaultMin, k, round, held);
  }

  lemma EvolvedSame(s: seq<Assignment>)
    ensures Evolved(s, s)
  {
  }

  /** Granting: only if the client has no live lease for the round and the capacity is not used up. */
  lemma GrantKeeps(s: Tables, k: nat, scope: Scope, client: string, modelVersion: int, defaultMin: int, defaultTtl: int,
                   now: Time)
    requires JobsOk(s) && LeasesOk(s, defaultMin) && now > 0 && k < |s.jobs| && s.jobs[k].scope == scope
    requires forall i :: 0 <= i < |s.assignments| ==> s.assignments[i].status == Leased ==>
      s.assignments[i].expiresAt > now
    ensures FindLease(s.assignments, s.jobs[k].id, client, Max(1, s.jobs[k].currentRound), now) == |s.assignments|
         && CountLeases(s.assignments, s.jobs[k].id, Max(1, s.jobs[k].currentRound), now) < Capacity(s.jobs[k],
                                                                                                     defaultMin)
      ==> LeasesOk(s.(assignments := s.assignments + [NewLease(s.jobs[k], scope, client, modelVersion, defaultTtl,
                                                               now)]), defaultMin)
  {
    var job := s.jobs[k];
    var round := Max(1, job.currentRound);
    if FindLease(s.assignments, job.id, client, round, now) == |s.assignments|
       && CountLeases(s.assignments, job.id, round, now) < Capacity(job, defaultMin) {
      LiveIsLeased(s.assignments, job.id, round, now);
      hide Capacity, LeasedCount, CountLeases, AssignmentIdText;
      PushKeepsLeases(s, NewLease(job, scope, client, modelVersion, defaultTtl, now), k, defaultMin);
    }
  }

  // ----- Submissions -----

  /** Validation only ever expires leases. */
  lemma ValidateKeeps(t: Tables, sub: Submission, now: Time, defaultMin: int)
    requires JobsOk(t) && LeasesOk(t, defaultMin)
    ensures var r := Validate(t, sub, now).tables;
      r == ExpireTables(t, now) && JobsOk(r) && LeasesOk(r, defaultMin) && SameJobs(t, r)
        && Evolved(t.assignments, r.assignments)
  {
    ExpireKeeps(t, now, defaultMin);
    SameJobsOk(t, ExpireTables(t, now));
    OverdueAlreadyExpired(t, sub, now);
  }

  /** The branch for a lease found overdue at submission is never taken: expiry has just run. */
  lemma OverdueAlreadyExpired(t: Tables, sub: Submission, now: Time)
    ensures Validate(t, sub, now).result != LeaseExpired && Accept(t, sub, now).result != LeaseExpired
  {
    var e := ExpireTables(t, now);
    forall i | 0 <= i < |e.assignments| ensures JudgeAssignment(e.assignments[i], sub, now) != LeaseExpired {
      assert e.assignments[i] == ExpireOne(t.assignments[i], now);
    }
  }

  /** Accepting changes exactly one record, the first with the submitted id, from leased to submitted. */
  lemma AcceptFlipsOne(t: Tables, sub: Submission, now: Time)
    requires Accept(t, sub, now).result == Accepted && LastActive(t.jobs, sub.scope) >= 0
    ensures var r, e := Accept(t, sub, now).tables, Expire(t.assignments, now);
      exists i :: 0 <= i < |e| && i == Find(e, sub.assignmentId)
        && e[i].status == Leased && e[i].client == sub.client && e[i].scope == sub.scope && e[i].round == sub.round
        && r == t.(assignments := e[i := e[i].(status := Submitted, updatedAt := now,
                                               detail := "Client submitted weights")])
  {
    OverdueAlreadyExpired(t, sub, now);
    var e := Expire(t.assignments, now);
    var i := Find(e, sub.assignmentId);
    assert i < |e|;
  }

  lemma AcceptKeeps(t: Tables, sub: Submission, now: Time, defaultMin: int)
    requires JobsOk(t) && LeasesOk(t, defaultMin)
    ensures var r := Accept(t, sub, now).tables;
      JobsOk(r) && LeasesOk(r, defaultMin) && SameJobs(t, r) && Evolved(t.assignments, r.assignments)
  {
    AcceptShape(t, sub, now);
    SameJobsOk(t, Accept(t, sub, now).tables);
    QuietKeepsLeases(t, Accept(t, sub, now).tables, defaultMin);
  }

  lemma AcceptShape(t: Tables, sub: Submission, now: Time)
    ensures var r := Accept(t, sub, now).tables;
      SameJobs(t, r) && r.jobs == t.jobs && Evolved(t.assignments, r.assignments) && |r.assignments| == |t.assignments|
    ensures var r := Accept(t, sub, now).tables; r == t.(assignments := r.assignments)
  {
    hide LastActive, Find;
    ExpireEvolves(t.assignments, now);
    OverdueAlreadyExpired(t, sub, now);
    var e, r := Expire(t.assignments, now), Accept(t, sub, now).tables;
    if Accept(t, sub, now).result == Accepted && LastActive(t.jobs, sub.scope) >= 0 {
      AcceptFlipsOne(t, sub, now);
      forall i | 0 <= i < |e|
        ensures SameLease(t.assignments[i], r.assignments[i])
          && StatusStep(t.assignments[i].status, r.assignments[i].status) {
        assert e[i] == ExpireOne(t.assignments[i], now);
      }
    }
  }

  /** Expiring twice at one reading of the clock changes nothing more. */
  lemma ExpireIdempotent(s: seq<Assignment>, now: Time)
    ensures Expire(Expire(s, now), now) == Expire(s, now)
  {
    forall i | 0 <= i < |s| ensures Expire(Expire(s, now), now)[i] == Expire(s, now)[i] {
      assert Expire(s, now)[i] == ExpireOne(s[i], now);
      assert Expire(Expire(s, now), now)[i] == ExpireOne(Expire(s, now)[i], now);
    }
  }

  /** What validation admitted, acceptance admits: on any state whose jobs and expired assignments are those
      validation saw, whatever happened to models and counters in between. */
  lemma ValidatedIsAccepted(t: Tables, u: Tables, sub: Submission, now: Time)
    requires u.jobs == t.jobs && u.assignments == Validate(t, sub, now).tables.assignments
    ensures Accept(u, sub, now).result == Validate(t, sub, now).result
    ensures Accept(t, sub, now).result == Validate(t, sub, now).result
  {
    OverdueAlreadyExpired(t, sub, now);
    ExpireIdempotent(t.assignments, now);
    assert u.assignments == Expire(t.assignments, now);
    assert ExpireTables(u, now).assignments == Expire(t.assignments, now);
  }

  /** A submission that was accepted is refused when it comes again while the job is still active. */
  lemma RepeatRefused(t: Tables, u: Tables, sub: Submission, now: Time, later: Time)
    requires LastActive(t.jobs, sub.scope) >= 0 && Accept(t, sub, now).result == Accepted
    requires u.jobs == t.jobs && u.assignments == Accept(t, sub, now).tables.assignments
    ensures Accept(u, sub, later).result == NotLeasable && Validate(u, sub, later).result == NotLeasable
  {
    AcceptFlipsOne(t, sub, now);
    var e := Expire(t.assignments, now);
    var i := Find(e, sub.assignmentId);
    var again := Expire(u.assignments, later);
    assert forall k :: 0 <= k < |again| ==> again[k] == ExpireOne(u.assignments[k], later) && again[k].id == e[k].id;
    assert Find(again, sub.assignmentId) == i;
    assert again[i].status == Submitted;
  }

  lemma AdvanceKeeps(t: Tables, scope: Scope, round: int, modelVersion: int, now: Time, defaultMin: int)
    requires JobsOk(t) && LeasesOk(t, defaultMin)
    ensures var r := Advance(t, scope, round, modelVersion, now).tables;
      JobsOk(r) && LeasesOk(r, defaultMin) && SameJobs(t, r) && Evolved(t.assignments, r.assignments)
  {
    var k, r := LastActive(t.jobs, scope), Advance(t, scope, round, modelVersion, now).tables;
    EvolvedSame(t.assignments);
    if k >= 0 {
      CloseEvolves(t.assignments, t.jobs[k].id, round, now);
    }
    SameJobsOk(t, r);
    QuietKeepsLeases(t, r, defaultMin);
  }

  // ----- Lockstep of the active job -----

  /** The active job works on the round after the ones it completed, below its target; a completed job stands at its
      target; leases of the active job are for its current round. */
  ghost predicate Lockstep(t: Tables) {
    && JobsInStep(t)
    && (forall k, i :: 0 <= k < |t.jobs| && 0 <= i < |t.assignments| ==> LeaseInStep(t.jobs[k], t.assignments[i]))
  }

  ghost predicate JobsInStep(t: Tables) {
    forall k :: 0 <= k < |t.jobs| ==> JobInStep(t.jobs[k])
  }

  ghost predicate JobInStep(j: Job) {
    && (IsActive(j) ==> j.currentRound == j.completedRounds + 1 && 0 <= j.completedRounds < j.targetRounds)
    && (j.status == Completed ==> j.completedRounds == j.targetRounds)
  }

  ghost predicate LeaseInStep(j: Job, a: Assignment) {
    IsActive(j) && a.status == Leased && a.jobId == j.id ==> a.round == j.currentRound
  }

  /** Jobs as the admin service creates them. */
  ghost predicate AdminJob(record: Job) {
    record.status == Planned && record.currentRound == 1 && record.completedRounds == 0 && record.targetRounds >= 1
    && record.plannedClients >= 1
  }

  lemma EvolvedKeepsLockstep(t: Tables, s': seq<Assignment>)
    requires Lockstep(t) && Evolved(t.assignments, s') && |s'| == |t.assignments|
    ensures Lockstep(t.(assignments := s'))
  {
    forall k, i | 0 <= k < |t.jobs| && 0 <= i < |s'| ensures LeaseInStep(t.jobs[k], s'[i]) {
      assert LeaseInStep(t.jobs[k], t.assignments[i]);
    }
  }

  lemma CreateKeepsLockstep(t: Tables, record: Job, now: Time, defaultMin: int)
    requires JobsOk(t) && LeasesOk(t, defaultMin) && NewId(t, record, now) && AdminJob(record) && Lockstep(t)
    ensures Lockstep(CreateJob(t, record, now))
  {
    var r, saved := CreateJob(t, record, now), PreparedJob(t, record, now);
    forall k | 0 <= k < |r.jobs| ensures JobInStep(r.jobs[k]) {
      if k < |t.jobs| {
        assert r.jobs[k] == Supersede(t.jobs, saved.scope)[k];
        assert JobInStep(t.jobs[k]);
      }
    }
    forall k, i | 0 <= k < |r.jobs| && 0 <= i < |r.assignments| ensures LeaseInStep(r.jobs[k], r.assignments[i]) {
      if k < |t.jobs| {
        assert r.jobs[k] == Supersede(t.jobs, saved.scope)[k];
        assert LeaseInStep(t.jobs[k], t.assignments[i]);
      } else {
        assert HasJob(t, t.assignments[i]);
      }
    }
  }

  /** Leasing keeps lockstep, and never takes its branch that marks a job completed. */
  lemma LeaseKeepsLockstep(t: Tables, scope: Scope, client: string, modelVersion: int, defaultMin: int, defaultTtl: int,
                           now: Time)
    requires JobsOk(t) && Lockstep(t)
    ensures Lockstep(Lease(t, scope, client, modelVersion, defaultMin, defaultTtl, now).tables)
    ensures var k := LastActive(t.jobs, scope); k >= 0 ==> t.jobs[k].completedRounds < t.jobs[k].targetRounds
  {
    hide LastActive, FindLease, CountLeases, Capacity, AssignmentIdText;
    ExpireEvolves(t.assignments, now);
    EvolvedKeepsLockstep(t, Expire(t.assignments, now));
    var e := ExpireTables(t, now);
    var k := LastActive(e.jobs, scope);
    if k >= 0 {
      assert JobInStep(t.jobs[k]);
      var job := Started(e.jobs[k], now);
      var s := e.(jobs := e.jobs[k := job]);
      forall j, i | 0 <= j < |s.jobs| && 0 <= i < |s.assignments| ensures LeaseInStep(s.jobs[j], s.assignments[i]) {
        assert LeaseInStep(e.jobs[j], e.assignments[i]);
      }
      assert Lockstep(s);
      var a := NewLease(job, scope, client, modelVersion, defaultTtl, now);
      forall j | 0 <= j < |s.jobs| ensures LeaseInStep(s.jobs[j], a) {
        assert t.jobs[j].id == t.jobs[k].id ==> j == k;
      }
      assert Lockstep(s.(assignments := s.assignments + [a]));
    }
  }

  lemma AcceptKeepsLockstep(t: Tables, sub: Submission, now: Time)
    requires Lockstep(t)
    ensures Lockstep(Accept(t, sub, now).tables)
  {
    AcceptShape(t, sub, now);
    EvolvedKeepsLockstep(t, Accept(t, sub, now).tables.assignments);
  }

  /** Advancing keeps lockstep exactly when the round closed is the job's current one, or the job is then done. */
  lemma AdvanceKeepsLockstep(t: Tables, scope: Scope, round: int, modelVersion: int, now: Time)
    requires JobsOk(t) && Lockstep(t) && LastActive(t.jobs, scope) >= 0
    ensures var j := t.jobs[LastActive(t.jobs, scope)];
      Lockstep(Advance(t, scope, round, modelVersion, now).tables) <==>
      round == j.currentRound || j.completedRounds + 1 == j.targetRounds
    ensures var r := Advance(t, scope, round, modelVersion, now).tables; JobsInStep(r) ==> Lockstep(r)
  {
    var k := LastActive(t.jobs, scope);
    var j, r := t.jobs[k], Advance(t, scope, round, modelVersion, now).tables;
    assert JobInStep(j);
    CloseEvolves(t.assignments, j.id, round, now);
    if round == j.currentRound || j.completedRounds + 1 == j.targetRounds {
      forall i | 0 <= i < |r.jobs| ensures JobInStep(r.jobs[i]) {
        assert JobInStep(t.jobs[i]);
      }
      forall h, i | 0 <= h < |r.jobs| && 0 <= i < |r.assignments| ensures LeaseInStep(r.jobs[h], r.assignments[i]) {
        assert LeaseInStep(t.jobs[h], t.assignments[i]);
        assert r.assignments[i] == CloseOne(t.assignments[i], j.id, round, now);
        if h == k { } else { assert t.jobs[h].id != j.id; }
      }
    } else {
      assert !JobInStep(r.jobs[k]);
    }
  }

  /** The assignment a submission names belongs to the job the submission names. */
  ghost predicate OwnJob(t: Tables, sub: Submission) {
    var i := Find(t.assignments, sub.assignmentId);
    i < |t.assignments| ==> t.assignments[i].jobId == sub.jobId
  }

  /** Under that condition a submission that validates is for the job's current round. */
  lemma ValidatedRoundIsCurrent(t: Tables, sub: Submission, now: Time)
    requires JobsOk(t) && Lockstep(t) && OwnJob(t, sub) && LastActive(t.jobs, sub.scope) >= 0
    requires Validate(t, sub, now).result == Accepted
    ensures sub.round == t.jobs[LastActive(t.jobs, sub.scope)].currentRound
  {
    var e := Expire(t.assignments, now);
    assert forall i :: 0 <= i < |e| ==> e[i] == ExpireOne(t.assignments[i], now) && e[i].id == t.assignments[i].id;
    SameFind(t.assignments, e, sub.assignmentId);
    var i, k := Find(e, sub.assignmentId), LastActive(t.jobs, sub.scope);
    assert LeaseInStep(t.jobs[k], t.assignments[i]);
  }

  lemma SameFind(s: seq<Assignment>, s': seq<Assignment>, id: string)
    requires |s| == |s'| && forall i :: 0 <= i < |s| ==> s[i].id == s'[i].id
    ensures Find(s, id) == Find(s', id)
  {
  }

  /** A live lease validates under the active job's id, whichever job it was granted for. */
  lemma LiveLeaseValidates(t: Tables, sub: Submission, j: nat, now: Time)
    requires j < |t.assignments| && Find(t.assignments, sub.assignmentId) == j && LastActive(t.jobs, sub.scope) >= 0
    requires sub.jobId == t.jobs[LastActive(t.jobs, sub.scope)].id && sub.jobId != "" && sub.assignmentId != ""
    requires var b := t.assignments[j];
      b.client == sub.client && b.scope == sub.scope && b.round == sub.round && b.status == Leased && b.expiresAt > now
    requires sub.baseVersion <= 0
    ensures Validate(t, sub, now).result == Accepted
  {
    var e := Expire(t.assignments, now);
    forall k | 0 <= k < |e| ensures e[k].id == t.assignments[k].id {
      assert e[k] == ExpireOne(t.assignments[k], now);
    }
    SameFind(t.assignments, e, sub.assignmentId);
    assert e[j] == ExpireOne(t.assignments[j], now) == t.assignments[j];
  }
}
