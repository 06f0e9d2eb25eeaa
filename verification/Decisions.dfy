/** What each call of the store decides, in the terms of its caller. */
module Decisions {
  import opened Basics
  import opened Records
  import opened StateStore
  import opened Ledger

  // ----- What a call looks up -----

  /** k is the position of the last active job of the scope, or -1 if it has none. */
  ghost predicate LastActiveAt(jobs: seq<Job>, scope: Scope, k: int) {
    && -1 <= k < |jobs|
    && (k >= 0 ==> jobs[k].scope == scope && (jobs[k].status == Planned || jobs[k].status == Running))
    && forall j :: k < j < |jobs| ==>
      !(jobs[j].scope == scope && (jobs[j].status == Planned || jobs[j].status == Running))
  }

  /** i is the position of the first assignment with the id, or the length if there is none. */
  ghost predicate FirstWithId(s: seq<Assignment>, id: string, i: nat) {
    i <= |s| && (i < |s| ==> s[i].id == id) && forall j :: 0 <= j < i ==> s[j].id != id
  }

  lemma LastActiveIs(jobs: seq<Job>, scope: Scope, k: int)
    requires LastActiveAt(jobs, scope, k)
    ensures LastActive(jobs, scope) == k
  {
  }

  // ----- Expiry -----

  /** After expiry no lease is overdue, and nothing changed but leases that were. */
  lemma ExpiryIs(s: seq<Assignment>, now: Time, i: nat)
    requires i < |s|
    ensures |Expire(s, now)| == |s|
    ensures var a, r := s[i], Expire(s, now)[i];
      && (r.status == Leased ==> r.expiresAt == 0 || r.expiresAt > now)
      && (r == a || (a.status == Leased && 0 < a.expiresAt <= now && SameLease(a, r) && r.status == Expired
                     && r.updatedAt == now && r.detail == "Lease expired before submission"))
  {
  }

  // ----- Leasing -----

  /** The positions of the leases of a job's round that have not run out. */
  ghost predicate AreLive(live: set<int>, s: seq<Assignment>, jobId: string, round: int, now: Time) {
    forall i :: i in live <==>
      0 <= i < |s| && s[i].jobId == jobId && s[i].round == round && s[i].status == Leased && s[i].expiresAt > now
  }

  ghost predicate IsFirstLive(i: int, live: set<int>, s: seq<Assignment>, client: string) {
    && i in live && 0 <= i < |s| && s[i].client == client
    && forall m :: m in live && 0 <= m < i ==> s[m].client != client
  }

  lemma {:induction false} CountLeasesIs(s: seq<Assignment>, jobId: string, round: int, now: Time, live: set<int>)
    requires AreLive(live, s, jobId, round, now)
    ensures CountLeases(s, jobId, round, now) == |live|
  {
    if |s| > 0 {
      var n := |s| - 1;
      CountLeasesIs(s[..n], jobId, round, now, live - {n});
      if n !in live { assert live - {n} == live; }
    } else {
      assert forall i :: i !in live;
      assert live == {};
    }
  }

  lemma ExpiryKeepsLive(s: seq<Assignment>, jobId: string, round: int, now: Time, live: set<int>)
    requires AreLive(live, s, jobId, round, now)
    ensures AreLive(live, Expire(s, now), jobId, round, now)
    ensures forall i :: i in live ==> Expire(s, now)[i] == s[i]
  {
    forall i | 0 <= i < |s| ensures Expire(s, now)[i] == ExpireOne(s[i], now) { }
  }

  /** How a job with rounds to go answers a client: with the first lease the client holds for the round, or, if there
      are fewer leases than clients planned for (or needed, if none are planned), with a new one of the job's lifetime;
      it is running from then on. */
  lemma LeaseAnswers(t: Tables, scope: Scope, client: string, modelVersion: int, defaultMin: int, defaultTtl: int,
                     now: Time, k: nat, live: set<int>)
    requires LastActiveAt(t.jobs, scope, k)
    requires t.jobs[k].targetRounds <= 0 || t.jobs[k].completedRounds < t.jobs[k].targetRounds
    requires AreLive(live, t.assignments, t.jobs[k].id,
                     if t.jobs[k].currentRound > 1 then t.jobs[k].currentRound else 1,
                     now)
    ensures var e, j := Lease(t, scope, client, modelVersion, defaultMin, defaultTtl, now), t.jobs[k];
      var job := if j.status == Planned then j.(status := Running, activatedAt := now) else j;
      var kept := Expire(t.assignments, now);
      var plan := if j.plannedClients > 0 then j.plannedClients else if j.minClients > 0 then j.minClients
        else if defaultMin > 1 then defaultMin else 1;
      var ttl := if j.ttl > 0 then j.ttl else if defaultTtl > 0 then defaultTtl else 0;
      && e.saved && e.tables == t.(jobs := t.jobs[k := job], assignments := e.tables.assignments)
      && (forall i :: IsFirstLive(i, live, t.assignments, client) ==>
            e.tables.assignments == kept && e.result == LeaseGranted(t.assignments[i], job))
      && ((forall i :: i in live ==> t.assignments[i].client != client) ==>
            && (|live| >= plan ==> e.tables.assignments == kept && e.result == NotLeased)
            && (|live| < plan ==>
                && e.result.LeaseGranted? && e.result.job == job
                && e.tables.assignments == kept + [e.result.assignment]
                && e.result.assignment
                  == Assignment(AssignmentIdText(j.id, if j.currentRound > 1 then j.currentRound else 1, client, now),
                                j.id, scope, j.dataset, client, if j.currentRound > 1 then j.currentRound else 1,
                                modelVersion, Leased, now, now + 1000 * ttl, now, "Lease issued")))
  {
    hide Expire, CountLeases, AssignmentIdText;
    LastActiveIs(t.jobs, scope, k);
    var j, kept := t.jobs[k], Expire(t.assignments, now);
    var round := if j.currentRound > 1 then j.currentRound else 1;
    ExpiryKeepsLive(t.assignments, j.id, round, now, live);
    CountLeasesIs(kept, j.id, round, now, live);
    FirstLive(kept, j.id, client, round, now, live);
    SameFirst(t.assignments, kept, client, live);
    hide LastActive, FindLease, AreLive, IsFirstLive, LastActiveAt;
  }

  lemma SameFirst(s: seq<Assignment>, s': seq<Assignment>, client: string, live: set<int>)
    requires |s| == |s'| && forall i :: i in live ==> 0 <= i < |s| && s'[i] == s[i]
    ensures forall i :: IsFirstLive(i, live, s, client) ==> IsFirstLive(i, live, s', client)
    ensures (forall i :: i in live ==> s[i].client != client) ==> forall i :: i in live ==> s'[i].client != client
  {
  }

  lemma FirstLive(s: seq<Assignment>, jobId: string, client: string, round: int, now: Time, live: set<int>)
    requires AreLive(live, s, jobId, round, now)
    ensures forall i :: IsFirstLive(i, live, s, client) ==> FindLease(s, jobId, client, round, now) == i
    ensures (forall i :: i in live ==> s[i].client != client) ==> FindLease(s, jobId, client, round, now) == |s|
  {
  }

  /** Without an active job nothing is leased; a job that has completed its rounds is marked so instead. */
  lemma LeaseRefused(t: Tables, scope: Scope, client: string, modelVersion: int, defaultMin: int, defaultTtl: int,
                     now: Time, k: int)
    requires LastActiveAt(t.jobs, scope, k)
    requires k >= 0 ==> 0 < t.jobs[k].targetRounds <= t.jobs[k].completedRounds
    ensures var e := Lease(t, scope, client, modelVersion, defaultMin, defaultTtl, now);
      && e.result == NotLeased && (e.saved <==> k >= 0)
      && e.tables == t.(assignments := Expire(t.assignments, now),
                        jobs := if k >= 0 then t.jobs[k := t.jobs[k].(status := Completed)] else t.jobs)
  {
    LastActiveIs(t.jobs, scope, k);
    hide LastActive;
  }

  // ----- Submitting -----

  /** What is asked, in order, of a submission under an active job and of the assignment it names. */
  ghost function AssignmentChecks(sub: Submission, now: Time, jobId: string, found: bool, a: Assignment)
    : (checks: seq<Check<Verdict>>)
    ensures |checks| == 7
  {
    [Check(sub.jobId != "" && sub.assignmentId != "", MissingIds),
     Check(sub.jobId == jobId, WrongJob),
     Check(found, NotFound),
     Check(a.client == sub.client && a.scope == sub.scope, WrongOwner),
     Check(a.status == Leased && (a.expiresAt == 0 || a.expiresAt > now), NotLeasable),
     Check(a.round == sub.round, WrongRound),
     Check(sub.baseVersion <= 0 || a.baseVersion <= 0 || sub.baseVersion == a.baseVersion, WrongBaseVersion)]
  }

  /** The verdict on a submission under an active job: that of the first check to fail. */
  lemma ValidateAnswers(t: Tables, sub: Submission, now: Time, k: nat, i: nat, a: Assignment)
    requires LastActiveAt(t.jobs, sub.scope, k) && FirstWithId(t.assignments, sub.assignmentId, i)
    requires i < |t.assignments| ==> a == t.assignments[i]
    ensures FirstRefusal(AssignmentChecks(sub, now, t.jobs[k].id, i < |t.assignments|, a), Accepted,
                         Validate(t, sub, now).result)
  {
    var checks := AssignmentChecks(sub, now, t.jobs[k].id, i < |t.assignments|, a);
    var n := if !checks[0].ok then 0 else if !checks[1].ok then 1 else if !checks[2].ok then 2
      else if !checks[3].ok then 3 else if !checks[4].ok then 4 else if !checks[5].ok then 5 else 6;
    assert checks[n].ok || FailsAt(checks, n);
    LastActiveIs(t.jobs, sub.scope, k);
    ExpiredFind(t, sub.assignmentId, now, i);
    hide LastActive, Find;
  }

  lemma ExpiredFind(t: Tables, id: string, now: Time, i: nat)
    requires FirstWithId(t.assignments, id, i)
    ensures Find(Expire(t.assignments, now), id) == i
    ensures i < |t.assignments| ==> Expire(t.assignments, now)[i] == ExpireOne(t.assignments[i], now)
  {
    var e := Expire(t.assignments, now);
    assert forall j :: 0 <= j < |e| ==> e[j] == ExpireOne(t.assignments[j], now) && e[j].id == t.assignments[j].id;
  }

  /** Acceptance marks the assignment the submission names as submitted, and nothing else. */
  lemma AcceptMarksNamed(t: Tables, sub: Submission, now: Time, k: nat, i: nat)
    requires LastActiveAt(t.jobs, sub.scope, k) && FirstWithId(t.assignments, sub.assignmentId, i)
    requires Accept(t, sub, now).result == Accepted
    ensures i < |t.assignments| && t.assignments[i].status == Leased
    ensures var e := Accept(t, sub, now);
      && e.saved
      && e.tables == t.(assignments := Expire(t.assignments, now)[i := t.assignments[i].(status := Submitted,
                                              updatedAt := now, detail := "Client submitted weights")])
  {
    LastActiveIs(t.jobs, sub.scope, k);
    ExpiredFind(t, sub.assignmentId, now, i);
    hide LastActive, Find, Expire;
  }

  /** The same on a ledger that was expired before, as the handler finds it. */
  lemma AcceptAfterExpiry(t: Tables, s: seq<Assignment>, sub: Submission, now: Time, k: nat, i: nat)
    requires LastActiveAt(t.jobs, sub.scope, k) && FirstWithId(s, sub.assignmentId, i)
    requires t.assignments == Expire(s, now) && Accept(t, sub, now).result == Accepted
    ensures i < |s| && Accept(t, sub, now).tables
      == t.(assignments := Expire(s, now)[i := s[i].(status := Submitted, updatedAt := now,
                                                     detail := "Client submitted weights")])
  {
    ExpiredIds(s, sub.assignmentId, now, i);
    ExpireIdempotent(s, now);
    if i < |s| { ExpiryIs(s, now, i); }
    hide Accept, LastActiveAt, FirstWithId, Expire;
    AcceptMarksNamed(t, sub, now, k, i);
  }

  lemma ExpiredIds(s: seq<Assignment>, id: string, now: Time, i: nat)
    requires FirstWithId(s, id, i)
    ensures FirstWithId(Expire(s, now), id, i)
  {
    assert forall j :: 0 <= j < |s| ==> Expire(s, now)[j] == ExpireOne(s[j], now);
  }

  // ----- Advancing -----

  /** Advancing closes the round for the assignments of the scope's active job, and moves that job on; it is completed
      when it has closed as many rounds as it was to. */
  lemma AdvanceMoves(t: Tables, scope: Scope, round: int, modelVersion: int, now: Time, k: nat)
    requires LastActiveAt(t.jobs, scope, k)
    ensures var e := Advance(t, scope, round, modelVersion, now);
      && e.saved && |e.tables.jobs| == |t.jobs| && |e.tables.assignments| == |t.assignments|
      && e.tables == t.(assignments := e.tables.assignments, jobs := t.jobs[k := e.tables.jobs[k]])
      && MovedOn(t.jobs[k], round, modelVersion, now, e.tables.jobs[k])
    ensures forall i :: 0 <= i < |t.assignments| ==>
      ClosedAs(t.assignments[i], t.jobs[k].id, round, now,
               Advance(t, scope, round, modelVersion, now).tables.assignments[i])
  {
    LastActiveIs(t.jobs, scope, k);
    hide LastActive;
  }

  /** What closing a round makes of the job. */
  ghost predicate MovedOn(j: Job, round: int, modelVersion: int, now: Time, r: Job) {
    && r == j.(status := r.status, activatedAt := if j.activatedAt > 0 then j.activatedAt else now,
               completedRounds := j.completedRounds + 1, currentRound := round + 1, modelVersion := modelVersion)
    && (r.status == Completed <==> 0 < j.targetRounds <= j.completedRounds + 1)
    && (r.status != Completed ==> r.status == Running)
  }

  /** What closing the round of a job makes of an assignment: what was submitted is aggregated, what was still out is
      missed, and everything else stays. */
  ghost predicate ClosedAs(a: Assignment, jobId: string, round: int, now: Time, r: Assignment) {
    if a.jobId != jobId || a.round != round then r == a
    else
      && r == a.(status := r.status, updatedAt := now)
      && (a.status == Submitted ==> r.status == Aggregated) && (a.status == Leased ==> r.status == Missed)
      && (a.status != Submitted && a.status != Leased ==> r.status == a.status)
  }

  // ----- Creating jobs -----

  /** A new job is added at the end, as asked for but under the normalised scope, with the scope's active version, a
      round of at least 1 and a lease time of at least 30 seconds; the active jobs of the scope are superseded. */
  lemma CreateAdds(t: Tables, record: Job, now: Time)
    ensures var r, n := CreateJob(t, record, now), |t.jobs|;
      var scope := Scope(if record.scope.tenant == "" then "default-tenant" else record.scope.tenant,
                         if record.scope.model == "" then "default-model" else record.scope.model);
      && |r.jobs| == n + 1 && r == t.(jobs := r.jobs)
      && (forall k :: 0 <= k < n ==> SupersededIn(t.jobs[k], scope, r.jobs[k]))
      && r.jobs[n]
        == record.(scope := scope, createdAt := now, id := r.jobs[n].id, modelVersion := ActiveVersion(t.models, scope),
                   currentRound := if record.currentRound > 1 then record.currentRound else 1,
                   ttl := if record.ttl > 30 then record.ttl else 30)
      && (record.id != "" ==> r.jobs[n].id == record.id)
      && (record.id == "" ==>
            exists digits ::
              Digits(digits, now)
              && r.jobs[n].id == scope.tenant + "::" + scope.model + "::" + record.dataset + "::" + digits)
  {
    hide NatText;
    NatTextReads(now);
  }

  /** What a new job in the scope leaves of another one. */
  ghost predicate SupersededIn(j: Job, scope: Scope, r: Job) {
    r == if j.scope == scope && (j.status == Planned || j.status == Running) then j.(status := Superseded) else j
  }

  /** The decimal text of n, without leading zeros. */
  ghost predicate Digits(s: string, n: nat) {
    && |s| > 0 && (forall i :: 0 <= i < |s| ==> '0' <= s[i] <= '9') && TextValue(s) == n
    && (|s| > 1 ==> s[0] != '0')
  }

  ghost function TextValue(s: string): int {
    if |s| == 0 then 0 else 10 * TextValue(s[..|s| - 1]) + (s[|s| - 1] as int - '0' as int)
  }

  lemma {:induction false} NatTextReads(n: nat)
    ensures Digits(NatText(n), n)
  {
    var s := NatText(n);
    if n >= 10 {
      NatTextReads(n / 10);
      assert s[..|s| - 1] == NatText(n / 10);
      if n / 10 < 10 { assert TextValue(NatText(n / 10)[..0]) == 0; }
    } else {
      assert TextValue(s[..0]) == 0;
    }
  }

  /** An assignment's id names its job, its round, its client and the time it was made. */
  lemma AssignmentIdIs(jobId: string, round: nat, client: string, now: Time) returns (r: string, d: string)
    ensures Digits(r, round) && Digits(d, now)
    ensures AssignmentIdText(jobId, round, client, now)
      == jobId + "::round:" + r + "::client:" + client + "::" + d
  {
    r, d := NatText(round), NatText(now);
    NatTextReads(round);
    NatTextReads(now);
  }
}
