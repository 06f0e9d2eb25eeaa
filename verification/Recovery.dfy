/** Crash recovery: reloading the state file gives what memory would be at that time. */
module Recovery {
  import opened Basics
  import opened Records
  import opened StateFile
  import opened StateStore
  import opened Ledger

  /** The file lags memory only by leases that memory has already expired. */
  ghost predicate LeaseLags(m: Assignment, f: Assignment, now: Time) {
    m == f || (IsOverdue(f, now)
               && m == f.(status := Expired, updatedAt := m.updatedAt, detail := "Lease expired before submission"))
  }

  ghost predicate Lags(m: Tables, f: Tables, now: Time) {
    && m == f.(assignments := m.assignments) && |m.assignments| == |f.assignments|
    && forall i :: 0 <= i < |m.assignments| ==> LeaseLags(m.assignments[i], f.assignments[i], now)
  }

  /** Equal, but for the time stamp of an expired lease. */
  ghost predicate SameButStamp(a: Assignment, b: Assignment) {
    a == b || (a.status == Expired && a == b.(updatedAt := a.updatedAt))
  }

  ghost predicate Recovered(m: Tables, r: Tables) {
    && m == r.(assignments := m.assignments) && |m.assignments| == |r.assignments|
    && forall i :: 0 <= i < |m.assignments| ==> SameButStamp(m.assignments[i], r.assignments[i])
  }

  /** Every call of the store, with its clock reading. */
  datatype Call = LeaseCall(scope: Scope, client: string, modelVersion: int, defaultMin: int, defaultTtl: int)
    | ValidateCall(sub: Submission) | AcceptCall(sub: Submission)
    | AdvanceCall(scope: Scope, round: int, modelVersion: int) | CreateCall(record: Job)
    | RecordCall(scope: Scope, round: int, path: RoundKey, strategy: Strategy, keyVersion: int, clients: int,
                 dimension: int)
    | RollbackCall(scope: Scope, version: int) | SubmissionCall | KeyCall(version: int)

  ghost function Perform(t: Tables, c: Call, now: Time): Effect<()> {
    match c
    case LeaseCall(s, cl, v, dm, dt) => var e := Lease(t, s, cl, v, dm, dt, now); Effect(e.tables, e.saved, ())
    case ValidateCall(sub) => var e := Validate(t, sub, now); Effect(e.tables, e.saved, ())
    case AcceptCall(sub) => var e := Accept(t, sub, now); Effect(e.tables, e.saved, ())
    case AdvanceCall(s, r, v) => Advance(t, s, r, v, now)
    case CreateCall(record) => Effect(CreateJob(t, record, now), true, ())
    case RecordCall(s, r, p, g, k, c, d) => Effect(RecordModel(t, s, r, p, g, k, c, d, now).tables, true, ())
    case RollbackCall(s, v) => var e := Rollback(t, s, v); Effect(e.tables, e.saved, ())
    case SubmissionCall => Effect(t.(totalSubmissions := t.totalSubmissions + 1), true, ())
    case KeyCall(v) => Effect(t.(activeKeyVersion := v), t.activeKeyVersion != v, ())
  }

  /** Callers normalise scopes before they get here. */
  ghost predicate NamesScope(c: Call) {
    match c
    case LeaseCall(s, _, _, _, _) => Normalized(s) == s
    case RecordCall(s, _, _, _, _, _, _) => Normalized(s) == s
    case _ => true
  }

  /** A call that does not save has changed nothing but overdue leases. */
  lemma UnsavedOnlyExpires(t: Tables, c: Call, now: Time)
    requires !Perform(t, c, now).saved
    ensures Perform(t, c, now).tables == t || Perform(t, c, now).tables == ExpireTables(t, now)
  {
    hide LastActive, FindLease, CountLeases, Find, FindVersion;
  }

  lemma ExpireLags(m: Tables, f: Tables, before: Time, now: Time)
    requires Lags(m, f, before) && before <= now
    ensures Lags(m, f, now) && Lags(ExpireTables(m, now), f, now)
  {
    var e := ExpireTables(m, now);
    forall i | 0 <= i < |m.assignments|
      ensures LeaseLags(e.assignments[i], f.assignments[i], now) && LeaseLags(m.assignments[i], f.assignments[i], now) {
      assert e.assignments[i] == ExpireOne(m.assignments[i], now);
      assert LeaseLags(m.assignments[i], f.assignments[i], before);
    }
  }

  lemma CallKeepsLag(m: Tables, f: Tables, before: Time, c: Call, now: Time)
    requires Lags(m, f, before) && before <= now
    ensures var e := Perform(m, c, now); Lags(e.tables, if e.saved then e.tables else f, now)
  {
    ExpireLags(m, f, before, now);
    if !Perform(m, c, now).saved {
      UnsavedOnlyExpires(m, c, now);
    }
  }

  /** Expiring the file at a later time catches up with memory expired at that time. */
  lemma ReloadCatchesUp(m: Tables, f: Tables, now: Time, later: Time)
    requires Lags(m, f, now) && now <= later
    ensures Recovered(ExpireTables(m, later), ExpireTables(f, later))
  {
    var a, b := ExpireTables(m, later), ExpireTables(f, later);
    forall i | 0 <= i < |a.assignments| ensures SameButStamp(a.assignments[i], b.assignments[i]) {
      assert LeaseLags(m.assignments[i], f.assignments[i], now);
      assert a.assignments[i] == ExpireOne(m.assignments[i], later)
        && b.assignments[i] == ExpireOne(f.assignments[i], later);
    }
  }

  // ----- Scopes stay named -----

  lemma PerformKeepsNames(t: Tables, c: Call, now: Time)
    requires ScopesNamed(t) && NamesScope(c)
    ensures ScopesNamed(Perform(t, c, now).tables)
  {
    hide LastActive, FindLease, CountLeases, Find, FindVersion, NextVersion, ActiveVersion, AssignmentIdText, JobIdText,
         Capacity;
    match c
    case LeaseCall(s, cl, v, dm, dt) => LeaseNames(t, s, cl, v, dm, dt, now);
    case ValidateCall(sub) => ValidateNames(t, sub, now);
    case AcceptCall(sub) => AcceptNames(t, sub, now);
    case CreateCall(record) => CreateNames(t, record, now);
    case AdvanceCall(s, r, v) =>
      var k := LastActive(t.jobs, s);
      if k >= 0 { CloseNames(t, t.jobs[k].id, r, now); }
    case RecordCall(s, r, p, g, kv, cl, d) => DeactivateNames(t, s);
    case RollbackCall(s, v) => DeactivateNames(t, s);
    case _ =>
  }

  lemma ExpireNames(t: Tables, now: Time)
    requires ScopesNamed(t)
    ensures ScopesNamed(ExpireTables(t, now))
  {
    forall i | 0 <= i < |t.assignments| ensures Expire(t.assignments, now)[i].scope == t.assignments[i].scope {
      assert Expire(t.assignments, now)[i] == ExpireOne(t.assignments[i], now);
    }
  }

  lemma LeaseNames(t: Tables, scope: Scope, client: string, modelVersion: int, defaultMin: int, defaultTtl: int,
                   now: Time)
    requires ScopesNamed(t) && Normalized(scope) == scope
    ensures ScopesNamed(Lease(t, scope, client, modelVersion, defaultMin, defaultTtl, now).tables)
  {
    hide LastActive, FindLease, CountLeases, AssignmentIdText, Capacity, ExpireTables;
    ExpireNames(t, now);
  }

  lemma ValidateNames(t: Tables, sub: Submission, now: Time)
    requires ScopesNamed(t)
    ensures ScopesNamed(Validate(t, sub, now).tables)
  {
    hide LastActive, Find, ExpireTables, JudgeAssignment;
    ExpireNames(t, now);
  }

  lemma AcceptNames(t: Tables, sub: Submission, now: Time)
    requires ScopesNamed(t)
    ensures ScopesNamed(Accept(t, sub, now).tables)
  {
    hide Accept;
    AcceptShape(t, sub, now);
    var r := Accept(t, sub, now).tables;
    forall i | 0 <= i < |r.assignments| ensures r.assignments[i].scope == t.assignments[i].scope {
      assert SameLease(t.assignments[i], r.assignments[i]);
    }
  }

  lemma CreateNames(t: Tables, record: Job, now: Time)
    requires ScopesNamed(t)
    ensures ScopesNamed(CreateJob(t, record, now))
  {
    var r := CreateJob(t, record, now);
    forall k | 0 <= k < |t.jobs| ensures r.jobs[k].scope == t.jobs[k].scope {
      assert r.jobs[k] == Supersede(t.jobs, Normalized(record.scope))[k];
    }
  }

  lemma CloseNames(t: Tables, jobId: string, round: int, now: Time)
    requires ScopesNamed(t)
    ensures ScopesNamed(t.(assignments := CloseRound(t.assignments, jobId, round, now)))
  {
    var s := CloseRound(t.assignments, jobId, round, now);
    forall i | 0 <= i < |s| ensures s[i].scope == t.assignments[i].scope {
      assert s[i] == CloseOne(t.assignments[i], jobId, round, now);
    }
  }

  lemma DeactivateNames(t: Tables, scope: Scope)
    requires ScopesNamed(t)
    ensures ScopesNamed(t.(models := Deactivate(t.models, scope)))
  {
    var m := Deactivate(t.models, scope);
    assert forall i :: 0 <= i < |m| ==> m[i].scope == t.models[i].scope;
  }

  // ----- Runs -----

  datatype Timed = Timed(call: Call, now: Time)

  /** The tables in memory, those last saved, and the last reading of the clock. */
  datatype Store = Store(memory: Tables, file: Tables, clock: Time)

  ghost predicate Lagging(s: Store) {
    Lags(s.memory, s.file, s.clock) && ScopesNamed(s.memory) && ScopesNamed(s.file)
  }

  ghost function Next(s: Store, c: Timed): Store {
    var e := Perform(s.memory, c.call, c.now);
    Store(e.tables, if e.saved then e.tables else s.file, c.now)
  }

  ghost function Run(start: Store, calls: seq<Timed>): Store {
    if |calls| == 0 then start else Next(Run(start, calls[..|calls| - 1]), calls[|calls| - 1])
  }

  /** The clock does not go back, and callers name their scopes. */
  ghost predicate Orderly(start: Store, calls: seq<Timed>) {
    |calls| > 0 ==>
      var before, c := calls[..|calls| - 1], calls[|calls| - 1];
      Orderly(start, before) && NamesScope(c.call) && Run(start, before).clock <= c.now
  }

  lemma NextLags(s: Store, c: Timed)
    requires Lagging(s) && NamesScope(c.call) && s.clock <= c.now
    ensures Lagging(Next(s, c))
  {
    hide Perform, Lags, ScopesNamed, NamesScope;
    CallKeepsLag(s.memory, s.file, s.clock, c.call, c.now);
    PerformKeepsNames(s.memory, c.call, c.now);
  }

  /** Along every run of calls the file lags memory by leases memory has already expired, and by nothing else. */
  lemma {:induction false} RunLags(start: Store, calls: seq<Timed>)
    requires Lagging(start) && Orderly(start, calls)
    ensures Lagging(Run(start, calls))
  {
    if |calls| > 0 {
      hide Lagging, Next, NamesScope;
      RunLags(start, calls[..|calls| - 1]);
      NextLags(Run(start, calls[..|calls| - 1]), calls[|calls| - 1]);
    }
  }

  lemma RunPush(start: Store, calls: seq<Timed>, c: Timed)
    ensures Run(start, calls + [c]) == Next(Run(start, calls), c)
    ensures Orderly(start, calls) && NamesScope(c.call) && Run(start, calls).clock <= c.now ==>
      Orderly(start, calls + [c])
  {
    assert (calls + [c])[..|calls|] == calls;
  }

  /** After any run of calls, a crash and a reload at any later time give the tables memory would have at that time, up
      to the time stamps of expired leases. */
  lemma CrashRecovery(start: Store, calls: seq<Timed>, t: Tables, later: Time)
    requires Lagging(start) && Orderly(start, calls) && Run(start, calls).clock <= later
    ensures var s := Run(start, calls);
      Recovered(ExpireTables(s.memory, later), LoadedTables(t, Some(Save(s.file)), later))
  {
    var s := Run(start, calls);
    RunLags(start, calls);
    ReadInvertsSave(s.file, later);
    ReloadCatchesUp(s.memory, s.file, s.clock, later);
  }
}
