/** Every step of the server as the store calls it makes, and what a crash leaves of it on disk. */
module Persistence {
  import opened Basics
  import opened ByteStrings
  import opened Records
  import opened StateFile
  import opened StateStore
  import opened WeightBuffer
  import opened FederatedService
  import opened Ledger
  import opened Recovery
  import opened Steps
  import Crypto

  // ----- The calls of a step -----

  /** The calls of a submission, in the handler's order. */
  ghost function SubmitCalls(p: Setup, w: World, s: Step): seq<Timed>
    requires s.Submits?
  {
    if !Screened(w, s) then ValidatedCalls(w, s)
    else
      SettledCalls(AttemptedCalls(p, w, s), HasActiveJob(w.tables, KeyOf(s.req).scope), AttemptOf(p, w, s).outcome,
                   Incoming(s.req), s.env.now)
  }

  ghost function ValidatedCalls(w: World, s: Step): seq<Timed>
    requires s.Submits?
  {
    if Validates(w, s) then [Timed(ValidateCall(Incoming(s.req)), s.env.now)] else []
  }

  ghost function AttemptedCalls(p: Setup, w: World, s: Step): seq<Timed>
    requires s.Submits?
  {
    var counted := ValidatedCalls(w, s) + [Timed(SubmissionCall, s.env.now)];
    match AttemptOf(p, w, s).stage
    case Published(v, clients) => counted + [Timed(RecordedAs(w, s, v, clients), s.env.now)]
    case _ => counted
  }

  ghost function SettledCalls(calls: seq<Timed>, hasJob: bool, outcome: Outcome, sub: Submission,
                              now: Time): seq<Timed> {
    if !outcome.accepted || !hasJob then calls
    else if !outcome.aggregated then calls + [Timed(AcceptCall(sub), now)]
    else
      calls + [Timed(AcceptCall(sub), now)]
      + [Timed(AdvanceCall(sub.scope, sub.round, outcome.modelVersion), now)]
  }

  /** The handler gets as far as validating the assignment. */
  predicate Validates(w: World, s: Step) {
    && s.Submits? && Preliminary(s.req).None? && !IsStale(w.tables, Incoming(s.req))
    && HasActiveJob(w.tables, KeyOf(s.req).scope)
  }

  ghost function RecordedAs(w: World, s: Step, weights: seq<real>, clients: nat): Call
    requires s.Submits?
  {
    var key := KeyOf(s.req);
    RecordCall(key.scope, key.round, key, s.env.cfg.strategy, w.keys.active, clients, |weights|)
  }

  ghost function CallsOf(p: Setup, w: World, s: Step): seq<Timed> {
    match s
    case Submits(_, _, _, _) => SubmitCalls(p, w, s)
    case Leases(scope, client, version, now) =>
      [Timed(LeaseCall(Normalized(scope), client, version, p.requiredClients, p.defaultTtl), now)]
    case Creates(job, now) => if JudgeJob(job).Some? then [] else [Timed(CreateCall(JobRecord(job)), now)]
    case RollsBack(request, target) => if target <= 0 then []
      else [Timed(RollbackCall(Normalized(request), target), w.clock)]
    case Rotates(newKey) => [Timed(KeyCall(w.keys.active + 1), w.clock)]
    case Restarts(_, _) => []
  }

  /** Memory and what the state file holds. */
  ghost function StoreOf(w: World): Store {
    Store(w.tables, match w.file case Some(j) => Read(j, 0) case None => EMPTY_TABLES, w.clock)
  }

  /** The state file holds tables that lag memory only by expired leases. */
  ghost predicate Filed(w: World) {
    w.file.Some? && w.file.value == Save(StoreOf(w).file) && Lagging(StoreOf(w))
  }

  /** The store after these calls is the one the step leaves. */
  ghost predicate Leaves(s: Store, w: World) {
    s.memory == w.tables && w.file == Some(Save(s.file)) && s.clock <= w.clock
  }

  lemma LeavesFiled(s: Store, w: World)
    requires Lagging(s) && Leaves(s, w)
    ensures Filed(w)
  {
    ReadInvertsSave(s.file, 0);
    ExpireLags(s.memory, s.file, s.clock, w.clock);
  }

  /** One call. */
  lemma OneCall(start: Store, c: Timed)
    ensures Run(start, [c]) == Next(start, c)
    ensures NamesScope(c.call) && start.clock <= c.now ==> Orderly(start, [c])
  {
    RunPush(start, [], c);
    assert [] + [c] == [c];
  }

  lemma StartLeaves(w: World)
    requires Filed(w)
    ensures Leaves(StoreOf(w), w) && Run(StoreOf(w), []) == StoreOf(w) && Orderly(StoreOf(w), [])
  {
  }

  /** A call that saves leaves memory and file alike. */
  lemma SavingCall(start: Store, calls: seq<Timed>, c: Timed)
    requires Orderly(start, calls) && NamesScope(c.call) && Run(start, calls).clock <= c.now
    requires Perform(Run(start, calls).memory, c.call, c.now).saved
    ensures var t := Perform(Run(start, calls).memory, c.call, c.now).tables;
      Run(start, calls + [c]) == Store(t, t, c.now)
    ensures Orderly(start, calls + [c])
  {
    hide Perform, NamesScope;
    RunPush(start, calls, c);
  }

  lemma ValidatedRun(w: World, s: Step)
    requires s.Submits? && Filed(w) && w.clock <= s.env.now
    ensures var r := Run(StoreOf(w), ValidatedCalls(w, s));
      r.memory == ScreenedTables(w, s.req, s.env.now) && r.file == StoreOf(w).file && r.clock <= s.env.now
    ensures Orderly(StoreOf(w), ValidatedCalls(w, s))
  {
    hide Validate, Lagging, Preliminary, IsStale, HasActiveJob;
    var sub, now := Incoming(s.req), s.env.now;
    if Validates(w, s) {
      OneCall(StoreOf(w), Timed(ValidateCall(sub), now));
      ValidateShape(w.tables, sub, now);
    }
  }

  /** Counting and attempting: both saved. */
  lemma AttemptedRun(p: Setup, w: World, s: Step)
    requires s.Submits? && Filed(w) && w.clock <= s.env.now
    ensures var t := AttemptOf(p, w, s).world.tables;
      Run(StoreOf(w), AttemptedCalls(p, w, s)) == Store(t, t, s.env.now) && Orderly(StoreOf(w), AttemptedCalls(p, w, s))
  {
    hide Add, ScreenedTables, Lagging, Filed, NextVersion, Deactivate, FilesAfter, BlobOf, LastActive, Required,
         ValidatedCalls;
    ValidatedRun(w, s);
    var start, calls := StoreOf(w), ValidatedCalls(w, s);
    SavingCall(start, calls, Timed(SubmissionCall, s.env.now));
    match AttemptOf(p, w, s).stage
    case Published(v, clients) =>
      SavingCall(start, calls + [Timed(SubmissionCall, s.env.now)], Timed(RecordedAs(w, s, v, clients), s.env.now));
    case _ =>
  }

  /** Accepting and advancing: both saved. */
  lemma SettledRun(start: Store, calls: seq<Timed>, hasJob: bool, a: AttemptResult, sub: Submission, now: Time)
    requires Orderly(start, calls) && Run(start, calls) == Store(a.world.tables, a.world.tables, now)
    requires hasJob ==> HasActiveJob(a.world.tables, sub.scope) && Accept(a.world.tables, sub, now).result == Accepted
    ensures var t := Settled(hasJob, a, sub, now);
      Run(start, SettledCalls(calls, hasJob, a.outcome, sub, now)) == Store(t, t, now)
    ensures Orderly(start, SettledCalls(calls, hasJob, a.outcome, sub, now))
  {
    hide LastActive, Accept, CloseRound, AdvancedJob, Orderly;
    if hasJob && a.outcome.accepted {
      AcceptedSaves(a.world.tables, sub, now);
      AcceptShape(a.world.tables, sub, now);
      SavingCall(start, calls, Timed(AcceptCall(sub), now));
      if a.outcome.aggregated {
        var advance := Timed(AdvanceCall(sub.scope, sub.round, a.outcome.modelVersion), now);
        SavingCall(start, calls + [Timed(AcceptCall(sub), now)], advance);
      }
    }
  }

  lemma SubmitIsCalls(p: Setup, w: World, s: Step)
    requires s.Submits? && Filed(w) && w.clock <= s.env.now
    ensures Orderly(StoreOf(w), SubmitCalls(p, w, s)) && Leaves(Run(StoreOf(w), SubmitCalls(p, w, s)), Moved(p, w, s))
  {
    hide Screen, ScreenedTables, Lagging, Submit, AttemptOf, Settled, HasActiveJob, Validates, Orderly, Accept,
         AttemptedCalls, SettledCalls;
    SubmitShape(p, w, s);
    if Screened(w, s) {
      AttemptedRun(p, w, s);
      ScreenedSame(w, s.req, s.env.now);
      ScreenedIsAccepted(w, AttemptOf(p, w, s).world.tables, s.req, s.env.now);
      SettledRun(StoreOf(w), AttemptedCalls(p, w, s), HasActiveJob(w.tables, KeyOf(s.req).scope), AttemptOf(p, w, s),
                 Incoming(s.req), s.env.now);
    } else {
      ValidatedRun(w, s);
    }
  }

  /** Every step but a restart is, for memory and state file, the run of its calls. */
  lemma StepIsCalls(p: Setup, w: World, s: Step)
    requires Filed(w) && Allowed(p, w, s) && !s.Restarts?
    ensures Orderly(StoreOf(w), CallsOf(p, w, s)) && Leaves(Run(StoreOf(w), CallsOf(p, w, s)), Moved(p, w, s))
  {
    if s.Submits? {
      hide Filed, Leaves, Orderly, Submit, Plausible;
      SubmitIsCalls(p, w, s);
    } else {
      hide Filed, Leaves, Orderly;
      OneCallSteps(p, w, s);
    }
  }

  lemma OneCallSteps(p: Setup, w: World, s: Step)
    requires Filed(w) && Allowed(p, w, s) && !s.Restarts? && !s.Submits?
    ensures Orderly(StoreOf(w), CallsOf(p, w, s)) && Leaves(Run(StoreOf(w), CallsOf(p, w, s)), Moved(p, w, s))
  {
    hide Filed, Leaves, Orderly, Lease, JudgeJob, CreateJob, NewId, RollBack, Rollback, Run, StoreOf, Save;
    StartLeaves(w);
    match s
    case Leases(scope, client, version, now) =>
      SingleCall(w, LeaseCall(Normalized(scope), client, version, p.requiredClients, p.defaultTtl), now,
                 Moved(p, w, s));
    case Creates(job, now) =>
      if JudgeJob(job).None? { SingleCall(w, CreateCall(JobRecord(job)), now, Moved(p, w, s)); }
    case RollsBack(request, target) =>
      RollbackSaves(p, w, request, target);
      if target > 0 { SingleCall(w, RollbackCall(Normalized(request), target), w.clock, Moved(p, w, s)); }
    case Rotates(newKey) =>
      SingleCall(w, KeyCall(w.keys.active + 1), w.clock, Moved(p, w, s));
  }

  lemma RollbackSaves(p: Setup, w: World, request: Scope, target: int)
    ensures var r := RollBack(p, w, request, target).world; var e := Rollback(w.tables, Normalized(request), target);
      r.clock == w.clock && r.tables == (if target <= 0 then w.tables else e.tables)
      && r.file == (if target > 0 && e.saved then Some(Save(r.tables)) else w.file)
      && (target <= 0 ==> r == w)
  {
    hide Rollback, Crypto.DecryptBlob, Save;
  }

  /** A step that is one call. */
  lemma SingleCall(w: World, c: Call, now: Time, w': World)
    requires Filed(w) && NamesScope(c) && w.clock <= now && w'.clock == now
    requires var e := Perform(w.tables, c, now);
      w'.tables == e.tables && w'.file == if e.saved then Some(Save(e.tables)) else w.file
    ensures Orderly(StoreOf(w), [Timed(c, now)]) && Leaves(Run(StoreOf(w), [Timed(c, now)]), w')
  {
    hide Perform, Lagging, NamesScope, Save, Read;
    OneCall(StoreOf(w), Timed(c, now));
  }

  // ----- Disk -----

  /** The state file lags memory by expired leases only, and the key directory loads to the keys in use. */
  ghost predicate Persistent(w: World) {
    && Filed(w) && Crypto.KeyringOk(Crypto.Keyring(w.keys, w.keyDisk))
    && w.tables.activeKeyVersion == w.keys.active
  }

  /** What a restart finds: the tables up to the stamps of expired leases, the same keys, the same checkpoints. */
  lemma RestartFinds(p: Setup, w: World, now: Time, random: Bytes)
    requires Persistent(w) && w.clock <= now
    ensures Booted(p, DiskOf(w), now, random).Some?
    ensures var r := Booted(p, DiskOf(w), now, random).value;
      && Recovered(ExpireTables(w.tables, now), r.tables) && r.file == Some(Save(r.tables)) && r.clock == now
      && r.keys == w.keys && r.keyDisk == w.keyDisk && r.files == w.files
      && r.tables.activeKeyVersion == w.keys.active && ScopesNamed(r.tables)
      && r.buffer == RestoreModels(p, r.(buffer := EMPTY_BUFFER), r.tables.models)
  {
    hide Lagging, Crypto.KeyringOk, Recovered, RestoreModels, ExpireTables, Read, Save, ScopesNamed;
    Crypto.LoadRestores(Crypto.Keyring(w.keys, w.keyDisk), random);
    var s := StoreOf(w);
    StartLeaves(w);
    CrashRecovery(s, [], EMPTY_TABLES, now);
    var t := LoadedTables(EMPTY_TABLES, w.file, now);
    RecoveredKey(ExpireTables(w.tables, now), t);
    ExpiredKey(w.tables, now);
    assert t.(activeKeyVersion := w.keys.active) == t;
    LoadedNames(s, now);
  }

  lemma RecoveredKey(m: Tables, r: Tables)
    requires Recovered(m, r)
    ensures r.activeKeyVersion == m.activeKeyVersion
  {
  }

  lemma ExpiredKey(t: Tables, now: Time)
    ensures ExpireTables(t, now).activeKeyVersion == t.activeKeyVersion
  {
  }

  lemma LoadedIs(f: Tables, now: Time)
    ensures LoadedTables(EMPTY_TABLES, Some(Save(f)), now) == ExpireTables(Read(Save(f), now), now)
  {
    hide Read, ExpireTables;
  }

  lemma LoadedNames(s: Store, now: Time)
    requires Lagging(s)
    ensures ScopesNamed(LoadedTables(EMPTY_TABLES, Some(Save(s.file)), now))
  {
    hide Lags, ScopesNamed, Read, Save;
    ReadInvertsSave(s.file, now);
    LoadedIs(s.file, now);
    ExpireNames(s.file, now);
  }

  lemma StepKeepsFiled(p: Setup, w: World, s: Step)
    requires Persistent(w) && Allowed(p, w, s)
    ensures Filed(Moved(p, w, s))
  {
    hide Lagging, Moved, Crypto.KeyringOk, Allowed;
    if s.Restarts? {
      assert w.clock <= s.now by { AllowedTime(p, w, s); }
      RestartFinds(p, w, s.now, s.random);
      RestartMoves(p, w, s);
      FreshlySaved(Moved(p, w, s));
    } else {
      StepIsCalls(p, w, s);
      RunLags(StoreOf(w), CallsOf(p, w, s));
      LeavesFiled(Run(StoreOf(w), CallsOf(p, w, s)), Moved(p, w, s));
    }
  }

  lemma AllowedTime(p: Setup, w: World, s: Step)
    requires s.Restarts? && Allowed(p, w, s)
    ensures w.clock <= s.now
  {
  }

  lemma RestartMoves(p: Setup, w: World, s: Step)
    requires s.Restarts? && Booted(p, DiskOf(w), s.now, s.random).Some?
    ensures Moved(p, w, s) == Booted(p, DiskOf(w), s.now, s.random).value
  {
    hide Booted;
  }

  lemma FreshlySaved(w: World)
    requires w.file == Some(Save(w.tables)) && ScopesNamed(w.tables)
    ensures Filed(w)
  {
    hide Save, Read, ScopesNamed;
    ReadInvertsSave(w.tables, 0);
  }

  /** Only rotations and restarts touch the key directory, and both keep it loading to the keys in use. */
  lemma StepKeepsKeyring(p: Setup, w: World, s: Step)
    requires Persistent(w) && Allowed(p, w, s)
    ensures Crypto.KeyringOk(Crypto.Keyring(Moved(p, w, s).keys, Moved(p, w, s).keyDisk))
    ensures Moved(p, w, s).tables.activeKeyVersion == Moved(p, w, s).keys.active
    ensures Crypto.Extends(w.keys, Moved(p, w, s).keys)
  {
    hide Crypto.KeyringOk, Filed;
    match s
    case Submits(_, _, _, _) =>
      hide Submit, Plausible;
      SubmitKeys(p, w, s);
    case Leases(scope, client, version, now) => hide LastActive, FindLease, CountLeases, Capacity;
    case Creates(job, now) => hide JudgeJob, PreparedJob, Supersede;
    case RollsBack(request, target) => hide FindVersion, Deactivate, Crypto.DecryptBlob;
    case Rotates(newKey) => Crypto.RotateKeepsRing(Crypto.Keyring(w.keys, w.keyDisk), newKey);
    case Restarts(now, random) =>
      hide Booted;
      RestartFinds(p, w, now, random);
  }

  lemma SubmitKeys(p: Setup, w: World, s: Step)
    requires s.Submits?
    ensures var r := Moved(p, w, s);
      r.keys == w.keys && r.keyDisk == w.keyDisk && r.tables.activeKeyVersion == w.tables.activeKeyVersion
  {
    hide Screen, ScreenedTables, Submit, Add, FilesAfter, BlobOf, HasActiveJob, Required, Accept, NextVersion,
         Deactivate, LastActive;
    SubmitShape(p, w, s);
    ScreenedSame(w, s.req, s.env.now);
    if Screened(w, s) {
      AcceptShape(AttemptOf(p, w, s).world.tables, Incoming(s.req), s.env.now);
    }
  }

  /** Whatever step is taken, disk stays a faithful image of memory: a restart right after it would find everything. */
  lemma StepKeepsPersistent(p: Setup, w: World, s: Step)
    requires Persistent(w) && Allowed(p, w, s)
    ensures Persistent(Moved(p, w, s))
  {
    hide Filed, Crypto.KeyringOk, Moved, Allowed;
    StepKeepsFiled(p, w, s);
    StepKeepsKeyring(p, w, s);
  }
}
