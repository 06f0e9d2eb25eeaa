/** A crash in the middle of a submission: what the next start finds after any number of its store calls. */
module Crashes {
  import opened Basics
  import opened Records
  import opened StateFile
  import opened StateStore
  import opened FederatedService
  import opened Ledger
  import opened Registry
  import opened Recovery
  import opened Steps
  import opened Persistence
  import opened ControlPlane

  /** The calls a submission is made of. */
  predicate SubmissionPart(c: Call) {
    c.ValidateCall? || c.SubmissionCall? || c.RecordCall? || c.AcceptCall? || c.AdvanceCall?
  }

  lemma PartsOfSubmission(p: Setup, w: World, s: Step)
    requires s.Submits?
    ensures var calls := SubmitCalls(p, w, s);
      && (forall i :: 0 <= i < |calls| ==> SubmissionPart(calls[i].call))
      && (forall i :: 0 <= i < |calls| - 1 ==> !calls[i].call.AdvanceCall?)
  {
    hide AttemptOf, Validates, Screened, HasActiveJob;
  }

  lemma CallKeepsSafe(p: Setup, t: Tables, c: Call, now: Time)
    requires Safe(p, t) && SubmissionPart(c)
    ensures Safe(p, Perform(t, c, now).tables) && Follows(t.assignments, Perform(t, c, now).tables.assignments)
  {
    hide JobsOk, LeasesOk, RegistryOk, Validate, Accept, Advance, RecordModel, Evolved;
    var r := Perform(t, c, now).tables;
    match c
    case ValidateCall(sub) =>
      ValidateKeeps(t, sub, now, p.requiredClients);
      SameModels(t, r);
      EvolvedFollows(t.assignments, r.assignments);
    case SubmissionCall =>
      SameModels(t, r);
      SameParts(p, t, r);
    case RecordCall(scope, round, path, strategy, keyVersion, clients, dimension) =>
      RecordKeepsRegistry(t, scope, round, path, strategy, keyVersion, clients, dimension, now);
      RecordParts(t, scope, round, path, strategy, keyVersion, clients, dimension, now);
      SameParts(p, t, r);
    case AcceptCall(sub) =>
      AcceptKeeps(t, sub, now, p.requiredClients);
      AcceptShape(t, sub, now);
      SameModels(t, r);
      EvolvedFollows(t.assignments, r.assignments);
    case AdvanceCall(scope, round, version) =>
      AdvanceKeeps(t, scope, round, version, now, p.requiredClients);
      AdvanceModels(t, scope, round, version, now);
      SameModels(t, r);
      EvolvedFollows(t.assignments, r.assignments);
  }

  lemma RecordParts(t: Tables, scope: Scope, round: int, path: RoundKey, strategy: Strategy, keyVersion: int,
                    clients: int,
                    dimension: int, now: Time)
    ensures var r := RecordModel(t, scope, round, path, strategy, keyVersion, clients, dimension, now).tables;
      r.jobs == t.jobs && r.assignments == t.assignments && |r.models| == |t.models| + 1
  {
    hide NextVersion;
  }

  /** Only advancing moves a job. */
  lemma CallKeepsJobs(t: Tables, c: Call, now: Time)
    requires SubmissionPart(c) && !c.AdvanceCall?
    ensures Perform(t, c, now).tables.jobs == t.jobs
    ensures Lockstep(t) ==> Lockstep(Perform(t, c, now).tables)
  {
    hide Lockstep, Validate, Accept, RecordModel;
    var r := Perform(t, c, now).tables;
    match c
    case ValidateCall(sub) =>
      ValidateShape(t, sub, now);
      ExpireEvolves(t.assignments, now);
      if Lockstep(t) { EvolvedKeepsLockstep(t, Expire(t.assignments, now)); }
    case SubmissionCall => if Lockstep(t) { SameLockstep(t, r); }
    case RecordCall(scope, round, path, strategy, keyVersion, clients, dimension) =>
      RecordParts(t, scope, round, path, strategy, keyVersion, clients, dimension, now);
      if Lockstep(t) { SameLockstep(t, r); }
    case AcceptCall(sub) =>
      AcceptShape(t, sub, now);
      if Lockstep(t) { AcceptKeepsLockstep(t, sub, now); }
  }

  /** A run of such calls. */
  lemma {:induction false} CallsKeepSafe(p: Setup, start: Store, calls: seq<Timed>)
    requires Safe(p, start.memory) && forall i :: 0 <= i < |calls| ==> SubmissionPart(calls[i].call)
    ensures Safe(p, Recovery.Run(start, calls).memory)
    ensures Follows(start.memory.assignments, Recovery.Run(start, calls).memory.assignments)
    ensures (forall i :: 0 <= i < |calls| ==> !calls[i].call.AdvanceCall?) ==>
      Recovery.Run(start, calls).memory.jobs == start.memory.jobs
      && (Lockstep(start.memory) ==> Lockstep(Recovery.Run(start, calls).memory))
  {
    if |calls| > 0 {
      hide Safe, Follows, Perform, Lockstep, SubmissionPart;
      var before, c := calls[..|calls| - 1], calls[|calls| - 1];
      var t := Recovery.Run(start, before).memory;
      CallsKeepSafe(p, start, before);
      CallKeepsSafe(p, t, c.call, c.now);
      FollowsOn(start.memory.assignments, t.assignments, Perform(t, c.call, c.now).tables.assignments);
      if !c.call.AdvanceCall? { CallKeepsJobs(t, c.call, c.now); }
    }
  }

  lemma {:induction false} OrderlyPrefix(start: Store, calls: seq<Timed>, n: nat)
    requires Orderly(start, calls) && n <= |calls|
    ensures Orderly(start, calls[..n]) && Recovery.Run(start, calls[..n]).clock <= Recovery.Run(start, calls).clock
  {
    if n < |calls| {
      hide Perform, NamesScope;
      OrderlyPrefix(start, calls[..|calls| - 1], n);
      assert calls[..|calls| - 1][..n] == calls[..n];
    } else {
      assert calls[..n] == calls;
    }
  }

  /** What the next start loads after a crash behind the first n calls of a submission. */
  ghost function Found(p: Setup, w: World, s: Step, n: nat, now: Time): Tables
    requires s.Submits? && n <= |SubmitCalls(p, w, s)|
  {
    LoadedTables(EMPTY_TABLES, Some(Save(Recovery.Run(StoreOf(w), SubmitCalls(p, w, s)[..n]).file)), now)
  }

  /** Wherever in a submission the process stops, the next start finds jobs, leases and models safe and assignments on
      the path of their life. It finds jobs in lockstep exactly if the submission was on time or did not make its last
      call: a late submission costs lockstep only when it comes to its end. */
  lemma CrashedSubmission(p: Setup, w: World, s: Step, n: nat, now: Time)
    requires s.Submits? && Safe(p, w.tables) && Persistent(w) && Allowed(p, w, s)
    requires n <= |SubmitCalls(p, w, s)| && Moved(p, w, s).clock <= now
    ensures Safe(p, Found(p, w, s, n, now)) && Follows(w.tables.assignments, Found(p, w, s, n, now).assignments)
    ensures Lockstep(w.tables) ==>
      (Lockstep(Found(p, w, s, n, now)) <==> OnTime(p, w, s) || n < |SubmitCalls(p, w, s)|)
  {
    hide Safe, Follows, Lockstep, SubmitCalls, OnTime, Submit, Plausible, Orderly, Save, Read, LoadedTables, Lagging,
         Evolved, Recovered, ExpireTables;
    var start, calls := StoreOf(w), SubmitCalls(p, w, s);
    var st, r := Recovery.Run(start, calls[..n]), Found(p, w, s, n, now);
    PartsOfSubmission(p, w, s);
    SubmitIsCalls(p, w, s);
    OrderlyPrefix(start, calls, n);
    CallsKeepSafe(p, start, calls[..n]);
    CrashRecovery(start, calls[..n], EMPTY_TABLES, now);
    RecoveredFollows(p, st.memory, r, now);
    FollowsOn(w.tables.assignments, st.memory.assignments, r.assignments);
    if Lockstep(w.tables) {
      if n == |calls| {
        assert calls[..n] == calls;
        SafeParts(p, w.tables);
        SubmitKeepsLockstep(p, w, s);
        SameJobsInStep(r, st.memory);
      }
      if Lockstep(st.memory) {
        EvolvedKeepsLockstep(st.memory, r.assignments);
        SameLockstep(st.memory.(assignments := r.assignments), r);
      }
    }
  }

  lemma SameJobsInStep(t: Tables, t': Tables)
    requires t'.jobs == t.jobs
    ensures Lockstep(t) ==> JobsInStep(t')
  {
  }

  /** But a crash between recording the model and advancing the job leaves a recorded round that the job still waits
      for: exactly then, for a submission that closes a round of a job. */
  lemma RecordedNotAdvanced(p: Setup, w: World, s: Step, n: nat)
    requires s.Submits? && Safe(p, w.tables) && Persistent(w) && Allowed(p, w, s) && Closes(p, w, s)
    requires HasActiveJob(w.tables, KeyOf(s.req).scope) && n <= |SubmitCalls(p, w, s)|
    ensures |SubmitCalls(p, w, s)| == 5
    ensures var t := Recovery.Run(StoreOf(w), SubmitCalls(p, w, s)[..n]).memory;
      |t.models| == |w.tables.models| + 1 && t.jobs == w.tables.jobs <==> n == 3 || n == 4
  {
    hide Safe, Persistent, Plausible, Fills, Submit, Screen, AttemptOf, HasActiveJob, StoreOf, SubmitCalls, Perform;
    var start, calls := StoreOf(w), SubmitCalls(p, w, s);
    ClosingCalls(p, w, s);
    StartsAt(w);
    forall k | 1 <= k <= 5
      ensures Recovery.Run(start, calls[..k]).memory
        == Perform(Recovery.Run(start, calls[..k - 1]).memory, calls[k - 1].call, calls[k - 1].now).tables
    {
      assert calls[..k][..k - 1] == calls[..k - 1];
    }
    hide Recovery.Run;
    assert calls[..0] == [];
    var m := k requires 0 <= k <= 5 => Recovery.Run(start, calls[..k]).memory;
    CallCounts(m(0), calls[0]);
    CallCounts(m(1), calls[1]);
    CallCounts(m(2), calls[2]);
    CallCounts(m(3), calls[3]);
    AdvancedDiffers(m(4), calls[4], w.tables);
  }

  lemma StartsAt(w: World)
    ensures Recovery.Run(StoreOf(w), []).memory == w.tables
  {
  }

  /** Before the job advances only recording adds a model. */
  lemma CallCounts(t: Tables, c: Timed)
    requires SubmissionPart(c.call) && !c.call.AdvanceCall?
    ensures var r := Perform(t, c.call, c.now).tables;
      r.jobs == t.jobs && |r.models| == if c.call.RecordCall? then |t.models| + 1 else |t.models|
  {
    hide Validate, Accept, RecordModel;
    CallKeepsJobs(t, c.call, c.now);
    match c.call
    case ValidateCall(sub) => ValidateShape(t, sub, c.now);
    case SubmissionCall =>
    case RecordCall(scope, round, path, strategy, keyVersion, clients, dimension) =>
      RecordParts(t, scope, round, path, strategy, keyVersion, clients, dimension, c.now);
    case AcceptCall(sub) => AcceptShape(t, sub, c.now);
  }

  lemma AdvancedDiffers(t: Tables, c: Timed, before: Tables)
    requires c.call.AdvanceCall? && t.jobs == before.jobs && HasActiveJob(before, c.call.scope)
    ensures Perform(t, c.call, c.now).tables.jobs != before.jobs
  {
    hide CloseRound;
    var k := LastActive(t.jobs, c.call.scope);
    assert Perform(t, c.call, c.now).tables.jobs[k].completedRounds == before.jobs[k].completedRounds + 1;
  }

  lemma ClosingCalls(p: Setup, w: World, s: Step)
    requires s.Submits? && Allowed(p, w, s) && Closes(p, w, s) && HasActiveJob(w.tables, KeyOf(s.req).scope)
    ensures var calls := SubmitCalls(p, w, s);
      && |calls| == 5 && calls[0].call.ValidateCall? && calls[1].call.SubmissionCall? && calls[2].call.RecordCall?
      && calls[3].call.AcceptCall?
      && calls[4].call == AdvanceCall(KeyOf(s.req).scope, s.req.sub.round, calls[4].call.modelVersion)
  {
    hide Plausible, Fills, AttemptOf, HasActiveJob, Validate, Preliminary, IsStale, Submit;
    StageKnown(p, w, s);
    SubmitShape(p, w, s);
    AttemptOutcome(p, w, s);
  }
}
