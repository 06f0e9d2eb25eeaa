/** The steps of the counterexamples: what a lease, a submission that waits and a submission that closes leave. */
module Scenarios {
  import opened Basics
  import opened ByteStrings
  import opened Records
  import opened StateStore
  import opened Aggregation
  import opened WeightBuffer
  import opened RoundBuffer
  import opened FederatedService
  import opened Ledger
  import opened Steps
  import opened LoneClient
  import opened ControlPlane
  import opened Consistency
  import Crypto

  // ----- Submissions -----

  /** No lease is overdue. */
  predicate Current(s: seq<Assignment>, now: Time) {
    forall i :: 0 <= i < |s| ==> !IsOverdue(s[i], now)
  }

  lemma CurrentExpires(s: seq<Assignment>, now: Time)
    requires Current(s, now)
    ensures Expire(s, now) == s
  {
  }

  lemma ScreenedCurrent(w: World, s: Step)
    requires s.Submits? && Current(w.tables.assignments, s.env.now)
    ensures ScreenedTables(w, s.req, s.env.now).assignments == w.tables.assignments
  {
    hide ScreenedTables;
    ScreenedSame(w, s.req, s.env.now);
    CurrentExpires(w.tables.assignments, s.env.now);
  }

  /** The named assignment, now submitted. */
  function Handed(a: Assignment, now: Time): Assignment {
    a.(status := LeaseStatus.Submitted, updatedAt := now, detail := "Client submitted weights")
  }

  /** What a submission accepted under an active job makes of the round's maps and the assignments. */
  lemma AcceptedStep(p: Setup, w: World, s: Step, j: nat)
    requires Screened(w, s) && Plausible(p, w, s.req, s.env, s.raw, s.verdict)
    requires HasActiveJob(w.tables, KeyOf(s.req).scope) && Current(w.tables.assignments, s.env.now)
    requires j < |w.tables.assignments| && Find(w.tables.assignments, s.req.sub.assignmentId) == j
    requires !Fills(p, w, s) ==> !Reaches(w.buffer, AttemptOn(p, w, s))
    requires s.env.fault == NoFault
    ensures var r, at, key := Moved(p, w, s), AttemptOn(p, w, s), KeyOf(s.req);
      && r.buffer.weights == w.buffer.weights[key := RoundTensors(w.buffer, p.sqrt, at)]
      && r.buffer.sizes == w.buffer.sizes[key := RoundSizes(w.buffer, at)]
      && r.buffer.completed == (if Fills(p, w, s) then w.buffer.completed + {key} else w.buffer.completed)
      && (var k := LastActive(w.tables.jobs, key.scope);
          var az := w.tables.assignments[j := Handed(w.tables.assignments[j], s.env.now)];
          if Fills(p, w, s) then
            exists version ::
              r.tables.jobs == w.tables.jobs[k := AdvancedJob(w.tables.jobs[k], key.round, version, s.env.now)]
              && r.tables.assignments == CloseRound(az, w.tables.jobs[k].id, key.round, s.env.now)
          else
            r.tables.jobs == w.tables.jobs && r.tables.assignments == az)
  {
    hide Plausible, Fills, Submit, Screen, ScreenedTables, Advance, LastActive, AttemptOf, Tried, Reaches, Find, Accept,
         FilesAfter, TablesAfter, RoundTensors, RoundSizes;
    var a, x, sub := AttemptOf(p, w, s), AttemptOf(p, w, s).world.tables, Incoming(s.req);
    SubmitShape(p, w, s);
    StageKnown(p, w, s);
    AttemptIsTry(p, w, s);
    AttemptFields(p, w, s);
    AcceptedBuffer(p, w, s);
    ScreenedCurrent(w, s);
    ScreenedSame(w, s.req, s.env.now);
    CurrentExpires(w.tables.assignments, s.env.now);
    ScreenedIsAccepted(w, x, s.req, s.env.now);
    AcceptFlipsOne(x, sub, s.env.now);
    AcceptShape(x, sub, s.env.now);
    AdvanceIs(Accept(x, sub, s.env.now).tables, sub.scope, sub.round, a.outcome.modelVersion, s.env.now);
  }

  lemma AdvanceIs(t: Tables, scope: Scope, round: int, version: int, now: Time)
    requires HasActiveJob(t, scope)
    ensures var r, k := Advance(t, scope, round, version, now).tables, LastActive(t.jobs, scope);
      r.jobs == t.jobs[k := AdvancedJob(t.jobs[k], round, version, now)]
      && r.assignments == CloseRound(t.assignments, t.jobs[k].id, round, now)
  {
    hide LastActive, CloseRound, AdvancedJob;
  }

  lemma AcceptedBuffer(p: Setup, w: World, s: Step)
    requires Screened(w, s) && Plausible(p, w, s.req, s.env, s.raw, s.verdict) && s.env.fault == NoFault
    requires !Fills(p, w, s) ==> !Reaches(w.buffer, AttemptOn(p, w, s))
    ensures var e, at, key := Tried(w.buffer, p.sqrt, TryOf(p, w, s)), AttemptOn(p, w, s), KeyOf(s.req);
      && e.outcome.accepted && (e.outcome.aggregated <==> Fills(p, w, s))
      && e.buffer.weights == w.buffer.weights[key := RoundTensors(w.buffer, p.sqrt, at)]
      && e.buffer.sizes == w.buffer.sizes[key := RoundSizes(w.buffer, at)]
      && e.buffer.completed == (if Fills(p, w, s) then w.buffer.completed + {key} else w.buffer.completed)
  {
    hide Screen, WellFormed, IsAggregate, Clip, FinalWeights, WithMomentum, Without, Required;
    var at := AttemptOn(p, w, s);
    ScreenedIsNew(w, s);
    AttemptFields(p, w, s);
    BufferedRound(w.buffer, p.sqrt, at);
    hide RoundTensors, RoundSizes;
    AddEnds(w.buffer, p.sqrt, TryOf(p, w, s));
  }

  // ----- A lost submission -----

  /** a is submitted, b and d are live leases of two other clients, all for one round of the active job, which asks for
      two clients. */
  ghost predicate TwoLeft(t: Tables, a: Assignment, b: Assignment, d: Assignment, now: Time) {
    var k := LastActive(t.jobs, a.scope);
    && k >= 0 && t.jobs[k].minClients == 2 && t.jobs[k].id != "" && a.jobId == t.jobs[k].id
    && a.status == LeaseStatus.Submitted && a.round >= 1 && Normalized(a.scope) == a.scope
    && OpenFor(a, b, now) && OpenFor(a, d, now) && a.client != b.client && a.client != d.client && b.client != d.client
  }

  /** A live lease of the same round of the same job. */
  ghost predicate OpenFor(a: Assignment, b: Assignment, now: Time) {
    b.jobId == a.jobId && AssignedKey(b) == AssignedKey(a) && b.status == Leased && b.expiresAt > now && b.id != ""
  }

  function Submitting(b: Assignment): Submission {
    Submission(b.scope, b.client, b.jobId, b.id, b.round, 0)
  }

  /** A submission under its own lease, the same tensor as any before it. */
  lemma OwnLeasePasses(p: Setup, w: World, j: nat, cfg: Config, bytes: Bytes, iv: Bytes, now: Time)
    requires j < |w.tables.assignments| && Find(w.tables.assignments, w.tables.assignments[j].id) == j
    requires var b := w.tables.assignments[j];
      && b.status == Leased && b.expiresAt > now && b.id != "" && b.jobId != "" && b.round >= 1
      && Normalized(b.scope) == b.scope && HasActiveJob(w.tables, b.scope)
      && w.tables.jobs[LastActive(w.tables.jobs, b.scope)].id == b.jobId
      && AssignedKey(b) !in w.buffer.completed && EqualSoFar(w.buffer, AssignedKey(b), b.client, cfg.clipNorm)
    requires Sendable(p, cfg, bytes) && |iv| == Crypto.IV_SIZE && w.clock <= now
    ensures var b := w.tables.assignments[j];
      var s := LoneSubmission(Submitting(b), cfg, bytes, iv, NoFault, now);
      && KeyOf(s.req) == AssignedKey(b) && Screened(w, s) && Steps.Allowed(p, w, s) && OwnAssignment(w, s)
      && (Fills(p, w, s) <==> Required(p, w.tables, b.scope) <= |RoundOf(w.buffer.weights, AssignedKey(b))| + 1)
  {
    hide Validate, LastActive, Find, Required, Fills, Plausible;
    var b := w.tables.assignments[j];
    var s := LoneSubmission(Submitting(b), cfg, bytes, iv, NoFault, now);
    LiveLeaseValidates(w.tables, Incoming(s.req), j, now);
    OwnScreened(w, s);
    EqualFills(p, w, Submitting(b), cfg, bytes, iv, NoFault, now);
  }

  lemma OwnScreened(w: World, s: Step)
    requires s.Submits? && Preliminary(s.req).None? && s.req.sub.baseVersion <= 0
    requires HasActiveJob(w.tables, KeyOf(s.req).scope) ==>
      Validate(w.tables, Incoming(s.req), s.env.now).result == Accepted
    requires KeyOf(s.req) !in w.buffer.completed && s.req.sub.client !in RoundOf(w.buffer.weights, KeyOf(s.req))
    requires s.req.payload.Some? && |s.req.payload.value| % 4 == 0
    ensures Screened(w, s)
  {
    hide Validate, LastActive, ActiveVersion;
  }

  /** The first of two submissions to an empty round of a job that asks for two: it waits. */
  lemma FirstOfTwoWaits(p: Setup, w: World, j: nat, k: nat, cfg: Config, bytes: Bytes, iv: Bytes, now: Time)
    requires j < |w.tables.assignments| && Find(w.tables.assignments, w.tables.assignments[j].id) == j
    requires var b := w.tables.assignments[j];
      && b.status == Leased && b.expiresAt > now && b.id != "" && b.jobId != "" && b.round >= 1
      && Normalized(b.scope) == b.scope && k < |w.tables.jobs| && LastActive(w.tables.jobs, b.scope) == k
      && w.tables.jobs[k].id == b.jobId && w.tables.jobs[k].minClients == 2
      && AssignedKey(b) !in w.buffer.completed && AssignedKey(b) !in w.buffer.weights
      && AssignedKey(b) !in w.buffer.sizes
    requires Current(w.tables.assignments, now) && Sendable(p, cfg, bytes) && |iv| == Crypto.IV_SIZE && w.clock <= now
    ensures var b := w.tables.assignments[j];
      var s := LoneSubmission(Submitting(b), cfg, bytes, iv, NoFault, now);
      var r := Moved(p, w, s);
      && Steps.Allowed(p, w, s) && OwnAssignment(w, s) && !Fills(p, w, s) && r.clock == now
      && r.tables.jobs == w.tables.jobs && r.tables.assignments == w.tables.assignments[j := Handed(b, now)]
      && r.buffer.completed == w.buffer.completed
      && r.buffer.weights == w.buffer.weights[AssignedKey(b) := map[b.client := [cfg.clipNorm]]]
      && r.buffer.sizes == w.buffer.sizes[AssignedKey(b) := map[b.client := 1]]
  {
    hide LastActive, Find, Fills, Plausible, Sendable, Screened, Submit, Reaches;
    var b := w.tables.assignments[j];
    var s := LoneSubmission(Submitting(b), cfg, bytes, iv, NoFault, now);
    OwnLeasePasses(p, w, j, cfg, bytes, iv, now);
    NotReached(p, w, s, cfg, bytes, iv, now);
    AcceptedStep(p, w, s, j);
    OneTensor(p, w, s, cfg, bytes, iv, now);
    SubmitClock(p, w, s);
  }

  lemma SubmitClock(p: Setup, w: World, s: Step)
    requires s.Submits?
    ensures Moved(p, w, s).clock == s.env.now
  {
    hide Screen, ScreenedTables, Settle, Attempting;
  }

  lemma NotReached(p: Setup, w: World, s: Step, cfg: Config, bytes: Bytes, iv: Bytes, now: Time)
    requires s.Submits? && s == LoneSubmission(s.req.sub, cfg, bytes, iv, NoFault, now) && Sendable(p, cfg, bytes)
    requires EqualSoFar(w.buffer, KeyOf(s.req), s.req.sub.client, cfg.clipNorm)
    requires Required(p, w.tables, KeyOf(s.req).scope) == |RoundOf(w.buffer.weights, KeyOf(s.req))| + 2
    ensures !Reaches(w.buffer, AttemptOn(p, w, s)) && !Fills(p, w, s)
  {
    hide Required, AllEqual, Sendable, Screen, WellFormed, RoundTensors, RoundSizes;
    EqualJoins(p, w, s.req.sub, cfg, bytes, iv, NoFault, now);
  }

  lemma OneTensor(p: Setup, w: World, s: Step, cfg: Config, bytes: Bytes, iv: Bytes, now: Time)
    requires s.Submits? && s == LoneSubmission(s.req.sub, cfg, bytes, iv, NoFault, now) && Sendable(p, cfg, bytes)
    requires KeyOf(s.req) !in w.buffer.weights && KeyOf(s.req) !in w.buffer.sizes
    ensures RoundTensors(w.buffer, p.sqrt, AttemptOn(p, w, s)) == map[s.req.sub.client := [cfg.clipNorm]]
    ensures RoundSizes(w.buffer, AttemptOn(p, w, s)) == map[s.req.sub.client := 1]
  {
    hide Required, AllEqual, Sendable, Screen, WellFormed, Clip;
    EqualJoins(p, w, s.req.sub, cfg, bytes, iv, NoFault, now);
  }

  /** After a restart, when the submitted tensor is gone, two other clients fill the round, under every rule, and the
      first submission is marked aggregated with them, although it did not go in. */
  lemma RestartCanLoseSubmission(p: Setup, tr: Trace, i: nat, j: nat, h: nat, cfg: Config, bytes: Bytes, iv: Bytes,
                                 now: Time) returns (s1: Step, s2: Step)
    requires i < |tr.world.tables.assignments| && j < |tr.world.tables.assignments| && h < |tr.world.tables.assignments|
    requires var az := tr.world.tables.assignments;
      TwoLeft(tr.world.tables, az[i], az[j], az[h], now) && Find(az, az[j].id) == j && Find(az, az[h].id) == h
    requires var key := AssignedKey(tr.world.tables.assignments[i]);
      key !in tr.world.buffer.weights && key !in tr.world.buffer.sizes && key !in tr.world.buffer.completed
    requires Current(tr.world.tables.assignments, now) && tr.world.clock <= now
    requires Sendable(p, cfg, bytes) && |iv| == Crypto.IV_SIZE
    ensures var az := tr.world.tables.assignments;
      && s1 == LoneSubmission(Submitting(az[j]), cfg, bytes, iv, NoFault, now)
      && s2 == LoneSubmission(Submitting(az[h]), cfg, bytes, iv, NoFault, now)
    ensures Steps.Allowed(p, tr.world, s1) && OwnAssignment(tr.world, s1)
    ensures Steps.Allowed(p, Traced(p, tr, s1).world, s2) && OwnAssignment(Traced(p, tr, s1).world, s2)
    ensures Traced(p, tr, s1).produced == tr.produced && Traced(p, tr, s1).lineage == tr.lineage
    ensures var r := Traced(p, Traced(p, tr, s1), s2);
      && |r.world.tables.assignments| == |tr.world.tables.assignments|
      && SameLease(tr.world.tables.assignments[i], r.world.tables.assignments[i])
      && r.world.tables.assignments[i].status == Aggregated && !WentIn(r.produced, r.world.tables.assignments[i])
  {
    hide LastActive, Find, Fills, Plausible, Sendable, Screened, Moved, Current, Traced, WentIn, OwnAssignment,
         Steps.Allowed;
    var w, az := tr.world, tr.world.tables.assignments;
    var a, b, d := az[i], az[j], az[h];
    s1 := LoneSubmission(Submitting(b), cfg, bytes, iv, NoFault, now);
    s2 := LoneSubmission(Submitting(d), cfg, bytes, iv, NoFault, now);
    FirstOfTwoWaits(p, w, j, LastActive(w.tables.jobs, a.scope), cfg, bytes, iv, now);
    AllowedPlausible(p, w, s1);
    WaitingTraced(p, tr, s1);
    var tr1 := Traced(p, tr, s1);
    SameFind(az, tr1.world.tables.assignments, d.id);
    SecondOfTwoCloses(p, tr1, i, h, b.client, cfg, bytes, iv, now);
  }

  lemma AllowedPlausible(p: Setup, w: World, s: Step)
    requires s.Submits? && Steps.Allowed(p, w, s)
    ensures Plausible(p, w, s.req, s.env, s.raw, s.verdict)
  {
    hide Plausible;
  }

  /** The second closes the round with the first. */
  lemma SecondOfTwoCloses(p: Setup, tr: Trace, i: nat, h: nat, first: string, cfg: Config, bytes: Bytes, iv: Bytes,
                          now: Time)
    requires i < |tr.world.tables.assignments| && h < |tr.world.tables.assignments| && tr.world.clock <= now
    requires var t, a, d := tr.world.tables, tr.world.tables.assignments[i], tr.world.tables.assignments[h];
      var k := LastActive(t.jobs, a.scope);
      && k >= 0 && t.jobs[k].minClients == 2 && t.jobs[k].id != "" && a.jobId == t.jobs[k].id
      && a.status == LeaseStatus.Submitted && a.round >= 1 && Normalized(a.scope) == a.scope
      && OpenFor(a, d, now) && a.client != first && a.client != d.client && first != d.client
      && Find(t.assignments, d.id) == h
    requires var key := AssignedKey(tr.world.tables.assignments[i]);
      && key in tr.world.buffer.weights && tr.world.buffer.weights[key] == map[first := [cfg.clipNorm]]
      && key in tr.world.buffer.sizes && tr.world.buffer.sizes[key] == map[first := 1]
      && key !in tr.world.buffer.completed
    requires Sendable(p, cfg, bytes) && |iv| == Crypto.IV_SIZE
    ensures var s := LoneSubmission(Submitting(tr.world.tables.assignments[h]), cfg, bytes, iv, NoFault, now);
      var r := Traced(p, tr, s);
      && Steps.Allowed(p, tr.world, s) && OwnAssignment(tr.world, s)
      && |r.world.tables.assignments| == |tr.world.tables.assignments|
      && SameLease(tr.world.tables.assignments[i], r.world.tables.assignments[i])
      && r.world.tables.assignments[i].status == Aggregated && !WentIn(r.produced, r.world.tables.assignments[i])
  {
    hide LastActive, Find, Fills, Plausible, Sendable, Screened, Traced, Handled, OwnAssignment;
    var s := LoneSubmission(Submitting(tr.world.tables.assignments[h]), cfg, bytes, iv, NoFault, now);
    OwnLeasePasses(p, tr.world, h, cfg, bytes, iv, now);
    StageKnown(p, tr.world, s);
    ClosingMarks(p, tr, s, i);
  }

  lemma WaitingTraced(p: Setup, tr: Trace, s: Step)
    requires s.Submits? && Plausible(p, tr.world, s.req, s.env, s.raw, s.verdict) && !Fills(p, tr.world, s)
    ensures Traced(p, tr, s) == tr.(world := Moved(p, tr.world, s))
  {
    hide Plausible, Fills, Submit, RoundTensors, PublishedBy;
    StageKnown(p, tr.world, s);
  }
}
