/** The persisted ledger and the round buffer agree while one process runs, and what a restart loses. */
module Consistency {
  import opened Basics
  import opened ByteStrings
  import opened Records
  import opened StateStore
  import opened Aggregation
  import opened WeightBuffer
  import opened RoundBuffer
  import opened FederatedService
  import opened Ledger
  import opened Registry
  import opened Steps
  import opened Persistence
  import opened ControlPlane
  import Recovery
  import Crypto

  function AssignedKey(a: Assignment): RoundKey {
    RoundKey(a.scope, a.round)
  }

  predicate Marked(a: Assignment) {
    a.status == LeaseStatus.Submitted || a.status == Aggregated
  }

  /** The buffer holds a tensor of the client for the round it was assigned. */
  ghost predicate Held(weights: map<RoundKey, Tensors>, a: Assignment) {
    a.client in RoundOf(weights, AssignedKey(a))
  }

  /** The tensors that went into the round's model include one of this client. */
  ghost predicate WentIn(produced: map<RoundKey, Tensors>, a: Assignment) {
    AssignedKey(a) in produced && a.client in produced[AssignedKey(a)]
  }

  ghost predicate MarksHeld(s: seq<Assignment>, weights: map<RoundKey, Tensors>) {
    forall i :: 0 <= i < |s| && Marked(s[i]) ==> Held(weights, s[i])
  }

  ghost predicate AggregatedWentIn(s: seq<Assignment>, produced: map<RoundKey, Tensors>) {
    forall i :: 0 <= i < |s| && s[i].status == Aggregated ==> WentIn(produced, s[i])
  }

  /** Closed rounds are those that produced a model, and they still hold what it was made of. */
  ghost predicate ProducedKept(b: Buffer, produced: map<RoundKey, Tensors>) {
    b.completed == produced.Keys && forall key :: key in produced ==>
      key in b.weights && b.weights[key] == produced[key]
  }

  ghost predicate Agree(tr: Trace) {
    && MapsAgree(tr.world.buffer) && ProducedKept(tr.world.buffer, tr.produced)
    && MarksHeld(tr.world.tables.assignments, tr.world.buffer.weights)
    && AggregatedWentIn(tr.world.tables.assignments, tr.produced)
  }

  // ----- Marks on assignments -----

  /** Every mark of s' was already in s. */
  ghost predicate NoNewMarks(s: seq<Assignment>, s': seq<Assignment>) {
    forall i :: 0 <= i < |s'| && Marked(s'[i]) ==> i < |s| && SameLease(s[i], s'[i]) && s'[i].status == s[i].status
  }

  lemma NoNewMarksKept(s: seq<Assignment>, s': seq<Assignment>, weights: map<RoundKey, Tensors>,
                       produced: map<RoundKey, Tensors>)
    requires NoNewMarks(s, s') && MarksHeld(s, weights) && AggregatedWentIn(s, produced)
    ensures MarksHeld(s', weights) && AggregatedWentIn(s', produced)
  {
  }

  lemma ExpireMarks(s: seq<Assignment>, now: Time)
    ensures NoNewMarks(s, Expire(s, now))
  {
    assert forall i :: 0 <= i < |s| ==> Expire(s, now)[i] == ExpireOne(s[i], now);
  }

  /** A tensor once held stays held. */
  ghost predicate Grows(weights: map<RoundKey, Tensors>, weights': map<RoundKey, Tensors>) {
    forall key :: RoundOf(weights, key).Keys <= RoundOf(weights', key).Keys
  }

  lemma GrowsKept(s: seq<Assignment>, weights: map<RoundKey, Tensors>, weights': map<RoundKey, Tensors>)
    requires MarksHeld(s, weights) && Grows(weights, weights')
    ensures MarksHeld(s, weights')
  {
    forall i | 0 <= i < |s| && Marked(s[i]) ensures Held(weights', s[i]) {
      assert Held(weights, s[i]);
      assert RoundOf(weights, AssignedKey(s[i])).Keys <= RoundOf(weights', AssignedKey(s[i])).Keys;
    }
  }

  /** Accepting marks one assignment, of the submitting client and round. */
  lemma AcceptMarks(t: Tables, sub: Submission, now: Time, weights: map<RoundKey, Tensors>,
                    produced: map<RoundKey, Tensors>)
    requires MarksHeld(t.assignments, weights) && AggregatedWentIn(t.assignments, produced)
    requires sub.client in RoundOf(weights, RoundKey(sub.scope, sub.round))
    ensures var s := Accept(t, sub, now).tables.assignments; MarksHeld(s, weights) && AggregatedWentIn(s, produced)
  {
    hide Find, LastActive, MarksHeld, AggregatedWentIn, Expire;
    var e := Expire(t.assignments, now);
    ExpireMarks(t.assignments, now);
    NoNewMarksKept(t.assignments, e, weights, produced);
    if Accept(t, sub, now).result == Accepted && LastActive(t.jobs, sub.scope) >= 0 {
      AcceptFlipsOne(t, sub, now);
      var i := Find(e, sub.assignmentId);
      OneMark(e, i, e[i].(status := LeaseStatus.Submitted, updatedAt := now, detail := "Client submitted weights"),
              weights, produced);
    } else {
      OverdueAlreadyExpired(t, sub, now);
    }
  }

  lemma OneMark(s: seq<Assignment>, i: nat, a: Assignment, weights: map<RoundKey, Tensors>,
                produced: map<RoundKey, Tensors>)
    requires i < |s| && MarksHeld(s, weights) && AggregatedWentIn(s, produced)
    requires a.status == LeaseStatus.Submitted && Held(weights, a)
    ensures MarksHeld(s[i := a], weights) && AggregatedWentIn(s[i := a], produced)
  {
  }

  /** Closing a round marks as aggregated only what was submitted to that very round. */
  lemma CloseMarks(t: Tables, k: nat, round: int, now: Time, weights: map<RoundKey, Tensors>,
                   produced: map<RoundKey, Tensors>)
    requires k < |t.jobs| && JobsOk(t) && (forall i :: 0 <= i < |t.assignments| ==> HasJob(t, t.assignments[i]))
    requires MarksHeld(t.assignments, weights) && AggregatedWentIn(t.assignments, produced)
    requires var key := RoundKey(t.jobs[k].scope, round);
      key in weights && key in produced && produced[key] == weights[key]
    ensures var s := CloseRound(t.assignments, t.jobs[k].id, round, now);
      MarksHeld(s, weights) && AggregatedWentIn(s, produced)
  {
    var s := CloseRound(t.assignments, t.jobs[k].id, round, now);
    forall i | 0 <= i < |s| && Marked(s[i])
      ensures Held(weights, s[i]) && (s[i].status == Aggregated ==> WentIn(produced, s[i]))
    {
      var a := t.assignments[i];
      assert s[i] == CloseOne(a, t.jobs[k].id, round, now);
      assert Marked(a) && Held(weights, a) && HasJob(t, a);
      if a.jobId == t.jobs[k].id && a.round == round {
        var j :| 0 <= j < |t.jobs| && t.jobs[j].id == a.jobId && t.jobs[j].scope == a.scope;
        assert j == k;
      }
    }
  }

  lemma AdvanceMarks(p: Setup, t: Tables, scope: Scope, round: int, version: int, now: Time,
                     weights: map<RoundKey, Tensors>, produced: map<RoundKey, Tensors>)
    requires Safe(p, t) && MarksHeld(t.assignments, weights) && AggregatedWentIn(t.assignments, produced)
    requires var key := RoundKey(scope, round); key in weights && key in produced && produced[key] == weights[key]
    ensures var s := Advance(t, scope, round, version, now).tables.assignments;
      MarksHeld(s, weights) && AggregatedWentIn(s, produced)
  {
    hide JobsOk, MarksHeld, AggregatedWentIn, CloseRound, RegistryOk;
    var k := LastActive(t.jobs, scope);
    if k >= 0 { CloseMarks(t, k, round, now, weights, produced); }
  }

  // ----- One submission -----

  function TryOf(p: Setup, w: World, s: Step): Try
    requires s.Submits?
  {
    Try(AttemptFor(p, w.tables, s.req, s.env.cfg), s.raw, s.verdict, s.env.noise, s.env.fault,
        NextVersion(w.tables.models, KeyOf(s.req).scope))
  }

  /** The attempt a submission makes is one of the round buffer's. */
  lemma AttemptIsTry(p: Setup, w: World, s: Step)
    requires s.Submits?
    ensures var a, e := AttemptOf(p, w, s), Tried(w.buffer, p.sqrt, TryOf(p, w, s));
      a.world.buffer == e.buffer && a.stage == e.stage && a.outcome == e.outcome && a.world.keys == w.keys
      && a.world.tables.jobs == w.tables.jobs
      && a.world.tables.assignments == ScreenedTables(w, s.req, s.env.now).assignments
      && a.world.files == FilesAfter(w.files, KeyOf(s.req), e.stage, BlobOf(p, w.keys, s.env.iv, e.stage))
      && a.world.tables
        == TablesAfter(Counted(w, s.req, s.env.now), AttemptFor(p, w.tables, s.req, s.env.cfg), e.stage, w.keys.active,
                       s.env.now)
  {
    hide Add, Validate, ActiveVersion, LastActive, Deactivate, NextVersion, Preliminary;
    ScreenedSame(w, s.req, s.env.now);
    AttemptKeepsLedger(p, w.(tables := Counted(w, s.req, s.env.now)), AttemptFor(p, w.tables, s.req, s.env.cfg), s.env,
                       s.raw, s.verdict);
  }

  /** What the attempt leaves in the buffer: everything held stays, an accepted tensor is in, and a closed round is
      closed with exactly its tensors. */
  lemma AttemptBuffer(b: Buffer, sqrt: real -> real, y: Try)
    requires MapsAgree(b) && y.at.key !in b.completed && y.at.client !in RoundOf(b.weights, y.at.key)
    ensures var e := Tried(b, sqrt, y);
      && MapsAgree(e.buffer) && Grows(b.weights, e.buffer.weights)
      && (e.outcome.accepted ==> y.at.client in RoundOf(e.buffer.weights, y.at.key))
      && (e.outcome.aggregated ==> e.outcome.accepted) && (e.outcome.aggregated <==> e.stage.Published?)
      && e.buffer.completed == (if e.stage.Published? then b.completed + {y.at.key} else b.completed)
      && (e.stage.Published? ==>
          y.at.key in e.buffer.weights && e.buffer.weights[y.at.key] == RoundTensors(b, sqrt, y.at))
      && (forall key :: key != y.at.key && key in b.weights ==>
          key in e.buffer.weights && e.buffer.weights[key] == b.weights[key])
  {
    hide Tried, Received, RoundTensors, MapsAgree;
    AddKeepsMapsAgree(b, sqrt, y);
    AttemptWeights(b, sqrt, y);
    hide Ignored, Waits, TakenBack;
    assert y.at.client in RoundTensors(b, sqrt, y.at)
      && RoundOf(b.weights, y.at.key).Keys <= RoundTensors(b, sqrt, y.at).Keys by {
      TensorsInclude(b, sqrt, y.at);
    }
  }

  lemma TensorsInclude(b: Buffer, sqrt: real -> real, at: Attempt)
    ensures at.client in RoundTensors(b, sqrt, at) && RoundOf(b.weights, at.key).Keys <= RoundTensors(b, sqrt, at).Keys
  {
    hide Clip;
  }

  /** A first submission to an open round is either in the round's tensors, or it left them as they were. */
  lemma AttemptWeights(b: Buffer, sqrt: real -> real, y: Try)
    requires MapsAgree(b) && y.at.key !in b.completed && y.at.client !in RoundOf(b.weights, y.at.key)
    ensures var e := Tried(b, sqrt, y);
      && e.buffer.weights
        == (if e.outcome.accepted then b.weights[y.at.key := RoundTensors(b, sqrt, y.at)] else b.weights)
      && (e.outcome.aggregated ==> e.outcome.accepted) && (e.outcome.aggregated <==> e.stage.Published?)
      && e.buffer.completed == (if e.stage.Published? then b.completed + {y.at.key} else b.completed)
  {
    hide Tried, Clip, FinalWeights, WithMomentum, Without;
    AddEnds(b, sqrt, y);
    WithoutUndoes(b.weights, y.at.key, y.at.client, Clip(sqrt, y.at.weights, y.at.cfg.clipNorm));
  }

  lemma SubmitKeepsAgreement(p: Setup, tr: Trace, s: Step)
    requires s.Submits? && Screened(tr.world, s) && Safe(p, tr.world.tables) && Agree(tr)
    ensures Agree(Traced(p, tr, s))
  {
    hide Safe, Screen, ScreenedTables, Settled, Submit, AttemptFor, HasActiveJob, Tried, AttemptOf, MapsAgree,
         MarksHeld, AggregatedWentIn, Grows, RoundTensors, TablesAfter, FilesAfter, Traced;
    TracedProduced(p, tr, s);
    var w, a := tr.world, AttemptOf(p, tr.world, s);
    var y := TryOf(p, w, s);
    SubmitShape(p, w, s);
    AttemptIsTry(p, w, s);
    ScreenedIsNew(w, s);
    AttemptFields(p, w, s);
    AttemptBuffer(w.buffer, p.sqrt, y);
    var t, produced := a.world.tables, Traced(p, tr, s).produced;
    assert ProducedKept(a.world.buffer, produced);
    ScreenMarks(w, s, a.world.buffer.weights, tr.produced, produced);
    AttemptKeepsSafe(p, w, s);
    SettleMarks(p, HasActiveJob(w.tables, KeyOf(s.req).scope), a, Incoming(s.req), s.env.now, produced);
  }

  lemma TracedProduced(p: Setup, tr: Trace, s: Step)
    requires s.Submits?
    ensures var r, used := Traced(p, tr, s), RoundTensors(tr.world.buffer, p.sqrt, AttemptOn(p, tr.world, s));
      && r.world == Handled(p, tr.world, s).world
      && r.produced == if Handled(p, tr.world, s).stage.Published? then tr.produced[KeyOf(s.req) := used]
        else tr.produced
  {
    hide Handled, RoundTensors;
  }

  lemma AttemptFields(p: Setup, w: World, s: Step)
    requires s.Submits?
    ensures var at := AttemptFor(p, w.tables, s.req, s.env.cfg);
      at.key == KeyOf(s.req) && at.client == s.req.sub.client && at.cfg == s.env.cfg
  {
  }

  lemma AttemptKeepsSafe(p: Setup, w: World, s: Step)
    requires s.Submits? && Safe(p, w.tables)
    ensures Safe(p, AttemptOf(p, w, s).world.tables)
  {
    hide Safe, TablesAfter, ScreenedTables, AttemptFor, Add, FilesAfter, BlobOf, Follows;
    ScreenKeepsSafe(p, w, s.req, s.env.now);
    PublishKeepsSafe(p, Counted(w, s.req, s.env.now), AttemptFor(p, w.tables, s.req, s.env.cfg),
                     AttemptOf(p, w, s).stage, w.keys.active, s.env.now);
  }

  lemma ScreenMarks(w: World, s: Step, weights: map<RoundKey, Tensors>, produced: map<RoundKey, Tensors>,
                    produced': map<RoundKey, Tensors>)
    requires s.Submits? && MarksHeld(w.tables.assignments, w.buffer.weights) && Grows(w.buffer.weights, weights)
    requires AggregatedWentIn(w.tables.assignments, produced)
    requires forall key :: key in produced ==> key in produced' && produced'[key] == produced[key]
    ensures var x := ScreenedTables(w, s.req, s.env.now).assignments;
      MarksHeld(x, weights) && AggregatedWentIn(x, produced')
  {
    hide ScreenedTables;
    ScreenedSame(w, s.req, s.env.now);
    ExpireMarks(w.tables.assignments, s.env.now);
    GrowsKept(w.tables.assignments, w.buffer.weights, weights);
    NoNewMarksKept(w.tables.assignments, Expire(w.tables.assignments, s.env.now), weights, produced');
  }

  lemma SettleMarks(p: Setup, hasJob: bool, a: AttemptResult, sub: Submission, now: Time,
                    produced: map<RoundKey, Tensors>)
    requires Safe(p, a.world.tables)
    requires MarksHeld(a.world.tables.assignments, a.world.buffer.weights)
      && AggregatedWentIn(a.world.tables.assignments, produced)
    requires ProducedKept(a.world.buffer, produced)
    requires a.outcome.accepted ==> sub.client in RoundOf(a.world.buffer.weights, RoundKey(sub.scope, sub.round))
    requires a.outcome.aggregated ==> RoundKey(sub.scope, sub.round) in produced
    ensures var s := Settled(hasJob, a, sub, now).assignments;
      MarksHeld(s, a.world.buffer.weights) && AggregatedWentIn(s, produced)
  {
    hide Safe, Accept, Advance, MarksHeld, AggregatedWentIn, Follows;
    if hasJob && a.outcome.accepted {
      AcceptMarks(a.world.tables, sub, now, a.world.buffer.weights, produced);
      if a.outcome.aggregated {
        AcceptKeepsSafe(p, a.world.tables, sub, now);
        AdvanceMarks(p, Accept(a.world.tables, sub, now).tables, sub.scope, sub.round, a.outcome.modelVersion, now,
                     a.world.buffer.weights, produced);
      }
    }
  }

  lemma AcceptKeepsSafe(p: Setup, t: Tables, sub: Submission, now: Time)
    requires Safe(p, t)
    ensures Safe(p, Accept(t, sub, now).tables)
  {
    hide JobsOk, LeasesOk, RegistryOk, Accept;
    AcceptKeeps(t, sub, now, p.requiredClients);
    AcceptShape(t, sub, now);
    SameModels(t, Accept(t, sub, now).tables);
  }

  /** A submission the buffer took is never refused afterwards: the handler's answer is the buffer's. */
  lemma AnswerIsTheBuffers(p: Setup, w: World, s: Step)
    requires Screened(w, s)
    ensures var a, r := AttemptOf(p, w, s), Handled(p, w, s).response;
      r.accepted == a.outcome.accepted && r.aggregated == a.outcome.aggregated
        && r.modelVersion == a.outcome.modelVersion
      && r.note == Attempted(a.outcome.message)
      && r.received == |RoundOf(a.world.buffer.weights, KeyOf(s.req))| && r.keyVersion == w.keys.active
      && r.required == AttemptFor(p, w.tables, s.req, s.env.cfg).required
  {
    hide Screen, ScreenedTables, Attempting, AttemptFor, HasActiveJob, Settle, Settled, Tried, TablesAfter, FilesAfter;
    ScreenedSame(w, s.req, s.env.now);
    AttemptIsTry(p, w, s);
    ScreenedIsAccepted(w, AttemptOf(p, w, s).world.tables, s.req, s.env.now);
    TriedOutcome(w.buffer, p.sqrt, TryOf(p, w, s));
    AttemptFields(p, w, s);
    SettledAnswer(HasActiveJob(w.tables, KeyOf(s.req).scope), AttemptFor(p, w.tables, s.req, s.env.cfg),
                  Incoming(s.req), s.env.now, AttemptOf(p, w, s));
  }

  lemma SettledAnswer(hasJob: bool, at: Attempt, sub: Submission, now: Time, a: AttemptResult)
    requires hasJob ==> Accept(a.world.tables, sub, now).result == Accepted
    requires a.outcome.aggregated ==> a.outcome.accepted
    ensures var r := Settle(hasJob, at, sub, now, a).response;
      r.accepted == a.outcome.accepted && r.aggregated == a.outcome.aggregated
        && r.modelVersion == a.outcome.modelVersion
      && r.note == Attempted(a.outcome.message)
      && r.received == |RoundOf(a.world.buffer.weights, at.key)| && r.keyVersion == a.world.keys.active
      && r.required == at.required
  {
    hide Accept, Advance;
  }

  /** The model a round produced is what the configured rule makes of exactly the tensors noted for it, then smoothed
      and made private. */
  lemma ProducedIsAggregated(p: Setup, tr: Trace, s: Step)
    requires s.Submits? && Steps.Allowed(p, tr.world, s) && Handled(p, tr.world, s).stage.Published?
    ensures var at, r, key := AttemptFor(p, tr.world.tables, s.req, s.env.cfg), Traced(p, tr, s), KeyOf(s.req);
      && key in r.produced && |r.produced[key]| > 0 && |r.produced[key]| >= Max(1, at.required)
      && (var k, jobs := LastActive(tr.world.tables.jobs, key.scope), tr.world.tables.jobs;
          if k >= 0 && jobs[k].minClients > 0 then |r.produced[key]| >= jobs[k].minClients
          else |r.produced[key]| >= p.requiredClients)
      && IsAggregate(s.env.cfg, r.produced[key], RoundSizes(tr.world.buffer, at), s.raw)
      && r.published
        == tr.published + [FinalWeights(at, p.sqrt, Received(tr.world.buffer, p.sqrt, at), s.raw, s.env.noise)]
  {
    hide Screen, ScreenedTables, Submit, Tried, Settled, Clip, Without, FinalWeights, IsAggregate, WellFormed, Required,
         TablesAfter, FilesAfter;
    var w := tr.world;
    SubmitShape(p, w, s);
    AttemptIsTry(p, w, s);
    AddEnds(w.buffer, p.sqrt, TryOf(p, w, s));
    RoundKeys(w.buffer, p.sqrt, AttemptFor(p, w.tables, s.req, s.env.cfg));
    RequiredIs(p, w.tables, KeyOf(s.req).scope);
  }

  lemma RequiredIs(p: Setup, t: Tables, scope: Scope)
    ensures var k := LastActive(t.jobs, scope);
      Required(p, t, scope) == if k >= 0 && t.jobs[k].minClients > 0 then t.jobs[k].minClients else p.requiredClients
  {
  }

  lemma RoundKeys(b: Buffer, sqrt: real -> real, at: Attempt)
    ensures RoundTensors(b, sqrt, at).Keys == RoundOf(b.weights, at.key).Keys + {at.client}
    ensures |RoundTensors(b, sqrt, at)| == |RoundOf(b.weights, at.key).Keys + {at.client}| > 0
    ensures Received(b, sqrt, at).weights[at.key] == RoundTensors(b, sqrt, at)
  {
    hide Clip;
    KeysAfter(RoundOf(b.weights, at.key), at.client, Clip(sqrt, at.weights, at.cfg.clipNorm));
  }

  // ----- Every step of one process -----

  lemma QuietStepMarks(p: Setup, w: World, s: Step)
    requires (!s.Submits? || !Screened(w, s)) && !s.Restarts?
    ensures NoNewMarks(w.tables.assignments, Moved(p, w, s).tables.assignments)
    ensures Moved(p, w, s).buffer == w.buffer
      || (s.RollsBack? && Moved(p, w, s).buffer == w.buffer.(latest := Moved(p, w, s).buffer.latest))
  {
    match s
    case Submits(_, _, _, _) =>
      hide Submit, Screen, ScreenedTables, NoNewMarks;
      SubmitShape(p, w, s);
      ScreenedSame(w, s.req, s.env.now);
      ExpireMarks(w.tables.assignments, s.env.now);
      SameMarks(w.tables.assignments);
    case Leases(scope, client, version, now) =>
      hide Lease, NoNewMarks;
      LeaseMarks(w.tables, Normalized(scope), client, version, p.requiredClients, p.defaultTtl, now);
    case Creates(_, _) =>
      hide PreparedJob, Supersede, NoNewMarks;
      SameMarks(w.tables.assignments);
    case RollsBack(request, target) =>
      hide RollBack, NoNewMarks;
      RollbackShape(p, w, request, target);
      RollbackBuffer(p, w, request, target);
      SameMarks(w.tables.assignments);
    case Rotates(_) =>
  }

  lemma SameMarks(s: seq<Assignment>)
    ensures NoNewMarks(s, s)
  {
  }

  lemma LeaseMarks(t: Tables, scope: Scope, client: string, version: int, defaultMin: int, ttl: int, now: Time)
    ensures NoNewMarks(t.assignments, Lease(t, scope, client, version, defaultMin, ttl, now).tables.assignments)
  {
    hide LastActive, FindLease, CountLeases, Capacity, Expire, AssignmentIdText;
    ExpireMarks(t.assignments, now);
  }

  lemma RollbackBuffer(p: Setup, w: World, request: Scope, target: int)
    ensures var b := RollBack(p, w, request, target).world.buffer; b == w.buffer.(latest := b.latest)
    ensures RollBack(p, w, request, target).world.tables.assignments == w.tables.assignments
  {
    hide Crypto.DecryptBlob, FindVersion, Deactivate;
  }

  /** A restart finds no assignment marked as submitted or aggregated. */
  ghost predicate Spared(w: World, s: Step) {
    s.Restarts? ==> forall i :: 0 <= i < |w.tables.assignments| ==> !Marked(w.tables.assignments[i])
  }

  /** Every assignment marked submitted or aggregated has its client's tensor in the round buffer, and every aggregated
      one had its client among the tensors that produced the round's model: every step keeps that, but for a restart
      that finds a marked assignment, and such a restart never does. */
  lemma StepKeepsAgreement(p: Setup, tr: Trace, s: Step)
    requires Safe(p, tr.world.tables) && Persistent(tr.world) && Agree(tr) && Steps.Allowed(p, tr.world, s)
    ensures Agree(Traced(p, tr, s)) <==> Spared(tr.world, s)
  {
    hide Safe, Moved, Submit, Screen, Follows, MarksHeld, AggregatedWentIn, MapsAgree, NoNewMarks, Persistent,
         Steps.Allowed;
    if s.Restarts? {
      hide Agree, Traced, Spared;
      RestartAgrees(p, tr, s);
    } else if s.Submits? && Screened(tr.world, s) {
      SubmitKeepsAgreement(p, tr, s);
    } else {
      if s.Submits? { SubmitShape(p, tr.world, s); }
      QuietStepMarks(p, tr.world, s);
      NoNewMarksKept(tr.world.tables.assignments, Moved(p, tr.world, s).tables.assignments, tr.world.buffer.weights,
                     tr.produced);
      SameMaps(tr.world.buffer, Moved(p, tr.world, s).buffer);
    }
  }

  lemma SameMaps(b: Buffer, b': Buffer)
    requires MapsAgree(b) && b'.weights == b.weights && b'.sizes == b.sizes
    ensures MapsAgree(b')
  {
  }

  ghost predicate AllSpared(p: Setup, start: Trace, steps: seq<Step>) {
    |steps| > 0 ==>
      var before := steps[..|steps| - 1];
      AllSpared(p, start, before) && Spared(ControlPlane.Run(p, start, before).world, steps[|steps| - 1])
  }

  ghost predicate AlwaysAgrees(p: Setup, start: Trace, steps: seq<Step>) {
    && Agree(ControlPlane.Run(p, start, steps))
    && (|steps| > 0 ==> AlwaysAgrees(p, start, steps[..|steps| - 1]))
  }

  /** Ledger and buffer agree all along a run from a first start exactly if every restart in it finds nothing marked. */
  lemma {:induction false} RunAgrees(p: Setup, start: Trace, steps: seq<Step>)
    requires FirstProcess(p, start) && AllAllowed(p, start, steps)
    ensures AlwaysAgrees(p, start, steps) <==> AllSpared(p, start, steps)
  {
    hide FirstProcess;
    FirstStart(p, start);
    if |steps| > 0 {
      hide Moved, Steps.Allowed, Safe, Agree, Traced, Follows, Persistent, Spared;
      var before := steps[..|steps| - 1];
      RunAgrees(p, start, before);
      RunSafe(p, start, before);
      if AlwaysAgrees(p, start, before) {
        StepKeepsAgreement(p, ControlPlane.Run(p, start, before), steps[|steps| - 1]);
      }
    }
  }

  ghost predicate OneProcess(steps: seq<Step>) {
    forall i :: 0 <= i < |steps| ==> !steps[i].Restarts?
  }

  lemma {:induction false} OneProcessSpared(p: Setup, start: Trace, steps: seq<Step>)
    requires OneProcess(steps)
    ensures AllSpared(p, start, steps)
  {
    if |steps| > 0 {
      hide ControlPlane.Run;
      OneProcessSpared(p, start, steps[..|steps| - 1]);
    }
  }

  // ----- What a restart loses -----

  lemma {:induction false} RestoringOnlyLatest(p: Setup, w: World, models: seq<ModelRecord>)
    ensures RestoreModels(p, w, models) == w.buffer.(latest := RestoreModels(p, w, models).latest)
  {
    if |models| > 0 {
      hide ReadCheckpoint;
      RestoringOnlyLatest(p, w, models[..|models| - 1]);
    }
  }

  lemma RestartEmpties(p: Setup, w: World, now: Time, random: Bytes)
    requires Booted(p, DiskOf(w), now, random).Some?
    ensures var b := Booted(p, DiskOf(w), now, random).value.buffer;
      b.weights == map[] && b.sizes == map[] && b.completed == {} && b.velocity == map[]
  {
    var started := Booted(p, DiskOf(w), now, random).value.(buffer := EMPTY_BUFFER);
    RestoringOnlyLatest(p, started, started.tables.models);
    hide RestoreModels;
  }

  /** After a restart ledger and buffer agree exactly if nothing was marked before it. */
  lemma RestartAgrees(p: Setup, tr: Trace, s: Step)
    requires Persistent(tr.world) && s.Restarts? && Steps.Allowed(p, tr.world, s)
    ensures Agree(Traced(p, tr, s)) <==> Spared(tr.world, s)
  {
    hide Persistent, Booted;
    var w, r := tr.world, Traced(p, tr, s);
    RestartFinds(p, w, s.now, s.random);
    RestartEmpties(p, w, s.now, s.random);
    var e := ExpireTables(w.tables, s.now);
    forall i | 0 <= i < |e.assignments| ensures Marked(r.world.tables.assignments[i]) <==>
      Marked(w.tables.assignments[i]) {
      assert e.assignments[i] == ExpireOne(w.tables.assignments[i], s.now);
      assert Recovery.SameButStamp(e.assignments[i], r.world.tables.assignments[i]);
    }
    forall i | 0 <= i < |e.assignments| ensures !Held(r.world.buffer.weights, r.world.tables.assignments[i]) {
    }
  }

  /** When a round closes, exactly the assignments of the closing client, and those whose tensor the buffer still
      holds, are marked aggregated with right; the other submitted ones are marked all the same. */
  lemma ClosingMarks(p: Setup, tr: Trace, s: Step, i: nat)
    requires s.Submits? && Handled(p, tr.world, s).stage.Published? && i < |tr.world.tables.assignments|
    requires SubmittedToJob(tr.world.tables, tr.world.tables.assignments[i], KeyOf(s.req))
    ensures var r, a := Traced(p, tr, s), tr.world.tables.assignments[i];
      && |r.world.tables.assignments| == |tr.world.tables.assignments|
      && r.world.tables.assignments[i].status == Aggregated && SameLease(a, r.world.tables.assignments[i])
      && (WentIn(r.produced, r.world.tables.assignments[i]) <==>
          a.client == s.req.sub.client || Held(tr.world.buffer.weights, a))
  {
    hide Safe, Screen, ScreenedTables, Submit, AttemptFor, Tried, AttemptOf, TablesAfter, FilesAfter, Accept, Advance,
         Clip;
    var w, a := tr.world, AttemptOf(p, tr.world, s);
    SubmitShape(p, w, s);
    AttemptIsTry(p, w, s);
    AttemptFields(p, w, s);
    TriedOutcome(w.buffer, p.sqrt, TryOf(p, w, s));
    ScreenedLeavesMark(w, s, i);
    AcceptThenClose(a.world.tables, Incoming(s.req), s.env.now, a.outcome.modelVersion, i);
  }

  /** Submitted to this round of the scope's active job. */
  ghost predicate SubmittedToJob(t: Tables, a: Assignment, key: RoundKey) {
    var k := LastActive(t.jobs, key.scope);
    k >= 0 && a.jobId == t.jobs[k].id && AssignedKey(a) == key && a.status == LeaseStatus.Submitted
  }

  /** So a submission whose tensor a restart lost is marked aggregated although it did not go in. */
  lemma LostSubmissionIsAggregated(p: Setup, tr: Trace, s: Step, i: nat)
    requires s.Submits? && Handled(p, tr.world, s).stage.Published? && i < |tr.world.tables.assignments|
    requires var a := tr.world.tables.assignments[i];
      SubmittedToJob(tr.world.tables, a, KeyOf(s.req)) && a.client != s.req.sub.client
        && !Held(tr.world.buffer.weights, a)
    ensures var r := Traced(p, tr, s);
      |r.world.tables.assignments| == |tr.world.tables.assignments|
      && r.world.tables.assignments[i].status == Aggregated && !WentIn(r.produced, r.world.tables.assignments[i])
  {
    hide Handled, Traced, WentIn, Held;
    ClosingMarks(p, tr, s, i);
  }

  lemma TriedOutcome(b: Buffer, sqrt: real -> real, y: Try)
    ensures Tried(b, sqrt, y).outcome.aggregated <==> Tried(b, sqrt, y).stage.Published?
    ensures Tried(b, sqrt, y).outcome.aggregated ==> Tried(b, sqrt, y).outcome.accepted
  {
    hide Tried, Received, Without, FinalWeights, WithMomentum;
    AddEnds(b, sqrt, y);
  }

  lemma ScreenedLeavesMark(w: World, s: Step, i: nat)
    requires s.Submits? && i < |w.tables.assignments| && w.tables.assignments[i].status != Leased
    ensures var x := ScreenedTables(w, s.req, s.env.now).assignments;
      |x| == |w.tables.assignments| && x[i] == w.tables.assignments[i]
  {
    hide ScreenedTables;
    ScreenedSame(w, s.req, s.env.now);
    assert Expire(w.tables.assignments, s.env.now)[i] == ExpireOne(w.tables.assignments[i], s.env.now);
  }

  lemma AcceptThenClose(t: Tables, sub: Submission, now: Time, version: int, i: nat)
    requires i < |t.assignments| && LastActive(t.jobs, sub.scope) >= 0
    requires var a := t.assignments[i];
      a.jobId == t.jobs[LastActive(t.jobs, sub.scope)].id && a.round == sub.round && a.status == LeaseStatus.Submitted
    ensures var s := Advance(Accept(t, sub, now).tables, sub.scope, sub.round, version, now).tables.assignments;
      |s| == |t.assignments| && s[i].status == Aggregated && SameLease(t.assignments[i], s[i])
  {
    var acc := Accept(t, sub, now).tables;
    AcceptShape(t, sub, now);
    AcceptLeavesMark(t, sub, now, i);
    hide Accept, LastActive, AdvancedJob;
    var k := LastActive(t.jobs, sub.scope);
    assert CloseRound(acc.assignments, t.jobs[k].id, sub.round, now)[i]
      == CloseOne(acc.assignments[i], t.jobs[k].id, sub.round, now);
  }

  lemma AcceptLeavesMark(t: Tables, sub: Submission, now: Time, i: nat)
    requires i < |t.assignments| && t.assignments[i].status == LeaseStatus.Submitted
    ensures |Accept(t, sub, now).tables.assignments| == |t.assignments|
    ensures Accept(t, sub, now).tables.assignments[i] == t.assignments[i]
  {
    hide Find, LastActive;
    var e := Expire(t.assignments, now);
    assert e[i] == ExpireOne(t.assignments[i], now) == t.assignments[i];
    OverdueAlreadyExpired(t, sub, now);
    if Accept(t, sub, now).result == Accepted && LastActive(t.jobs, sub.scope) >= 0 {
      AcceptFlipsOne(t, sub, now);
    }
  }
}
