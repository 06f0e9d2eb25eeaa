/** Over runs with restarts: which assignments are marked aggregated though no tensor of theirs ever went in. */
module Lineage {
  import opened Records
  import opened StateStore
  import opened Aggregation
  import opened WeightBuffer
  import opened FederatedService
  import opened Ledger
  import opened Steps
  import opened Persistence
  import opened ControlPlane
  import opened Consistency
  import Recovery

  /** Every assignment marked aggregated had a tensor of its client in a model of its round, whichever process made
      it. */
  ghost predicate AllWentIn(tr: Trace) {
    AggregatedWentIn(tr.world.tables.assignments, tr.lineage)
  }

  /** What the caller can tell beforehand: if the submission closes a round of a job, every assignment submitted to it
      is of the closing client, or its tensor is still in the buffer, or one of its client went into the round
      before. */
  ghost predicate Honest(p: Setup, tr: Trace, s: Step) {
    Closes(p, tr.world, s) && HasActiveJob(tr.world.tables, KeyOf(s.req).scope) ==>
      forall i :: 0 <= i < |tr.world.tables.assignments| ==> Accounted(tr, s.req, tr.world.tables.assignments[i])
  }

  ghost predicate Accounted(tr: Trace, req: Request, a: Assignment) {
    SubmittedToJob(tr.world.tables, a, KeyOf(req)) ==>
      a.client == req.sub.client || Held(tr.world.buffer.weights, a) || WentIn(tr.lineage, a)
  }

  // ----- Marks -----

  /** The same assignments are aggregated, and only so many more submitted. */
  ghost predicate SameAggregated(s: seq<Assignment>, s': seq<Assignment>) {
    |s| <= |s'|
    && (forall i :: 0 <= i < |s| ==>
        SameLease(s[i], s'[i]) && (s[i].status == Aggregated <==> s'[i].status == Aggregated))
    && (forall i :: |s| <= i < |s'| ==> s'[i].status != Aggregated)
  }

  lemma SameAggregatedKept(s: seq<Assignment>, s': seq<Assignment>, lineage: map<RoundKey, Tensors>)
    requires SameAggregated(s, s')
    ensures AggregatedWentIn(s, lineage) <==> AggregatedWentIn(s', lineage)
  {
    if AggregatedWentIn(s', lineage) {
      forall i | 0 <= i < |s| && s[i].status == Aggregated ensures WentIn(lineage, s[i]) {
        assert WentIn(lineage, s'[i]);
      }
    }
  }

  lemma NoNewSameAggregated(s: seq<Assignment>, s': seq<Assignment>)
    requires Follows(s, s') && NoNewMarks(s, s')
    ensures SameAggregated(s, s')
  {
  }

  lemma AcceptAggregates(t: Tables, sub: Submission, now: Time)
    ensures var s := Accept(t, sub, now).tables.assignments;
      && |s| == |t.assignments| && SameAggregated(t.assignments, s)
      && (forall i :: 0 <= i < |s| && s[i].status == LeaseStatus.Submitted ==>
          t.assignments[i].status == LeaseStatus.Submitted
          || (s[i].client == sub.client && AssignedKey(s[i]) == RoundKey(sub.scope, sub.round)))
      && (forall i :: 0 <= i < |s| && t.assignments[i].status == LeaseStatus.Submitted ==> s[i] == t.assignments[i])
  {
    hide Find, LastActive;
    var e := Expire(t.assignments, now);
    forall i | 0 <= i < |e| ensures e[i] == ExpireOne(t.assignments[i], now) {
    }
    hide Expire;
    OverdueAlreadyExpired(t, sub, now);
    if Accept(t, sub, now).result == Accepted && LastActive(t.jobs, sub.scope) >= 0 {
      AcceptFlipsOne(t, sub, now);
    }
  }

  /** Closing a round is honest exactly for the submitted assignments whose tensors went in. */
  lemma CloseAggregates(p: Setup, t: Tables, scope: Scope, round: int, version: int, now: Time,
                        lineage: map<RoundKey, Tensors>)
    requires Safe(p, t) && HasActiveJob(t, scope) && AggregatedWentIn(t.assignments, lineage)
    ensures AggregatedWentIn(Advance(t, scope, round, version, now).tables.assignments, lineage) <==>
      forall i :: 0 <= i < |t.assignments| && SubmittedToJob(t, t.assignments[i], RoundKey(scope, round)) ==>
        WentIn(lineage, t.assignments[i])
  {
    hide AdvancedJob, LastActive;
    var k := LastActive(t.jobs, scope);
    var s := CloseRound(t.assignments, t.jobs[k].id, round, now);
    forall i | 0 <= i < |s|
      ensures SameLease(t.assignments[i], s[i])
      ensures s[i].status == Aggregated <==>
        t.assignments[i].status == Aggregated || SubmittedToJob(t, t.assignments[i], RoundKey(scope, round))
    {
      var a := t.assignments[i];
      assert s[i] == CloseOne(a, t.jobs[k].id, round, now) && HasJob(t, a);
      if a.jobId == t.jobs[k].id {
        var j :| 0 <= j < |t.jobs| && t.jobs[j].id == a.jobId && t.jobs[j].scope == a.scope;
        assert j == k;
      }
    }
    forall i | 0 <= i < |s| ensures WentIn(lineage, s[i]) <==> WentIn(lineage, t.assignments[i]) {
    }
  }

  // ----- Steps -----

  lemma LineageGrows(lineage: map<RoundKey, Tensors>, key: RoundKey, used: Tensors, s: seq<Assignment>)
    requires AggregatedWentIn(s, lineage)
    ensures AggregatedWentIn(s, lineage[key := RoundOf(lineage, key) + used])
  {
  }

  /** A submission that closes a round of a job. */
  lemma ClosingKeepsLineage(p: Setup, tr: Trace, s: Step)
    requires s.Submits? && Safe(p, tr.world.tables) && Persistent(tr.world) && Steps.Allowed(p, tr.world, s)
    requires AllWentIn(tr) && Closes(p, tr.world, s) && HasActiveJob(tr.world.tables, KeyOf(s.req).scope)
    ensures AllWentIn(Traced(p, tr, s)) <==> Honest(p, tr, s)
  {
    hide Safe, Persistent, Plausible, Fills, Submit, Screen, ScreenedTables, Accept, Advance, LastActive, AttemptOf,
         AggregatedWentIn, SameAggregated, RoundTensors, PublishedBy, Follows;
    var w, t, key, sub := tr.world, tr.world.tables, KeyOf(s.req), Incoming(s.req);
    var a := AttemptOf(p, w, s);
    var x := a.world.tables;
    var acc, r := Accept(x, sub, s.env.now).tables, Traced(p, tr, s);
    FillsScreened(p, w, s);
    StageKnown(p, w, s);
    SubmitShape(p, w, s);
    AttemptOutcome(p, w, s);
    var used := RoundTensors(w.buffer, p.sqrt, AttemptOn(p, w, s));
    assert r.lineage == tr.lineage[key := RoundOf(tr.lineage, key) + used];
    ScreenAggregates(w, s);
    SameAggregatedKept(t.assignments, x.assignments, tr.lineage);
    AcceptAggregates(x, sub, s.env.now);
    SameAggregatedKept(x.assignments, acc.assignments, tr.lineage);
    LineageGrows(tr.lineage, key, used, acc.assignments);
    AttemptKeepsSafe(p, w, s);
    AcceptKeepsSafe(p, x, sub, s.env.now);
    AcceptShape(x, sub, s.env.now);
    CloseAggregates(p, acc, sub.scope, sub.round, a.outcome.modelVersion, s.env.now, r.lineage);
    UsedTensors(p, w, s);
    forall i | 0 <= i < |t.assignments|
      ensures (SubmittedToJob(acc, acc.assignments[i], key) ==> WentIn(r.lineage, acc.assignments[i])) <==>
        Accounted(tr, s.req, t.assignments[i])
    {
      ScreenedSubmitted(w, s, i);
      if t.assignments[i].status == LeaseStatus.Submitted { ScreenedLeavesMark(w, s, i); }
      OneAccounted(tr, s.req, acc, used, i);
    }
  }

  /** After the closing client's tensor went in with those the buffer held. */
  lemma OneAccounted(tr: Trace, req: Request, acc: Tables, used: Tensors, i: nat)
    requires i < |tr.world.tables.assignments| == |acc.assignments| && acc.jobs == tr.world.tables.jobs
    requires used.Keys == RoundOf(tr.world.buffer.weights, KeyOf(req)).Keys + {req.sub.client}
    requires var a, b := tr.world.tables.assignments[i], acc.assignments[i];
      && SameLease(a, b) && (a.status == LeaseStatus.Submitted ==> b == a)
      && (b.status == LeaseStatus.Submitted && a.status != LeaseStatus.Submitted ==>
          b.client == req.sub.client && AssignedKey(b) == KeyOf(req))
    ensures var key := KeyOf(req);
      var lineage := tr.lineage[key := RoundOf(tr.lineage, key) + used];
      (SubmittedToJob(acc, acc.assignments[i], key) ==> WentIn(lineage, acc.assignments[i])) <==>
        Accounted(tr, req, tr.world.tables.assignments[i])
  {
    hide LastActive;
  }

  lemma UsedTensors(p: Setup, w: World, s: Step)
    requires s.Submits?
    ensures RoundTensors(w.buffer, p.sqrt, AttemptOn(p, w, s)).Keys
      == RoundOf(w.buffer.weights, KeyOf(s.req)).Keys + {s.req.sub.client}
  {
    RoundKeys(w.buffer, p.sqrt, AttemptOn(p, w, s));
    AttemptFields(p, w, s);
    hide RoundTensors;
  }

  lemma ScreenAggregates(w: World, s: Step)
    requires s.Submits?
    ensures SameAggregated(w.tables.assignments, ScreenedTables(w, s.req, s.env.now).assignments)
    ensures |ScreenedTables(w, s.req, s.env.now).assignments| == |w.tables.assignments|
  {
    hide ScreenedTables;
    ScreenedSame(w, s.req, s.env.now);
    var e := Expire(w.tables.assignments, s.env.now);
    assert forall i :: 0 <= i < |e| ==> e[i] == ExpireOne(w.tables.assignments[i], s.env.now);
  }

  lemma ScreenedSubmitted(w: World, s: Step, i: nat)
    requires s.Submits? && i < |w.tables.assignments|
    ensures var x := ScreenedTables(w, s.req, s.env.now).assignments;
      |x| == |w.tables.assignments| && SameLease(w.tables.assignments[i], x[i])
      && (x[i].status == LeaseStatus.Submitted ==> w.tables.assignments[i].status == LeaseStatus.Submitted)
  {
    hide ScreenedTables;
    ScreenedSame(w, s.req, s.env.now);
    assert Expire(w.tables.assignments, s.env.now)[i] == ExpireOne(w.tables.assignments[i], s.env.now);
  }

  /** Any other submission that reached the buffer. */
  lemma OpenKeepsLineage(p: Setup, tr: Trace, s: Step)
    requires s.Submits? && Steps.Allowed(p, tr.world, s) && AllWentIn(tr) && Screened(tr.world, s)
    requires !Closes(p, tr.world, s) || !HasActiveJob(tr.world.tables, KeyOf(s.req).scope)
    ensures AllWentIn(Traced(p, tr, s))
  {
    hide Plausible, Fills, Submit, Screen, ScreenedTables, Accept, Advance, LastActive, AttemptOf, AggregatedWentIn,
         SameAggregated, RoundTensors, PublishedBy;
    var w, x, r := tr.world, AttemptOf(p, tr.world, s).world.tables, Traced(p, tr, s);
    StageKnown(p, w, s);
    SubmitShape(p, w, s);
    AttemptOutcome(p, w, s);
    ScreenAggregates(w, s);
    SameAggregatedKept(w.tables.assignments, x.assignments, tr.lineage);
    AcceptAggregates(x, Incoming(s.req), s.env.now);
    SameAggregatedKept(x.assignments, Accept(x, Incoming(s.req), s.env.now).tables.assignments, tr.lineage);
    LineageGrows(tr.lineage, KeyOf(s.req), RoundTensors(w.buffer, p.sqrt, AttemptOn(p, w, s)),
                 r.world.tables.assignments);
  }

  lemma RestartKeepsLineage(p: Setup, tr: Trace, s: Step)
    requires s.Restarts? && Persistent(tr.world) && Steps.Allowed(p, tr.world, s) && AllWentIn(tr)
    ensures AllWentIn(Traced(p, tr, s))
  {
    hide Persistent, Booted;
    var w, r := tr.world, Traced(p, tr, s);
    RestartFinds(p, w, s.now, s.random);
    var e := ExpireTables(w.tables, s.now);
    forall i | 0 <= i < |r.world.tables.assignments| && r.world.tables.assignments[i].status == Aggregated
      ensures WentIn(r.lineage, r.world.tables.assignments[i])
    {
      assert e.assignments[i] == ExpireOne(w.tables.assignments[i], s.now);
      assert Recovery.SameButStamp(e.assignments[i], r.world.tables.assignments[i]);
    }
  }

  /** A step keeps every aggregated assignment accounted for exactly if it is honest. */
  lemma StepKeepsLineage(p: Setup, tr: Trace, s: Step)
    requires Safe(p, tr.world.tables) && Persistent(tr.world) && Steps.Allowed(p, tr.world, s) && AllWentIn(tr)
    ensures AllWentIn(Traced(p, tr, s)) <==> Honest(p, tr, s)
  {
    hide Safe, Persistent, Steps.Allowed, AllWentIn, Fills, Traced, HasActiveJob;
    FillsScreened(p, tr.world, s);
    if Closes(p, tr.world, s) && HasActiveJob(tr.world.tables, KeyOf(s.req).scope) {
      ClosingKeepsLineage(p, tr, s);
    } else if s.Restarts? {
      RestartKeepsLineage(p, tr, s);
    } else if Screened(tr.world, s) {
      OpenKeepsLineage(p, tr, s);
    } else {
      QuietKeepsLineage(p, tr, s);
    }
  }

  lemma FillsScreened(p: Setup, w: World, s: Step)
    ensures Fills(p, w, s) ==> Screened(w, s)
  {
    hide Reaches, WellFormed, Screen;
  }

  lemma QuietKeepsLineage(p: Setup, tr: Trace, s: Step)
    requires Safe(p, tr.world.tables) && Persistent(tr.world) && Steps.Allowed(p, tr.world, s) && AllWentIn(tr)
    requires !Screened(tr.world, s) && !s.Restarts?
    ensures AllWentIn(Traced(p, tr, s))
  {
    hide Safe, Persistent, Steps.Allowed, Submit, Screen, Moved, NoNewMarks, Follows, AggregatedWentIn;
    if s.Submits? { SubmitShape(p, tr.world, s); }
    QuietStepMarks(p, tr.world, s);
    StepKeepsSafe(p, tr.world, s);
    NoNewSameAggregated(tr.world.tables.assignments, Moved(p, tr.world, s).tables.assignments);
    SameAggregatedKept(tr.world.tables.assignments, Moved(p, tr.world, s).tables.assignments, tr.lineage);
  }

  // ----- Runs -----

  ghost predicate AllHonest(p: Setup, start: Trace, steps: seq<Step>) {
    |steps| > 0 ==>
      var before := steps[..|steps| - 1];
      AllHonest(p, start, before) && Honest(p, ControlPlane.Run(p, start, before), steps[|steps| - 1])
  }

  ghost predicate AlwaysWentIn(p: Setup, start: Trace, steps: seq<Step>) {
    && AllWentIn(ControlPlane.Run(p, start, steps))
    && (|steps| > 0 ==> AlwaysWentIn(p, start, steps[..|steps| - 1]))
  }

  /** Over every run from a first start, restarts included, all along each aggregated assignment had a tensor of its
      client in a model of its round exactly if every closing submission of the run was honest. */
  lemma {:induction false} RunKeepsLineage(p: Setup, start: Trace, steps: seq<Step>)
    requires FirstProcess(p, start) && AllAllowed(p, start, steps)
    ensures AlwaysWentIn(p, start, steps) <==> AllHonest(p, start, steps)
  {
    hide FirstProcess;
    FirstStart(p, start);
    if |steps| > 0 {
      hide ControlPlane.Run, Traced, Moved, Steps.Allowed, Safe, Follows, Persistent, AllWentIn, Honest;
      var before := steps[..|steps| - 1];
      RunStep(p, start, steps);
      RunKeepsLineage(p, start, before);
      RunSafe(p, start, before);
      if AlwaysWentIn(p, start, before) {
        StepKeepsLineage(p, ControlPlane.Run(p, start, before), steps[|steps| - 1]);
      }
    }
  }
}
