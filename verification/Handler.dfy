/** What the handlers decide, in the terms of their callers. */
module Handler {
  import opened Basics
  import opened ByteStrings
  import opened Vectors
  import opened Records
  import opened StateFile
  import opened StateStore
  import opened Aggregation
  import opened WeightBuffer
  import opened RoundBuffer
  import opened Attempts
  import opened FederatedService
  import opened Decisions
  import opened Ledger
  import opened Registry
  import opened Steps
  import opened Persistence
  import opened ControlPlane
  import opened Consistency
  import KrumRule = Krum
  import Crypto

  // ----- Screening -----

  /** m is the position of the first active model of the scope, or the length if there is none. */
  ghost predicate FirstActiveAt(models: seq<ModelRecord>, scope: Scope, m: nat) {
    && m <= |models| && (m < |models| ==> models[m].scope == scope && models[m].active)
    && forall j :: 0 <= j < m ==> !(models[j].scope == scope && models[j].active)
  }

  /** The scope with the defaults for what is left empty. */
  ghost predicate Defaulted(request: Scope, scope: Scope) {
    && scope.tenant == (if request.tenant == "" then "default-tenant" else request.tenant)
    && scope.model == (if request.model == "" then "default-model" else request.model)
  }

  /** What a submission's checks look at: its scope, the position of the scope's active job, that of its active model,
      and that of the assignment the submission names, with that assignment. */
  datatype Seen = Seen(scope: Scope, job: int, model: nat, named: nat, a: Assignment)

  ghost predicate IsSeen(w: World, req: Request, x: Seen) {
    && Defaulted(req.sub.scope, x.scope)
    && LastActiveAt(w.tables.jobs, x.scope, x.job)
    && FirstActiveAt(w.tables.models, x.scope, x.model)
    && FirstWithId(w.tables.assignments, req.sub.assignmentId, x.named)
    && (x.named < |w.tables.assignments| ==> x.a == w.tables.assignments[x.named])
  }

  /** What is asked of a submission, in order, besides its assignment. */
  ghost function RequestChecks(w: World, req: Request, current: int): (checks: seq<Check<Note>>)
    ensures |checks| == 5
  {
    [Check(req.named, BadIdentifiers),
     Check(req.sub.round > 0, BadRound),
     Check(req.size > 0, BadSize),
     Check(req.admitted, NotAdmitted),
     Check(req.sub.baseVersion <= 0 || current <= 0 || req.sub.baseVersion == current, StaleBase)]
  }

  ghost function RoundChecks(w: World, req: Request, key: RoundKey): (checks: seq<Check<Note>>)
    ensures |checks| == 4
  {
    [Check(key !in w.buffer.completed, RoundClosed),
     Check(key !in w.buffer.weights || req.sub.client !in w.buffer.weights[key], AlreadySubmitted),
     Check(req.payload.Some?, Undecryptable),
     Check(req.payload.Some? ==> |req.payload.value| % 4 == 0, BadDimensions)]
  }

  ghost predicate AllOk<R>(checks: seq<Check<R>>) {
    forall n :: 0 <= n < |checks| ==> checks[n].ok
  }

  /** The version the scope's active model has, or 0. */
  ghost function CurrentOf(w: World, x: Seen): int {
    if x.model < |w.tables.models| then w.tables.models[x.model].version else 0
  }

  /** What is asked of the assignment, if the scope has an active job. */
  ghost function NamedChecks(w: World, req: Request, now: Time, x: Seen): seq<Check<Verdict>> {
    if 0 <= x.job < |w.tables.jobs| then
      AssignmentChecks(req.sub.(scope := x.scope), now, w.tables.jobs[x.job].id, x.named < |w.tables.assignments|, x.a)
    else []
  }

  /** All checks on a submission, in order; v is the verdict on its assignment. */
  ghost function SubmissionChecks(w: World, req: Request, now: Time, x: Seen, v: Verdict): (checks: seq<Check<Note>>)
    ensures |checks| == 10
  {
    RequestChecks(w, req, CurrentOf(w, x)) + [Check(AllOk(NamedChecks(w, req, now, x)), BadAssignment(v))]
    + RoundChecks(w, req, RoundKey(x.scope, req.sub.round))
  }

  lemma SeenIs(w: World, req: Request, x: Seen)
    requires IsSeen(w, req, x)
    ensures x.scope == Normalized(req.sub.scope) && KeyOf(req) == RoundKey(x.scope, req.sub.round)
    ensures Incoming(req) == req.sub.(scope := x.scope)
    ensures LastActive(w.tables.jobs, x.scope) == x.job && (HasActiveJob(w.tables, x.scope) <==> x.job >= 0)
    ensures ActiveVersion(w.tables.models, x.scope) == CurrentOf(w, x)
  {
    LastActiveIs(w.tables.jobs, x.scope, x.job);
    ActiveVersionIs(w.tables.models, x.scope, x.model);
  }

  lemma UniqueRefusal<R>(checks: seq<Check<R>>, otherwise: R, a: R, b: R)
    requires FirstRefusal(checks, otherwise, a) && FirstRefusal(checks, otherwise, b)
    ensures a == b && (AllOk(checks) ==> a == otherwise)
    ensures (forall n :: 0 <= n < |checks| ==> checks[n].refusal != otherwise) ==> (a == otherwise <==> AllOk(checks))
  {
    if !AllOk(checks) {
      var n :| 0 <= n < |checks| && FailsAt(checks, n) && a == checks[n].refusal;
      var m :| 0 <= m < |checks| && FailsAt(checks, m) && b == checks[m].refusal;
      assert !(n < m) && !(m < n);
    }
  }

  /** The assignment of a submission under an active job is judged by its own checks. */
  lemma VerdictIs(w: World, req: Request, now: Time, x: Seen, v: Verdict)
    requires IsSeen(w, req, x) && x.job >= 0 && FirstRefusal(NamedChecks(w, req, now, x), Accepted, v)
    ensures v == Validate(w.tables, Incoming(req), now).result
    ensures v == Accepted <==> AllOk(NamedChecks(w, req, now, x))
  {
    hide Validate, FirstRefusal, AssignmentChecks;
    SeenIs(w, req, x);
    ValidateAnswers(w.tables, Incoming(req), now, x.job, x.named, x.a);
    NoneAccepts(req.sub.(scope := x.scope), now, w.tables.jobs[x.job].id, x.named < |w.tables.assignments|, x.a);
    UniqueRefusal(NamedChecks(w, req, now, x), Accepted, v, Validate(w.tables, Incoming(req), now).result);
  }

  lemma NoneAccepts(sub: Submission, now: Time, jobId: string, found: bool, a: Assignment)
    ensures var checks := AssignmentChecks(sub, now, jobId, found, a);
      forall n :: 0 <= n < |checks| ==> checks[n].refusal != Accepted
  {
  }

  /** Exactly which submissions reach the buffer, and why any other does not. */
  lemma ScreensExactly(w: World, req: Request, now: Time, x: Seen, v: Verdict)
    requires IsSeen(w, req, x) && FirstRefusal(NamedChecks(w, req, now, x), Accepted, v)
    ensures var checks := SubmissionChecks(w, req, now, x, v);
      && (Screen(w, req, now) == None <==> AllOk(checks))
      && (Screen(w, req, now) != None ==>
            exists n :: 0 <= n < |checks| && FailsAt(checks, n) && Screen(w, req, now) == Some(checks[n].refusal))
  {
    hide Validate, FirstRefusal, NamedChecks, LastActive, ActiveVersion, Normalized;
    var checks := SubmissionChecks(w, req, now, x, v);
    SeenIs(w, req, x);
    hide IsSeen;
    if x.job >= 0 {
      VerdictIs(w, req, now, x, v);
    } else {
      NoChecks(w, req, now, x);
    }
    var n := FirstFailure(checks);
    assert n < 10 ==> FailsAt(checks, n);
  }

  lemma NoChecks(w: World, req: Request, now: Time, x: Seen)
    requires x.job < 0
    ensures NamedChecks(w, req, now, x) == []
  {
  }

  ghost function FirstFailure<R>(checks: seq<Check<R>>): (n: nat)
    requires |checks| == 10
    ensures n <= 10 && (forall m :: 0 <= m < n ==> checks[m].ok) && (n < 10 ==> !checks[n].ok)
  {
    if !checks[0].ok then 0 else if !checks[1].ok then 1 else if !checks[2].ok then 2 else if !checks[3].ok then 3
    else if !checks[4].ok then 4 else if !checks[5].ok then 5 else if !checks[6].ok then 6 else if !checks[7].ok then 7
    else if !checks[8].ok then 8 else if !checks[9].ok then 9 else 10
  }

  /** Every submission is seen in some way. */
  lemma SeenExists(w: World, req: Request) returns (x: Seen)
    ensures IsSeen(w, req, x)
  {
    var scope := Normalized(req.sub.scope);
    var m := FirstActive(w.tables.models, scope);
    var i := Find(w.tables.assignments, req.sub.assignmentId);
    var a :| i < |w.tables.assignments| ==> a == w.tables.assignments[i];
    x := Seen(scope, LastActive(w.tables.jobs, scope), m, i, a);
  }

  lemma FirstActive(models: seq<ModelRecord>, scope: Scope) returns (m: nat)
    ensures FirstActiveAt(models, scope, m)
  {
    m := 0;
    while m < |models| && !(models[m].scope == scope && models[m].active)
      invariant m <= |models| && forall j :: 0 <= j < m ==> !(models[j].scope == scope && models[j].active)
    {
      m := m + 1;
    }
  }

  // ----- Answering a refused submission -----

  /** A refused submission changes nothing but the ledger, and says which model is current where that was the matter. */
  lemma RefusalAnswers(p: Setup, w: World, s: Step, x: Seen)
    requires s.Submits? && IsSeen(w, s.req, x) && Screen(w, s.req, s.env.now).Some?
    ensures var note := Screen(w, s.req, s.env.now).value;
      && Handled(p, w, s).response
        == Response(false, 0, 0, false,
                    if note == StaleBase || note.BadAssignment? || note == RoundClosed || note == AlreadySubmitted
                    then CurrentOf(w, x) else 0,
                    w.keys.active, note)
      && Handled(p, w, s).world == w.(tables := w.tables.(assignments := Handled(p, w, s).world.tables.assignments),
                                      clock := s.env.now)
  {
    hide Screen, ScreenedTables, IsSeen, ActiveVersion, Validate;
    SeenIs(w, s.req, x);
    SubmitShape(p, w, s);
    ScreenedSame(w, s.req, s.env.now);
    hide Settle, Attempting, AttemptFor;
  }

  // ----- The attempt -----

  /** How many clients the round waits for: as many as the active job needs, or the server by default. */
  ghost function NeedOf(p: Setup, w: World, x: Seen): int {
    if 0 <= x.job < |w.tables.jobs| && w.tables.jobs[x.job].minClients > 0 then w.tables.jobs[x.job].minClients
    else p.requiredClients
  }

  /** The attempt a submission makes: its own client, size and weights, for its own round. */
  ghost function AttemptSeen(p: Setup, w: World, req: Request, cfg: Config, x: Seen): Attempt
    requires req.payload.Some?
  {
    Attempt(RoundKey(x.scope, req.sub.round), req.sub.client, req.size, p.codec.fromBytes(req.payload.value),
            NeedOf(p, w, x), cfg)
  }

  lemma AttemptIsSeen(p: Setup, w: World, s: Step, x: Seen)
    requires Screened(w, s) && IsSeen(w, s.req, x)
    ensures s.req.payload.Some? && s.req.size > 0
    ensures AttemptFor(p, w.tables, s.req, s.env.cfg) == AttemptSeen(p, w, s.req, s.env.cfg, x)
  {
    hide Validate, IsSeen, LastActive, ActiveVersion, RoundOf;
    SeenIs(w, s.req, x);
  }

  /** How a submission that reached the buffer ends, and how it is answered: by the number of clients the round now has,
      the soundness of their tensors and the fault of the disk. */
  lemma SubmitEnds(p: Setup, w: World, s: Step, x: Seen, clipped: Vec, tensors: Tensors, sizes: map<string, int>)
    requires IsSqrt(p.sqrt) && Screened(w, s) && IsSeen(w, s.req, x) && s.req.payload.Some?
    requires Plausible(p, w, s.req, s.env, s.raw, s.verdict)
    requires JoinsRound(w.buffer, AttemptSeen(p, w, s.req, s.env.cfg, x), clipped, tensors, sizes)
    ensures var h, need, sound := Handled(p, w, s), NeedOf(p, w, x), Sound(tensors, p.finite);
      var key := RoundKey(x.scope, s.req.sub.round);
      && (h.stage.Published? <==> |tensors| >= need && sound && s.env.fault == NoFault)
      && (h.stage.Failed? <==> |tensors| >= need && sound && s.env.fault != NoFault)
      && (h.response.accepted <==> |tensors| < need || (sound && s.env.fault == NoFault))
      && (h.response.aggregated <==> h.stage.Published?)
      && h.response.required == need && h.response.keyVersion == w.keys.active
      && h.response.received == (if h.response.accepted then |tensors| else |tensors| - 1)
      && (h.stage.Published? ==> h.response.modelVersion == NextVersion(w.tables.models, x.scope))
      && (h.response.accepted ==>
            && h.world.buffer.weights == w.buffer.weights[key := tensors]
            && h.world.buffer.sizes == w.buffer.sizes[key := sizes])
  {
    hide Submit, Screen, ScreenedTables, Settled, Settle, AttemptOf, JoinsRound, IsSeen, Tried, TablesAfter, FilesAfter,
         Sound, AttemptFor, Validate, NextVersion, RoundBuffer.Allowed, Aggregates, Handled, Mean, IsTrimmedMean,
         IsAggregate;
    var y := TryOf(p, w, s);
    AttemptIsSeen(p, w, s, x);
    SeenIs(w, s.req, x);
    ScreenedIsNew(w, s);
    SubmitShape(p, w, s);
    AttemptIsTry(p, w, s);
    AnswerIsTheBuffers(p, w, s);
    PlausibleAllowed(p, w, s);
    AttemptEnds(w.buffer, p.sqrt, p.finite, y, clipped, tensors, sizes);
    AttemptHolds(w.buffer, p.sqrt, y, clipped, tensors, sizes);
    LeftAfter(w.buffer, y.at, clipped, tensors, sizes);
  }

  lemma LeftAfter(b: Buffer, at: Attempt, clipped: Vec, tensors: Tensors, sizes: map<string, int>)
    requires JoinsRound(b, at, clipped, tensors, sizes)
    ensures |tensors - {at.client}| == |tensors| - 1 && (tensors - {at.client} == map[] ==> |tensors| == 1)
  {
    var left := tensors - {at.client};
    assert left.Keys == tensors.Keys - {at.client} && |left| == |left.Keys| && |tensors| == |tensors.Keys|;
  }

  lemma PlausibleAllowed(p: Setup, w: World, s: Step)
    requires Screened(w, s) && Plausible(p, w, s.req, s.env, s.raw, s.verdict)
    ensures RoundBuffer.Allowed(w.buffer, p.sqrt, p.finite, TryOf(p, w, s))
  {
    hide Screen, AttemptFor, Aggregates;
  }

  /** No round is closed before it has as many clients as it waits for: those its scope's active job needs, if there is
      one that says, and otherwise those the server was configured with. */
  lemma PublishesWithEnough(p: Setup, tr: Trace, s: Step, x: Seen)
    requires s.Submits? && Steps.Allowed(p, tr.world, s) && Handled(p, tr.world, s).stage.Published?
    requires IsSeen(tr.world, s.req, x)
    ensures var key, produced, jobs := RoundKey(x.scope, s.req.sub.round), Traced(p, tr, s).produced,
        tr.world.tables.jobs;
      && key in produced && s.req.sub.client in produced[key]
      && (if x.job >= 0 && jobs[x.job].minClients > 0 then |produced[key]| >= jobs[x.job].minClients
          else |produced[key]| >= p.requiredClients)
  {
    hide Screen, ScreenedTables, Submit, Settled, Clip, Handled, IsAggregate, Mean, IsTrimmedMean, AttemptFor, IsSeen,
         Traced;
    ProducedIsAggregated(p, tr, s);
    SubmitShape(p, tr.world, s);
    AttemptIsSeen(p, tr.world, s, x);
    SeenIs(tr.world, s.req, x);
    TracedProduced(p, tr, s);
    RoundKeys(tr.world.buffer, p.sqrt, AttemptFor(p, tr.world.tables, s.req, s.env.cfg));
  }

  /** Whatever some of a round's clients sent, and whatever happened before: under Trimmed-Mean, with at most beta times
      as many of them arbitrary as went in, every coordinate of the round's aggregate lies between honest values. */
  lemma TrimmedRoundResilient(p: Setup, tr: Trace, s: Step, bad: set<string>, d: nat, lo: real, hi: real)
    requires s.Submits? && Steps.Allowed(p, tr.world, s) && Handled(p, tr.world, s).stage.Published?
    requires s.env.cfg.strategy == TrimmedMean && s.env.cfg.beta < 0.5 && d < |s.raw|
    requires var used := Traced(p, tr, s).produced;
      KeyOf(s.req) in used
      && |bad| as real <= (if s.env.cfg.beta < 0.0 then 0.0 else s.env.cfg.beta) * |used[KeyOf(s.req)]| as real
      && forall h :: h in used[KeyOf(s.req)] && h !in bad ==>
           d < |used[KeyOf(s.req)][h]| && lo <= used[KeyOf(s.req)][h][d] <= hi
    ensures lo <= s.raw[d] <= hi
  {
    hide Steps.Allowed, Handled, Traced, IsTrimmedMean, AttemptFor, RoundSizes, FinalWeights;
    ProducedIsAggregated(p, tr, s);
    TrimmedMeanResilient(Traced(p, tr, s).produced[KeyOf(s.req)], s.env.cfg.beta, |s.raw|, s.raw, bad, d, lo, hi);
  }

  /** Likewise under Krum, with at least three clients of which at most (n - 3) / 2 are arbitrary: the round's aggregate
      is near an honest tensor, as far as honest tensors are near each other. */
  lemma KrumRoundResilient(p: Setup, tr: Trace, s: Step, bad: set<string>, d: real)
    requires s.Submits? && Steps.Allowed(p, tr.world, s) && Handled(p, tr.world, s).stage.Published?
    requires s.env.cfg.strategy == Krum && KeyOf(s.req) in Traced(p, tr, s).produced && d >= 0.0
    requires var used := Traced(p, tr, s).produced[KeyOf(s.req)];
      && 2 * |bad| + 3 <= |used|
      && (forall g, h :: g in used && h in used && g !in bad && h !in bad ==>
            |used[g]| == |used[h]| && KrumRule.SqDist(used[g], used[h]) <= d)
    ensures var used := Traced(p, tr, s).produced[KeyOf(s.req)];
      exists h :: h in used && h !in bad && |used[h]| == |s.raw|
        && KrumRule.SqDist(s.raw, used[h]) <= (|used| - (|used| - 3) / 2 - 2) as real * d
  {
    hide Steps.Allowed, Handled, Traced, AttemptFor, RoundSizes, FinalWeights, KrumRule.SqDist, KrumRule.IsKrum;
    ProducedIsAggregated(p, tr, s);
    KrumRule.KrumResultResilient(Traced(p, tr, s).produced[KeyOf(s.req)], |s.raw|, s.raw, bad, d);
  }

  /** The record of a published model: the round and its checkpoint, the rule, the key version in use, how many clients
      went in, and the length of the vector. The other models of the scope are no longer active. */
  lemma PublishingRecords(p: Setup, w: World, s: Step, x: Seen)
    requires s.Submits? && IsSeen(w, s.req, x) && Handled(p, w, s).stage.Published?
    ensures var h, n, key := Handled(p, w, s), |w.tables.models|, RoundKey(x.scope, s.req.sub.round);
      && |h.world.tables.models| == n + 1
      && h.world.tables.models[n]
        == ModelRecord(x.scope, NextVersion(w.tables.models, x.scope), s.req.sub.round, key, s.env.cfg.strategy,
                       w.keys.active, h.stage.clients, |h.stage.weights|, true, s.env.now)
      && (forall k :: 0 <= k < n ==>
            h.world.tables.models[k] == if w.tables.models[k].scope == x.scope then w.tables.models[k].(active := false)
                                        else w.tables.models[k])
  {
    hide Submit, Screen, ScreenedTables, Settle, IsSeen, AttemptOf, Tried, AttemptFor, Handled, NextVersion, Accept,
         Advance;
    SeenIs(w, s.req, x);
    SubmitShape(p, w, s);
    AttemptIsTry(p, w, s);
    AttemptFields(p, w, s);
    ScreenedSame(w, s.req, s.env.now);
    var a := AttemptOf(p, w, s);
    AcceptShape(a.world.tables, Incoming(s.req), s.env.now);
    AdvanceModels(Accept(a.world.tables, Incoming(s.req), s.env.now).tables, x.scope, s.req.sub.round,
                  a.outcome.modelVersion, s.env.now);
  }

  /** What is left in the tables: the submission is counted; under an active job its assignment is marked submitted once
      the buffer took it, and when it closes the round the job moves on with the new version. */
  lemma SubmitSettles(p: Setup, w: World, s: Step, x: Seen)
    requires Screened(w, s) && IsSeen(w, s.req, x)
    ensures var h, t := Handled(p, w, s), w.tables;
      && h.world.file == Some(Save(h.world.tables)) && h.world.clock == s.env.now
      && h.world.tables.totalSubmissions == t.totalSubmissions + 1
      && h.world.tables.activeKeyVersion == t.activeKeyVersion && h.world.keys == w.keys && h.world.keyDisk == w.keyDisk
      && (!h.response.aggregated || x.job < 0 ==> h.world.tables.jobs == t.jobs)
      && (x.job < 0 ==> h.world.tables.assignments == t.assignments)
      && (x.job >= 0 && !h.response.accepted ==> h.world.tables.assignments == Expire(t.assignments, s.env.now))
    ensures var h, t := Handled(p, w, s), w.tables;
      x.job >= 0 && h.response.accepted ==>
        && x.named < |t.assignments| && t.assignments[x.named] == x.a
        && var taken := Expire(t.assignments, s.env.now)[x.named := x.a.(status := Submitted,
                               updatedAt := s.env.now, detail := "Client submitted weights")];
        if h.response.aggregated then
          && |h.world.tables.jobs| == |t.jobs| && |h.world.tables.assignments| == |t.assignments|
          && h.world.tables.jobs == t.jobs[x.job := h.world.tables.jobs[x.job]]
          && MovedOn(t.jobs[x.job], s.req.sub.round, h.response.modelVersion, s.env.now, h.world.tables.jobs[x.job])
          && (forall i :: 0 <= i < |taken| ==>
                ClosedAs(taken[i], t.jobs[x.job].id, s.req.sub.round, s.env.now, h.world.tables.assignments[i]))
        else h.world.tables.assignments == taken
  {
    hide Submit, Screen, ScreenedTables, IsSeen, Attempting, Tried, AttemptFor, Handled, NextVersion, Accept, Advance,
         Expire, LastActiveAt, FirstWithId, AttemptOf, FilesAfter, Deactivate, ClosedAs, MovedOn;
    var a, sub, now := AttemptOf(p, w, s), Incoming(s.req), s.env.now;
    SeenIs(w, s.req, x);
    SubmitShape(p, w, s);
    AttemptIsTry(p, w, s);
    AnswerIsTheBuffers(p, w, s);
    ScreenedWith(w, s.req, now);
    SubmitKeys(p, w, s);
    if x.job >= 0 && a.outcome.accepted {
      ScreenedIsAccepted(w, a.world.tables, s.req, now);
      SeenParts(w, s.req, x);
      AcceptAfterExpiry(a.world.tables, w.tables.assignments, sub, now, x.job, x.named);
      AdvanceMoves(Accept(a.world.tables, sub, now).tables, sub.scope, sub.round, a.outcome.modelVersion, now, x.job);
    }
  }

  lemma SeenParts(w: World, req: Request, x: Seen)
    requires IsSeen(w, req, x)
    ensures LastActiveAt(w.tables.jobs, x.scope, x.job)
    ensures FirstWithId(w.tables.assignments, req.sub.assignmentId, x.named)
    ensures x.named < |w.tables.assignments| ==> x.a == w.tables.assignments[x.named]
  {
  }

  lemma ScreenedWith(w: World, req: Request, now: Time)
    requires Screen(w, req, now).None?
    ensures ScreenedTables(w, req, now)
      == if HasActiveJob(w.tables, Normalized(req.sub.scope)) then ExpireTables(w.tables, now) else w.tables
  {
    hide Validate, IsStale, Preliminary, HasActiveJob;
    ValidateShape(w.tables, Incoming(req), now);
  }

  // ----- Creating jobs -----

  /** What is asked of a request for a job, in order. */
  ghost function JobChecks(r: JobRequest): (checks: seq<Check<JobReply>>)
    ensures |checks| == 6
  {
    [Check(r.named, BadJobIdentifiers),
     Check(r.targetRounds > 0, BadTarget),
     Check(r.plannedClients > 0 && r.minClients > 0, BadClients),
     Check(r.plannedClients >= r.minClients, TooFewPlanned),
     Check(r.ttl >= 30, BadTtl),
     Check(r.datasetKnown, UnknownDataset)]
  }

  /** A request is refused for the first thing wrong with it; one with nothing wrong makes a planned job of round 1, as
      asked for, that supersedes the scope's active ones. */
  lemma JobAnswers(w: World, r: JobRequest, now: Time)
    ensures JudgeJob(r) == None <==> AllOk(JobChecks(r))
    ensures JudgeJob(r) != None ==> JobCreated(w, r, now) == w && exists n ::
      0 <= n < 6 && FailsAt(JobChecks(r), n) && JudgeJob(r) == Some(JobChecks(r)[n].refusal)
    ensures JudgeJob(r) == None ==>
      var w', n := JobCreated(w, r, now), |w.tables.jobs|;
      var scope := Scope(if r.scope.tenant == "" then "default-tenant" else r.scope.tenant,
                         if r.scope.model == "" then "default-model" else r.scope.model);
      && |w'.tables.jobs| == n + 1 && w'.file == Some(Save(w'.tables))
      && w' == w.(tables := w.tables.(jobs := w'.tables.jobs), file := w'.file, clock := now)
      && (forall k :: 0 <= k < n ==> SupersededIn(w.tables.jobs[k], scope, w'.tables.jobs[k]))
      && w'.tables.jobs[n]
        == Job(w'.tables.jobs[n].id, scope, r.dataset, r.targetRounds, r.plannedClients, r.minClients,
                                  r.ttl, Planned, 1, 0, ActiveVersion(w.tables.models, scope), now, 0, r.notes)
  {
    hide ActiveVersion, PreparedJob, CreateJob, Save;
    var checks := JobChecks(r);
    var n := if !checks[0].ok then 0 else if !checks[1].ok then 1 else if !checks[2].ok then 2
      else if !checks[3].ok then 3 else if !checks[4].ok then 4 else 5;
    assert checks[n].ok || FailsAt(checks, n);
    CreateAdds(w.tables, JobRecord(r), now);
  }

  // ----- Rolling back -----

  /** A rollback to a version on record makes it the active one of its scope, whatever becomes of its checkpoint; the
      checkpoint is in force if it can be opened and has whole floats. */
  lemma RollbackAnswers(p: Setup, w: World, request: Scope, target: int, scope: Scope, i: nat)
    requires Defaulted(request, scope) && i <= |w.tables.models|
    requires forall k :: 0 <= k < i ==> !(w.tables.models[k].scope == scope && w.tables.models[k].version == target)
    requires i < |w.tables.models| ==> w.tables.models[i].scope == scope && w.tables.models[i].version == target
    ensures var e := RollBack(p, w, request, target);
      if target <= 0 then e.world == w && e.reply == InvalidTarget
      else if i == |w.tables.models| then e.world == w && e.reply == VersionNotFound
      else
        var m := w.tables.models[i].(active := true);
        var plain := if m.path in w.files then Crypto.DecryptBlob(p.aead, w.keys, w.files[m.path]) else Fail;
        && (e.reply == CheckpointMissing <==> m.path !in w.files)
        && (e.reply == CheckpointUnreadable <==> m.path in w.files && plain == Fail)
        && (e.reply == BadTensor <==> plain.Ok? && |plain.value| % 4 != 0)
        && (e.reply == RolledBackTo(m) <==> plain.Ok? && |plain.value| % 4 == 0)
        && e.world.file == Some(Save(e.world.tables))
        && |e.world.tables.models| == |w.tables.models|
        && e.world
          == w.(tables := w.tables.(models := e.world.tables.models), file := e.world.file, buffer := e.world.buffer)
        && e.world.buffer == w.buffer.(latest := e.world.buffer.latest)
        && e.world.buffer.latest
          == (if e.reply == RolledBackTo(m)
              then w.buffer.latest[scope := Snapshot(m.round, m.version, p.codec.fromBytes(plain.value))]
              else w.buffer.latest)
    ensures target > 0 && i < |w.tables.models| ==>
      forall k :: 0 <= k < |w.tables.models| && k < |RollBack(p, w, request, target).world.tables.models| ==>
        RollBack(p, w, request, target).world.tables.models[k]
          == if w.tables.models[k].scope == scope then w.tables.models[k].(active := k == i) else w.tables.models[k]
  {
    hide Crypto.DecryptBlob, Save;
    assert FindVersion(w.tables.models, scope, target) == i;
    hide FindVersion;
  }

  // ----- Rotating keys -----

  /** After a rotation blobs are sealed under the new key; it is kept, in memory and on disk, as the next version, every
      earlier key as it was, and the store knows the version. */
  lemma RotationAnswers(p: Setup, w: World, newKey: Bytes)
    requires Crypto.KeyringOk(Crypto.Keyring(w.keys, w.keyDisk))
    ensures var r, v := Moved(p, w, Rotates(newKey)), w.keys.active + 1;
      && r.keys.key == newKey && r.keys.active == v && r.keys.versions == w.keys.versions[v := newKey]
      && r.keyDisk.files == w.keyDisk.files[Crypto.Versioned(v) := newKey]
      && r.keyDisk.registry.Some? && r.keyDisk.registry.value.active == v
      && (forall i :: i in r.keyDisk.registry.value.paths <==> 1 <= i <= v)
      && (forall i :: i in r.keyDisk.registry.value.paths ==>
            r.keyDisk.registry.value.paths[i] == Crypto.Versioned(i))
      && r.tables == w.tables.(activeKeyVersion := v)
      && r == w.(keys := r.keys, keyDisk := r.keyDisk, tables := r.tables, file := r.file)
  {
    hide Save;
  }

  // ----- Starting -----

  /** What every start begins with: the keys the directory loads to, whatever version the state file names; the tables
      saved again; the checkpoints as they are; and no round, closed or open. */
  lemma BootAnswers(p: Setup, d: Disk, now: Time, random: Bytes)
    ensures Booted(p, d, now, random).Some? <==> Crypto.LoadKeys(d.keys, random).Some?
    ensures Booted(p, d, now, random).Some? ==>
      var w, ring := Booted(p, d, now, random).value, Crypto.LoadKeys(d.keys, random).value;
      && w.keys == ring.keys && w.keyDisk == ring.disk && w.files == d.files && w.clock == now
      && w.tables.activeKeyVersion == ring.keys.active && w.file == Some(Save(w.tables))
      && w.buffer.weights == map[] && w.buffer.sizes == map[] && w.buffer.completed == {} && w.buffer.velocity == map[]
      && (d.file.None? || d.file == Some(JBroken) ==>
            w.tables == Tables([], [], [], 0, 0, ring.keys.active) && w.buffer.latest == map[])
  {
    hide Save, Crypto.LoadKeys, Read;
    if Booted(p, d, now, random).Some? {
      var w := Booted(p, d, now, random).value;
      RestoringOnlyLatest(p, w.(buffer := EMPTY_BUFFER), w.tables.models);
    }
  }
}
