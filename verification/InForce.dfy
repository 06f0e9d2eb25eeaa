/** What is in force: every model in use, and every checkpoint on disk, is one that some round published. */
module InForce {
  import opened Basics
  import opened ByteStrings
  import opened Vectors
  import opened Records
  import opened StateStore
  import opened WeightBuffer
  import opened FederatedService
  import opened Ledger
  import opened Steps
  import opened Persistence
  import opened ControlPlane
  import opened Consistency
  import opened Checkpoints
  import RoundBuffer
  import Recovery
  import Crypto

  /** The checkpoint at the path holds the weights some round published. */
  ghost predicate HeldBy(p: Setup, w: World, published: seq<Vec>, path: RoundKey) {
    exists v :: v in published && Holds(p, w, path, v)
  }

  ghost predicate FilesPublished(p: Setup, w: World, published: seq<Vec>) {
    forall path :: path in w.files ==> HeldBy(p, w, published, path)
  }

  ghost predicate LatestPublished(latest: map<Scope, Snapshot>, published: seq<Vec>) {
    forall scope :: scope in latest ==> latest[scope].weights in published
  }

  lemma HeldOn(p: Setup, w: World, w': World, published: seq<Vec>, published': seq<Vec>, path: RoundKey)
    requires HeldBy(p, w, published, path) && w'.keys == w.keys
    requires path in w.files && path in w'.files && w'.files[path] == w.files[path]
    requires forall v :: v in published ==> v in published'
    ensures HeldBy(p, w', published', path)
  {
    hide Holds;
    var v :| v in published && Holds(p, w, path, v);
    HoldsKept(p, w, w', path, v);
  }

  /** What can be read of a checkpoint was published. */
  lemma HeldReads(p: Setup, w: World, published: seq<Vec>, path: RoundKey)
    requires Crypto.IsAead(p.aead) && HeldBy(p, w, published, path)
    ensures path in w.files && ReadCheckpoint(p, w, path).Ok? && ReadCheckpoint(p, w, path).value in published
  {
    hide Holds, ReadCheckpoint;
    var v :| v in published && Holds(p, w, path, v);
    HoldsReads(p, w, path, v);
    HoldsParts(p, w, path, v);
  }

  lemma SameInForce(p: Setup, w: World, w': World, published: seq<Vec>)
    requires FilesPublished(p, w, published) && LatestPublished(w.buffer.latest, published)
    requires w'.keys == w.keys && w'.files == w.files && w'.buffer.latest == w.buffer.latest
    ensures FilesPublished(p, w', published) && LatestPublished(w'.buffer.latest, published)
  {
    hide HeldBy;
    forall path | path in w'.files ensures HeldBy(p, w', published, path) {
      HeldOn(p, w, w', published, published, path);
    }
  }

  // ----- Submissions -----

  lemma SubmitInForce(p: Setup, tr: Trace, s: Step)
    requires s.Submits? && Persistent(tr.world) && Allowed(p, tr.world, s) && FloatsOut(p, tr.world, s)
    requires FilesPublished(p, tr.world, tr.published) && LatestPublished(tr.world.buffer.latest, tr.published)
    ensures var r := Traced(p, tr, s);
      FilesPublished(p, r.world, r.published) && LatestPublished(r.world.buffer.latest, r.published)
  {
    hide Submit, Screen, ScreenedTables, Moved, Handled, Holds, HeldBy, Plausible, Fills, PublishedBy, Persistent,
         Floats, RoundTensors, Crypto.EncryptBlob, Crypto.KeysOk, Deactivate;
    var w, r, stage, key := tr.world, Traced(p, tr, s), Handled(p, tr.world, s).stage, KeyOf(s.req);
    TracedWorld(p, tr, s);
    SubmitFiles(p, w, s);
    StageKnown(p, w, s);
    KeysInUse(w);
    forall path | path in r.world.files ensures HeldBy(p, r.world, r.published, path) {
      if stage.Published? && path == key {
        NewHolds(p, r.world, path, stage.weights, s.env.iv);
        PublishedIsHeld(p, r.world, r.published, path, stage.weights);
      } else {
        HeldOn(p, w, r.world, tr.published, r.published, path);
      }
    }
    SubmitLatest(p, w, s);
  }

  lemma PublishedIsHeld(p: Setup, w: World, published: seq<Vec>, path: RoundKey, v: Vec)
    requires v in published && Holds(p, w, path, v)
    ensures HeldBy(p, w, published, path)
  {
    hide Holds;
  }

  lemma KeysInUse(w: World)
    requires Persistent(w)
    ensures Crypto.KeysOk(w.keys)
  {
    hide Filed, Crypto.KeysOk, Crypto.DiskOk;
  }

  lemma SubmitLatest(p: Setup, w: World, s: Step)
    requires s.Submits?
    ensures var latest, stage := Moved(p, w, s).buffer.latest, Handled(p, w, s).stage;
      forall scope :: scope in latest ==>
        (scope in w.buffer.latest && latest[scope] == w.buffer.latest[scope])
        || (stage.Published? && latest[scope].weights == stage.weights)
  {
    hide Submit, Screen, ScreenedTables, Tried, BlobOf, Deactivate, FilesAfter, NextVersion;
    SubmitShape(p, w, s);
    if Screened(w, s) { SubmitCheckpoints(p, w, s); }
  }

  // ----- Rollbacks, rotations, restarts -----

  lemma RollbackInForce(p: Setup, w: World, published: seq<Vec>, request: Scope, target: int)
    requires Crypto.IsAead(p.aead) && FilesPublished(p, w, published) && LatestPublished(w.buffer.latest, published)
    ensures var r := RollBack(p, w, request, target).world;
      FilesPublished(p, r, published) && LatestPublished(r.buffer.latest, published)
  {
    hide HeldBy, Rollback, Crypto.DecryptBlob;
    var r := RollBack(p, w, request, target).world;
    forall path | path in w.files
      ensures HeldBy(p, r, published, path)
      ensures ReadCheckpoint(p, w, path).Ok? && ReadCheckpoint(p, w, path).value in published
    {
      HeldOn(p, w, r, published, published, path);
      HeldReads(p, w, published, path);
    }
  }

  lemma RotateInForce(p: Setup, w: World, published: seq<Vec>, newKey: Bytes)
    requires Crypto.KeysOk(w.keys) && Crypto.OpAllowed(w.keys, Crypto.RotateTo(newKey))
    requires FilesPublished(p, w, published)
    ensures FilesPublished(p, Rotated(w, newKey), published)
  {
    hide Holds, Crypto.KeysOk;
    var r := Rotated(w, newKey);
    forall path | path in r.files ensures HeldBy(p, r, published, path) {
      assert HeldBy(p, w, published, path);
      var v :| v in published && Holds(p, w, path, v);
      RotateHolds(p, w, newKey, path, v);
    }
  }

  /** Whatever a start restores was published. */
  lemma {:induction false} RestoredInForce(p: Setup, w: World, models: seq<ModelRecord>, published: seq<Vec>)
    requires Crypto.IsAead(p.aead) && FilesPublished(p, w, published) && LatestPublished(w.buffer.latest, published)
    ensures LatestPublished(RestoreModels(p, w, models).latest, published)
  {
    if |models| > 0 {
      hide HeldBy;
      var m := models[|models| - 1];
      RestoredInForce(p, w, models[..|models| - 1], published);
      if m.path in w.files { HeldReads(p, w, published, m.path); }
      hide Crypto.DecryptBlob;
    }
  }

  lemma RestartInForce(p: Setup, w: World, published: seq<Vec>, now: Time, random: Bytes)
    requires Crypto.IsAead(p.aead) && Persistent(w) && w.clock <= now && FilesPublished(p, w, published)
    ensures Booted(p, DiskOf(w), now, random).Some?
    ensures var r := Booted(p, DiskOf(w), now, random).value;
      FilesPublished(p, r, published) && LatestPublished(r.buffer.latest, published)
  {
    hide Persistent, Booted, RestoreModels, HeldBy, Recovery.Recovered;
    RestartFinds(p, w, now, random);
    var r := Booted(p, DiskOf(w), now, random).value;
    var started := r.(buffer := EMPTY_BUFFER);
    forall path | path in w.files ensures HeldBy(p, started, published, path) && HeldBy(p, r, published, path) {
      HeldOn(p, w, started, published, published, path);
      HeldOn(p, w, r, published, published, path);
    }
    RestoredInForce(p, started, r.tables.models, published);
  }

  // ----- Runs -----

  lemma StepInForce(p: Setup, tr: Trace, s: Step)
    requires Crypto.IsAead(p.aead) && Persistent(tr.world) && Allowed(p, tr.world, s) && FloatsOut(p, tr.world, s)
    requires FilesPublished(p, tr.world, tr.published) && LatestPublished(tr.world.buffer.latest, tr.published)
    ensures var r := Traced(p, tr, s);
      FilesPublished(p, r.world, r.published) && LatestPublished(r.world.buffer.latest, r.published)
  {
    hide Persistent, FloatsOut, FilesPublished, LatestPublished;
    match s
    case Submits(_, _, _, _) =>
      hide Submit, Plausible, Traced;
      SubmitInForce(p, tr, s);
    case Leases(_, _, _, _) =>
      hide Lease;
      SameInForce(p, tr.world, Moved(p, tr.world, s), tr.published);
    case Creates(_, _) =>
      hide CreateJob, NewId;
      SameInForce(p, tr.world, Moved(p, tr.world, s), tr.published);
    case RollsBack(request, target) =>
      hide RollBack;
      RollbackInForce(p, tr.world, tr.published, request, target);
    case Rotates(newKey) =>
      KeysInUse(tr.world);
      RotateInForce(p, tr.world, tr.published, newKey);
    case Restarts(now, random) =>
      hide Booted;
      RestartInForce(p, tr.world, tr.published, now, random);
  }

  /** Over every run from a first start, whatever rounds are filled again after restarts, each model in force and each
      checkpoint on disk is one that some round of the run published. */
  lemma {:induction false} RunInForce(p: Setup, start: Trace, steps: seq<Step>)
    requires Crypto.IsAead(p.aead) && FirstProcess(p, start) && AllAllowed(p, start, steps)
    requires AllFloats(p, start, steps)
    ensures var tr := Run(p, start, steps);
      FilesPublished(p, tr.world, tr.published) && LatestPublished(tr.world.buffer.latest, tr.published)
  {
    FirstStart(p, start);
    FirstFiles(p, start);
    hide FirstProcess, FilesPublished, LatestPublished;
    if |steps| > 0 {
      hide Run, Traced, Moved, Allowed, Safe, Follows, FloatsOut, Persistent;
      var before := steps[..|steps| - 1];
      RunStep(p, start, steps);
      RunInForce(p, start, before);
      RunSafe(p, start, before);
      StepInForce(p, Run(p, start, before), steps[|steps| - 1]);
    }
  }

  lemma FirstFiles(p: Setup, start: Trace)
    requires FirstProcess(p, start)
    ensures FilesPublished(p, start.world, start.published)
    ensures LatestPublished(start.world.buffer.latest, start.published)
  {
    hide HeldBy;
    FirstStart(p, start);
  }

  // ----- Norms over runs -----

  /** All submissions run under valid configurations with this clipping norm. */
  ghost predicate Clipping(steps: seq<Step>, c: real) {
    forall i :: 0 <= i < |steps| && steps[i].Submits? ==>
      ValidConfig(steps[i].env.cfg) && steps[i].env.cfg.clipNorm == c
  }

  ghost predicate NormsAtMost(vs: seq<Vec>, bound: real) {
    forall i :: 0 <= i < |vs| ==> NormSq(vs[i]) <= bound
  }

  /** Over every run from a first start every model ever published respects the clipping norm. */
  lemma RunRespectsNorm(p: Setup, start: Trace, steps: seq<Step>, c: real)
    requires IsSqrt(p.sqrt) && c > 0.0 && Clipping(steps, c) && FirstProcess(p, start)
    ensures forall i :: 0 <= i < |Run(p, start, steps).published| ==> NormSq(Run(p, start, steps).published[i]) <= c * c
  {
    hide NormSq, Run;
    RunNorms(p, start, steps, c, c * c);
  }

  lemma {:induction false} RunNorms(p: Setup, start: Trace, steps: seq<Step>, c: real, bound: real)
    requires IsSqrt(p.sqrt) && c > 0.0 && Clipping(steps, c) && RoundBuffer.IsSquare(bound, c) && FirstProcess(p, start)
    ensures NormsAtMost(Run(p, start, steps).published, bound)
  {
    hide FirstProcess;
    FirstStart(p, start);
    if |steps| > 0 {
      hide Run, Traced, NormsAtMost, ValidConfig, RoundBuffer.IsSquare, IsSqrt;
      var before, s := steps[..|steps| - 1], steps[|steps| - 1];
      RunStep(p, start, steps);
      RunNorms(p, start, before, c, bound);
      StepNorms(p, Run(p, start, before), s, c, bound);
    } else {
      hide NormSq;
    }
  }

  lemma StepNorms(p: Setup, tr: Trace, s: Step, c: real, bound: real)
    requires IsSqrt(p.sqrt) && c > 0.0 && RoundBuffer.IsSquare(bound, c) && NormsAtMost(tr.published, bound)
    requires s.Submits? ==> ValidConfig(s.env.cfg) && s.env.cfg.clipNorm == c
    ensures NormsAtMost(Traced(p, tr, s).published, bound)
  {
    hide Moved, NormSq, Handled, RoundTensors, ValidConfig, RoundBuffer.IsSquare, IsSqrt;
    if s.Submits? && Handled(p, tr.world, s).stage.Published? {
      HandledNormAtMost(p, tr.world, s, bound);
    }
  }

  lemma HandledNormAtMost(p: Setup, w: World, s: Step, bound: real)
    requires IsSqrt(p.sqrt) && s.Submits? && Handled(p, w, s).stage.Published? && ValidConfig(s.env.cfg)
      && s.env.cfg.clipNorm > 0.0
    requires RoundBuffer.IsSquare(bound, s.env.cfg.clipNorm)
    ensures NormSq(Handled(p, w, s).stage.weights) <= bound
  {
    hide Handled, NormSq;
    HandledNorm(p, w, s);
  }

  lemma HandledNorm(p: Setup, w: World, s: Step)
    requires IsSqrt(p.sqrt) && s.Submits? && Handled(p, w, s).stage.Published? && ValidConfig(s.env.cfg)
      && s.env.cfg.clipNorm > 0.0
    ensures NormSq(Handled(p, w, s).stage.weights) <= s.env.cfg.clipNorm * s.env.cfg.clipNorm
  {
    hide Submit, Screen, ScreenedTables, NormSq, RoundBuffer.Tried, BlobOf, FilesAfter, Deactivate, Settled, AttemptOf,
         AttemptFor, Moved, Handled, Counted;
    SubmitShape(p, w, s);
    SubmitCheckpoints(p, w, s);
    AttemptFields(p, w, s);
    RoundBuffer.PublishedNorm(w.buffer, p.sqrt, TryOf(p, w, s));
  }

  /** And so does every model in force, be it published by a round, a rollback or a restart. */
  lemma LatestRespectsNorm(p: Setup, start: Trace, steps: seq<Step>, c: real, scope: Scope)
    requires IsSqrt(p.sqrt) && c > 0.0 && Clipping(steps, c) && Crypto.IsAead(p.aead) && FirstProcess(p, start)
    requires AllAllowed(p, start, steps) && AllFloats(p, start, steps)
    requires scope in Run(p, start, steps).world.buffer.latest
    ensures NormSq(Run(p, start, steps).world.buffer.latest[scope].weights) <= c * c
  {
    hide NormSq, FirstProcess, Clipping, AllAllowed, AllFloats, HeldBy, Run;
    RunInForce(p, start, steps);
    RunRespectsNorm(p, start, steps, c);
  }
}
