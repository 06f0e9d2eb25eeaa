/** Checkpoints: every recorded version restores to exactly the weights it was aggregated with, and when it does not. */
module Checkpoints {
  import opened Basics
  import opened ByteStrings
  import opened Vectors
  import opened Records
  import opened StateFile
  import opened StateStore
  import opened Aggregation
  import opened WeightBuffer
  import opened FederatedService
  import opened Ledger
  import opened Registry
  import opened Steps
  import opened Persistence
  import opened LoneClient
  import opened ControlPlane
  import opened Consistency
  import RoundBuffer
  import Recovery
  import Crypto

  /** A vector of floats: its bytes read back, four to a coordinate. */
  ghost predicate Floats(c: Codec, v: Vec) {
    |c.toBytes(v)| % 4 == 0 && c.fromBytes(c.toBytes(v)) == v
  }

  /** The blob was written under an earlier state of the keys. */
  ghost predicate Sealed(p: Setup, before: Crypto.KeyState, iv: Bytes, keys: Crypto.KeyState, blob: Bytes,
                         plain: Bytes) {
    Crypto.KeysOk(before) && Crypto.Extends(before, keys) && |iv| == Crypto.IV_SIZE
    && blob == Crypto.EncryptBlob(p.aead, before, iv, plain)
  }

  /** The checkpoint at the path holds v. */
  ghost predicate Holds(p: Setup, w: World, path: RoundKey, v: Vec) {
    && path in w.files && Floats(p.codec, v)
    && exists before, iv :: Sealed(p, before, iv, w.keys, w.files[path], p.codec.toBytes(v))
  }

  lemma HoldsReads(p: Setup, w: World, path: RoundKey, v: Vec)
    requires Crypto.IsAead(p.aead) && Holds(p, w, path, v)
    ensures Crypto.DecryptBlob(p.aead, w.keys, w.files[path]) == Ok(p.codec.toBytes(v))
    ensures ReadCheckpoint(p, w, path) == Ok(v)
  {
    hide Crypto.KeysOk, Crypto.Extends, Crypto.EncryptBlob, Crypto.DecryptBlob;
    var before, iv :| Sealed(p, before, iv, w.keys, w.files[path], p.codec.toBytes(v));
    Crypto.BlobRoundTrip(p.aead, before, w.keys, iv, p.codec.toBytes(v));
  }

  lemma HoldsKept(p: Setup, w: World, w': World, path: RoundKey, v: Vec)
    requires Holds(p, w, path, v) && w'.keys == w.keys && path in w'.files && w'.files[path] == w.files[path]
    ensures Holds(p, w', path, v)
  {
    hide Sealed;
  }

  /** The published model of the record's scope is this one. */
  ghost predicate Shown(latest: map<Scope, Snapshot>, m: ModelRecord, v: Vec) {
    m.scope in latest && latest[m.scope] == Snapshot(m.round, m.version, v)
  }

  ghost predicate RecordOk(m: ModelRecord) {
    m.path == RoundKey(m.scope, m.round) && Normalized(m.scope) == m.scope
  }

  ghost predicate HasActiveModel(models: seq<ModelRecord>, scope: Scope) {
    exists i :: 0 <= i < |models| && models[i].scope == scope && models[i].active
  }

  /** Every record's checkpoint holds its weights, and the published model of a scope is that of its active record. */
  ghost predicate Faithful(p: Setup, w: World, published: seq<Vec>) {
    && Crypto.KeysOk(w.keys) && |published| == |w.tables.models|
    && (forall i :: 0 <= i < |published| ==>
        RecordOk(w.tables.models[i]) && Holds(p, w, w.tables.models[i].path, published[i]))
    && LatestShown(w.buffer.latest, w.tables.models, published)
  }

  ghost predicate LatestShown(latest: map<Scope, Snapshot>, models: seq<ModelRecord>, published: seq<Vec>)
    requires |published| == |models|
  {
    && (forall i :: 0 <= i < |models| && models[i].active ==> Shown(latest, models[i], published[i]))
    && (forall scope :: scope in latest ==> HasActiveModel(models, scope))
  }

  // ----- Steps that leave checkpoints alone -----

  lemma SameFaithful(p: Setup, w: World, w': World, published: seq<Vec>)
    requires Faithful(p, w, published) && w'.tables.models == w.tables.models && w'.keys == w.keys
      && w'.files == w.files
    requires w'.buffer.latest == w.buffer.latest
    ensures Faithful(p, w', published)
  {
    hide RecordOk, Sealed, LatestShown;
    forall i | 0 <= i < |published| ensures Holds(p, w', w'.tables.models[i].path, published[i]) {
      assert Holds(p, w, w.tables.models[i].path, published[i]);
    }
  }

  /** A model of this path is recorded. */
  ghost predicate Recorded(t: Tables, key: RoundKey) {
    exists i :: 0 <= i < |t.models| && t.models[i].path == key
  }

  /** What is published is made of floats. */
  ghost predicate FloatsOut(p: Setup, w: World, s: Step) {
    Closes(p, w, s) ==> Floats(p.codec, PublishedBy(p, w, s))
  }

  lemma SealedUnder(p: Setup, k: Crypto.KeyState, iv: Bytes, plain: Bytes)
    requires Crypto.KeysOk(k) && |iv| == Crypto.IV_SIZE
    ensures Sealed(p, k, iv, k, Crypto.EncryptBlob(p.aead, k, iv, plain), plain)
  {
    hide Crypto.EncryptBlob;
  }

  // ----- Submissions -----

  /** What a submission that got to the buffer does to models, checkpoints and published models. */
  lemma SubmitCheckpoints(p: Setup, w: World, s: Step)
    requires Screened(w, s)
    ensures var w', stage, key := Moved(p, w, s), Handled(p, w, s).stage, KeyOf(s.req);
      && w'.keys == w.keys && stage == Tried(p, w, s).stage
      && w'.files == FilesAfter(w.files, key, stage, BlobOf(p, w.keys, s.env.iv, stage))
      && (!stage.Published? ==> w'.tables.models == w.tables.models && w'.buffer.latest == w.buffer.latest)
      && (stage.Published? ==>
            var m := NewRecord(w, s, stage);
            w'.tables.models == Deactivate(w.tables.models, key.scope) + [m]
            && w'.buffer.latest == w.buffer.latest[key.scope := Snapshot(key.round, m.version, stage.weights)])
  {
    hide Screen, ScreenedTables, Submit, AttemptFor, RoundBuffer.Tried, Settled, Clip, Without, FinalWeights,
         NextVersion, BlobOf, Deactivate, WithMomentum, Attempting;
    SubmitShape(p, w, s);
    AttemptIsTry(p, w, s);
    AttemptFields(p, w, s);
    CountedModels(w, s);
    SettledModels(HasActiveJob(w.tables, KeyOf(s.req).scope), AttemptOf(p, w, s), Incoming(s.req), s.env.now);
    RoundBuffer.AddEnds(w.buffer, p.sqrt, TryOf(p, w, s));
  }

  function Tried(p: Setup, w: World, s: Step): AddEffect
    requires s.Submits?
  {
    RoundBuffer.Tried(w.buffer, p.sqrt, TryOf(p, w, s))
  }

  function NewRecord(w: World, s: Step, stage: Stage): ModelRecord
    requires s.Submits? && stage.Published?
  {
    var key := KeyOf(s.req);
    ModelRecord(key.scope, NextVersion(w.tables.models, key.scope), key.round, key, s.env.cfg.strategy, w.keys.active,
                stage.clients, |stage.weights|, true, s.env.now)
  }

  lemma CountedModels(w: World, s: Step)
    requires s.Submits?
    ensures Counted(w, s.req, s.env.now).models == w.tables.models
  {
    hide ScreenedTables;
    ScreenedSame(w, s.req, s.env.now);
  }

  lemma SettledModels(hasJob: bool, a: AttemptResult, sub: Submission, now: Time)
    ensures Settled(hasJob, a, sub, now).models == a.world.tables.models
  {
    hide Accept, Advance;
    AcceptShape(a.world.tables, sub, now);
    AdvanceModels(Accept(a.world.tables, sub, now).tables, sub.scope, sub.round, a.outcome.modelVersion, now);
  }

  lemma NewHolds(p: Setup, w: World, path: RoundKey, v: Vec, iv: Bytes)
    requires Crypto.KeysOk(w.keys) && |iv| == Crypto.IV_SIZE && Floats(p.codec, v)
    requires path in w.files && w.files[path] == Crypto.EncryptBlob(p.aead, w.keys, iv, p.codec.toBytes(v))
    ensures Holds(p, w, path, v)
  {
    hide Sealed, Crypto.EncryptBlob;
    SealedUnder(p, w.keys, iv, p.codec.toBytes(v));
  }

  lemma PushKeepsLatest(latest: map<Scope, Snapshot>, models: seq<ModelRecord>, published: seq<Vec>, m: ModelRecord,
                        v: Vec)
    requires |published| == |models| && LatestShown(latest, models, published) && m.active
    ensures LatestShown(latest[m.scope := Snapshot(m.round, m.version, v)], Deactivate(models, m.scope) + [m],
                        published + [v])
  {
    var models', latest' := Deactivate(models, m.scope) + [m], latest[m.scope := Snapshot(m.round, m.version, v)];
    forall scope | scope in latest' ensures HasActiveModel(models', scope) {
      if scope == m.scope {
        assert models'[|models|] == m;
      } else {
        assert HasActiveModel(models, scope);
        var i :| 0 <= i < |models| && models[i].scope == scope && models[i].active;
        assert models'[i] == models[i];
      }
    }
  }

  /** What the caller can tell beforehand: the submission is for another round, does not fill it, or its fault, or what
      it publishes, leaves the recorded weights v in place. */
  ghost predicate LeavesIt(p: Setup, w: World, s: Step, path: RoundKey, v: Vec)
    requires s.Submits?
  {
    KeyOf(s.req) == path && Fills(p, w, s) ==>
      match s.env.fault
      case NoFault => PublishedBy(p, w, s) == v
      case OpenFault => true
      case _ => false
  }

  /** A recorded version survives a submission exactly then. */
  lemma RecordedVersionSurvives(p: Setup, w: World, published: seq<Vec>, s: Step, i: nat)
    requires Crypto.IsAead(p.aead) && Faithful(p, w, published) && i < |published|
    requires s.Submits? && Allowed(p, w, s) && FloatsOut(p, w, s)
    ensures var path := w.tables.models[i].path;
      Holds(p, Moved(p, w, s), path, published[i]) <==> LeavesIt(p, w, s, path, published[i])
  {
    hide Submit, Screen, ScreenedTables, Moved, Handled, Crypto.EncryptBlob, Tried, Holds, LatestShown, Crypto.KeysOk,
         Deactivate, Fills, PublishedBy, Plausible;
    var w', stage, path := Moved(p, w, s), Handled(p, w, s).stage, w.tables.models[i].path;
    assert Holds(p, w, path, published[i]);
    HoldsParts(p, w, path, published[i]);
    SubmitFiles(p, w, s);
    StageKnown(p, w, s);
    if path in w'.files && w'.files[path] == w.files[path] && !(KeyOf(s.req) == path && stage.Published?) {
      HoldsKept(p, w, w', path, published[i]);
    } else if stage.Published? {
      NewHolds(p, w', path, stage.weights, s.env.iv);
      HoldsReads(p, w', path, stage.weights);
      if Holds(p, w', path, published[i]) { HoldsReads(p, w', path, published[i]); }
    } else {
      if Holds(p, w', path, published[i]) { HoldsParts(p, w', path, published[i]); }
    }
  }

  lemma SubmitFiles(p: Setup, w: World, s: Step)
    requires s.Submits?
    ensures var w', stage := Moved(p, w, s), Handled(p, w, s).stage;
      w'.keys == w.keys && w'.files == FilesAfter(w.files, KeyOf(s.req), stage, BlobOf(p, w.keys, s.env.iv, stage))
  {
    hide Submit, Screen, ScreenedTables, Tried, BlobOf, Deactivate, FilesAfter;
    SubmitShape(p, w, s);
    if Screened(w, s) {
      SubmitCheckpoints(p, w, s);
    } else {
      NothingWritten(w.files, KeyOf(s.req), BlobOf(p, w.keys, s.env.iv, NotReached));
    }
  }

  lemma NothingWritten(files: map<RoundKey, Bytes>, key: RoundKey, blob: Bytes)
    ensures FilesAfter(files, key, NotReached, blob) == files
  {
  }

  /** What the caller can tell beforehand: the submission leaves the weights of every recorded version in place. */
  ghost predicate Harmless(p: Setup, w: World, published: seq<Vec>, s: Step) {
    s.Submits? ==>
      forall i :: 0 <= i < |published| && i < |w.tables.models| ==>
        LeavesIt(p, w, s, w.tables.models[i].path, published[i])
  }

  /** A submission to a round that is not recorded, or that the buffer knows as closed, is harmless. */
  lemma FreshIsHarmless(p: Setup, w: World, published: seq<Vec>, s: Step)
    requires s.Submits? ==> KeyOf(s.req) in w.buffer.completed || !Recorded(w.tables, KeyOf(s.req))
    ensures Harmless(p, w, published, s)
  {
    hide Reaches, WellFormed, Screen, PublishedBy;
    if Screened(w, s) { ScreenedIsNew(w, s); }
  }

  /** A submission keeps every recorded checkpoint, and adds its own, exactly if it is harmless. */
  lemma SubmitKeepsFaithful(p: Setup, tr: Trace, s: Step)
    requires Crypto.IsAead(p.aead) && s.Submits? && Faithful(p, tr.world, tr.published)
    requires Allowed(p, tr.world, s) && FloatsOut(p, tr.world, s)
    ensures Faithful(p, Traced(p, tr, s).world, Traced(p, tr, s).published) <==>
      Harmless(p, tr.world, tr.published, s)
  {
    hide Holds, RecordOk, LatestShown, LeavesIt, Traced, Moved, Allowed, FloatsOut, Crypto.KeysOk;
    var w, r, n := tr.world, Traced(p, tr, s), |tr.published|;
    TracedWorld(p, tr, s);
    SubmitAppends(p, tr, s);
    forall i | 0 <= i < n
      ensures Holds(p, r.world, w.tables.models[i].path, tr.published[i]) <==>
        LeavesIt(p, w, s, w.tables.models[i].path, tr.published[i])
    {
      RecordedVersionSurvives(p, w, tr.published, s, i);
    }
    if Faithful(p, r.world, r.published) {
      forall i | 0 <= i < n ensures LeavesIt(p, w, s, w.tables.models[i].path, tr.published[i]) {
        assert Holds(p, r.world, r.world.tables.models[i].path, r.published[i]);
      }
    }
  }

  /** But for the checkpoints of earlier records everything is in order: they stay where they are, and a new record
      comes with its own. */
  ghost predicate Appended(p: Setup, w: World, published: seq<Vec>, r: World, published': seq<Vec>)
    requires |published| == |w.tables.models|
  {
    var models := r.tables.models;
    && Crypto.KeysOk(r.keys) && |published'| == |models| >= |published|
    && LatestShown(r.buffer.latest, models, published')
    && (forall i :: 0 <= i < |published| ==>
        published'[i] == published[i] && models[i].path == w.tables.models[i].path && RecordOk(models[i]))
    && (forall i :: |published| <= i < |models| ==>
        RecordOk(models[i]) && Holds(p, r, models[i].path, published'[i]))
  }

  lemma SubmitAppends(p: Setup, tr: Trace, s: Step)
    requires s.Submits? && Faithful(p, tr.world, tr.published) && Allowed(p, tr.world, s) && FloatsOut(p, tr.world, s)
    ensures Appended(p, tr.world, tr.published, Traced(p, tr, s).world, Traced(p, tr, s).published)
  {
    hide Submit, Screen, ScreenedTables, Plausible, Floats, Tried, Faithful, Traced, PublishedBy, Fills, Appended,
         NextVersion, Deactivate;
    var w, w', stage := tr.world, Moved(p, tr.world, s), Handled(p, tr.world, s).stage;
    TracedPublished(p, tr, s);
    FaithfulCounts(p, w, tr.published);
    SubmitShape(p, w, s);
    StageKnown(p, w, s);
    if Screened(w, s) {
      SubmitCheckpoints(p, w, s);
    } else {
      ScreenedSame(w, s.req, s.env.now);
    }
    if stage.Published? {
      RecordAppended(p, w, w', tr.published, NewRecord(w, s, stage), stage.weights, s.env.iv);
    } else {
      NothingAppended(p, w, w', tr.published);
    }
  }

  lemma TracedPublished(p: Setup, tr: Trace, s: Step)
    requires s.Submits?
    ensures var r, stage := Traced(p, tr, s), Handled(p, tr.world, s).stage;
      && r.world == Moved(p, tr.world, s)
      && r.published == if stage.Published? then tr.published + [stage.weights] else tr.published
  {
    hide Handled, RoundTensors;
  }

  lemma NothingAppended(p: Setup, w: World, w': World, published: seq<Vec>)
    requires Faithful(p, w, published)
    requires w'.tables.models == w.tables.models && w'.keys == w.keys && w'.buffer.latest == w.buffer.latest
    ensures Appended(p, w, published, w', published)
  {
    hide Holds, LatestShown, Crypto.KeysOk, RecordOk;
  }

  lemma RecordAppended(p: Setup, w: World, w': World, published: seq<Vec>, m: ModelRecord, v: Vec, iv: Bytes)
    requires Faithful(p, w, published) && RecordOk(m) && m.active && Floats(p.codec, v) && |iv| == Crypto.IV_SIZE
    requires w'.keys == w.keys && m.path in w'.files
    requires w'.files[m.path] == Crypto.EncryptBlob(p.aead, w.keys, iv, p.codec.toBytes(v))
    requires w'.tables.models == Deactivate(w.tables.models, m.scope) + [m]
    requires w'.buffer.latest == w.buffer.latest[m.scope := Snapshot(m.round, m.version, v)]
    ensures Appended(p, w, published, w', published + [v])
  {
    hide Holds, LatestShown, Crypto.KeysOk, Crypto.EncryptBlob, Floats;
    PushKeepsLatest(w.buffer.latest, w.tables.models, published, m, v);
    NewHolds(p, w', m.path, v, iv);
  }

  // ----- Rollback, rotation, restart -----

  /** Rolling back to record i of a faithful server. */
  lemma RollbackReads(p: Setup, w: World, published: seq<Vec>, request: Scope, target: int)
    requires Crypto.IsAead(p.aead) && Faithful(p, w, published) && target > 0
    requires FindVersion(w.tables.models, Normalized(request), target) < |published|
    ensures var i, scope := FindVersion(w.tables.models, Normalized(request), target), Normalized(request);
      var m := w.tables.models[i].(active := true);
      && RollBack(p, w, request, target).reply == RolledBackTo(m)
      && RollBack(p, w, request, target).world
         == w.(tables := w.tables.(models := Deactivate(w.tables.models, scope)[i := m]),
               file := Some(Save(w.tables.(models := Deactivate(w.tables.models, scope)[i := m]))),
               buffer := w.buffer.(latest := w.buffer.latest[scope := Snapshot(m.round, m.version, published[i])]))
  {
    hide Holds, Crypto.DecryptBlob, FindVersion, Deactivate, LatestShown, Crypto.KeysOk, ReadCheckpoint;
    var i := FindVersion(w.tables.models, Normalized(request), target);
    HoldsReads(p, w, w.tables.models[i].path, published[i]);
    assert w.tables.models[i].path in w.files && Floats(p.codec, published[i]) by {
      HoldsParts(p, w, w.tables.models[i].path, published[i]);
    }
  }

  lemma HoldsParts(p: Setup, w: World, path: RoundKey, v: Vec)
    requires Holds(p, w, path, v)
    ensures path in w.files && Floats(p.codec, v)
  {
  }

  lemma RollbackKeepsFaithful(p: Setup, w: World, published: seq<Vec>, request: Scope, target: int)
    requires Crypto.IsAead(p.aead) && Faithful(p, w, published)
    ensures Faithful(p, RollBack(p, w, request, target).world, published)
  {
    hide Faithful, FindVersion, RollBack, Deactivate;
    var i := FindVersion(w.tables.models, Normalized(request), target);
    if target > 0 && i < |w.tables.models| {
      FaithfulCounts(p, w, published);
      RollbackReads(p, w, published, request, target);
      MoveKeepsFaithful(p, w, RollBack(p, w, request, target).world, published, i);
    } else {
      MissedRollback(p, w, request, target);
    }
  }

  lemma MissedRollback(p: Setup, w: World, request: Scope, target: int)
    requires target <= 0 || FindVersion(w.tables.models, Normalized(request), target) == |w.tables.models|
    ensures RollBack(p, w, request, target).world == w
  {
    hide FindVersion;
  }

  lemma FaithfulCounts(p: Setup, w: World, published: seq<Vec>)
    requires Faithful(p, w, published)
    ensures |published| == |w.tables.models|
  {
  }

  lemma MoveKeepsFaithful(p: Setup, w: World, w': World, published: seq<Vec>, i: nat)
    requires Faithful(p, w, published) && i < |published| && w'.keys == w.keys && w'.files == w.files
    requires var m := w.tables.models[i].(active := true);
      && w'.tables.models == Deactivate(w.tables.models, m.scope)[i := m]
      && w'.buffer.latest == w.buffer.latest[m.scope := Snapshot(m.round, m.version, published[i])]
    ensures Faithful(p, w', published)
  {
    hide Holds, Crypto.KeysOk, LatestShown, Deactivate, RecordOk;
    MoveKeepsLatest(w.buffer.latest, w.tables.models, published, i);
    MovedPaths(w.tables.models, w.tables.models[i].scope, i);
    forall j | 0 <= j < |published| ensures Holds(p, w', w.tables.models[j].path, published[j]) {
      assert Holds(p, w, w.tables.models[j].path, published[j]);
      HoldsParts(p, w, w.tables.models[j].path, published[j]);
      HoldsKept(p, w, w', w.tables.models[j].path, published[j]);
    }
  }

  lemma MovedPaths(models: seq<ModelRecord>, scope: Scope, i: nat)
    requires i < |models|
    ensures var models' := Deactivate(models, scope)[i := models[i].(active := true)];
      |models'| == |models| && forall j :: 0 <= j < |models| ==>
        models'[j].path == models[j].path && (RecordOk(models[j]) <==> RecordOk(models'[j]))
  {
  }

  lemma MoveKeepsLatest(latest: map<Scope, Snapshot>, models: seq<ModelRecord>, published: seq<Vec>, i: nat)
    requires |published| == |models| && LatestShown(latest, models, published) && i < |models|
    ensures var m := models[i].(active := true);
      LatestShown(latest[m.scope := Snapshot(m.round, m.version, published[i])], Deactivate(models, m.scope)[i := m],
                  published)
  {
    var m := models[i].(active := true);
    var models', latest' :=
      Deactivate(models, m.scope)[i := m], latest[m.scope := Snapshot(m.round, m.version, published[i])];
    forall scope | scope in latest' ensures HasActiveModel(models', scope) {
      if scope == m.scope {
        assert models'[i] == m;
      } else {
        assert HasActiveModel(models, scope);
        var j :| 0 <= j < |models| && models[j].scope == scope && models[j].active;
        assert models'[j] == models[j];
      }
    }
  }

  /** A checkpoint stays readable under the keys after a rotation. */
  lemma RotateHolds(p: Setup, w: World, newKey: Bytes, path: RoundKey, v: Vec)
    requires Crypto.KeysOk(w.keys) && Crypto.OpAllowed(w.keys, Crypto.RotateTo(newKey)) && Holds(p, w, path, v)
    ensures Holds(p, Rotated(w, newKey), path, v)
  {
    hide Crypto.EncryptBlob;
    var w', plain := Rotated(w, newKey), p.codec.toBytes(v);
    var before, iv :| Sealed(p, before, iv, w.keys, w.files[path], plain);
    assert Sealed(p, before, iv, w'.keys, w'.files[path], plain);
  }

  lemma RotateKeepsFaithful(p: Setup, w: World, published: seq<Vec>, newKey: Bytes)
    requires Faithful(p, w, published) && Crypto.OpAllowed(w.keys, Crypto.RotateTo(newKey))
    ensures Faithful(p, Rotated(w, newKey), published)
  {
    hide RecordOk, LatestShown, Holds;
    var w' := Rotated(w, newKey);
    forall i | 0 <= i < |published| ensures Holds(p, w', w'.tables.models[i].path, published[i]) {
      RotateHolds(p, w, newKey, w.tables.models[i].path, published[i]);
    }
  }

  /** A new process publishes again exactly the models the old one had published. */
  lemma RestartRestoresLatest(p: Setup, w: World, published: seq<Vec>, now: Time, random: Bytes)
    requires Crypto.IsAead(p.aead) && Faithful(p, w, published) && Persistent(w) && w.clock <= now
    ensures Booted(p, DiskOf(w), now, random).Some?
    ensures Booted(p, DiskOf(w), now, random).value.buffer.latest == w.buffer.latest
    ensures Faithful(p, Booted(p, DiskOf(w), now, random).value, published)
  {
    hide Persistent, Booted, Faithful, RestoreModels, Recovery.Recovered;
    RestartFinds(p, w, now, random);
    var r := Booted(p, DiskOf(w), now, random).value;
    RecoveredModels(ExpireTables(w.tables, now), r.tables);
    RestoredAgain(p, w, published, r.(buffer := EMPTY_BUFFER));
    SameFaithful(p, w, r, published);
  }

  lemma RecoveredModels(m: Tables, r: Tables)
    requires Recovery.Recovered(m, r)
    ensures r.models == m.models
  {
  }

  lemma RestoredAgain(p: Setup, w: World, published: seq<Vec>, started: World)
    requires Crypto.IsAead(p.aead) && Faithful(p, w, published) && started.buffer == EMPTY_BUFFER
    requires started.tables.models == w.tables.models && started.keys == w.keys && started.files == w.files
    ensures RestoreModels(p, started, w.tables.models).latest == w.buffer.latest
  {
    hide Holds, Crypto.KeysOk, RestoreModels;
    var models := w.tables.models;
    var b := RestoreModels(p, started, models);
    forall i | 0 <= i < |published| ensures ReadCheckpoint(p, started, models[i].path) == Ok(published[i]) {
      HoldsReads(p, w, models[i].path, published[i]);
      hide ReadCheckpoint;
      ReadSame(p, w, started, models[i].path);
    }
    RestoredLatest(p, started, models, published);
    hide ReadCheckpoint, RecordOk;
    forall scope ensures scope in b.latest <==> scope in w.buffer.latest
      ensures scope in w.buffer.latest ==> b.latest[scope] == w.buffer.latest[scope]
    {
      if i :| 0 <= i < |models| && models[i].scope == scope && models[i].active {
        assert Shown(w.buffer.latest, models[i], published[i]);
      }
    }
  }

  lemma ReadSame(p: Setup, w: World, w': World, path: RoundKey)
    requires w'.files == w.files && w'.keys == w.keys
    ensures ReadCheckpoint(p, w', path) == ReadCheckpoint(p, w, path)
  {
  }

  /** What restoring shows of a scope is one of its active models. */
  lemma {:induction false} RestoredLatest(p: Setup, w: World, models: seq<ModelRecord>, published: seq<Vec>)
    requires |published| == |models| && w.buffer == EMPTY_BUFFER
    requires forall i :: 0 <= i < |models| ==>
      RecordOk(models[i]) && ReadCheckpoint(p, w, models[i].path) == Ok(published[i])
    ensures forall scope :: scope in RestoreModels(p, w, models).latest ==>
      exists i ::
        0 <= i < |models| && models[i].scope == scope && models[i].active
        && Shown(RestoreModels(p, w, models).latest, models[i], published[i])
    ensures forall i :: 0 <= i < |models| && models[i].active ==> models[i].scope in RestoreModels(p, w, models).latest
  {
    if |models| > 0 {
      var n := |models| - 1;
      var before := RestoreModels(p, w, models[..n]);
      RestoredLatest(p, w, models[..n], published[..n]);
      hide ReadCheckpoint, Shown;
      forall scope | scope in before.latest
        ensures exists i ::
          0 <= i < n && models[i].scope == scope && models[i].active
          && Shown(before.latest, models[i], published[i])
      {
        var i :| 0 <= i < n && models[..n][i].scope == scope && models[..n][i].active
          && Shown(before.latest, models[..n][i], published[..n][i]);
        assert models[i] == models[..n][i] && published[i] == published[..n][i];
      }
      assert forall i :: 0 <= i < n ==> models[..n][i] == models[i];
      if models[n].active {
        ShowOneMore(before.latest, models, published, n);
      }
    }
  }

  lemma ShowOneMore(latest: map<Scope, Snapshot>, models: seq<ModelRecord>, published: seq<Vec>, n: nat)
    requires |published| == |models| && n < |models| && models[n].active
    requires forall scope :: scope in latest ==>
      exists i :: 0 <= i < n && models[i].scope == scope && models[i].active && Shown(latest, models[i], published[i])
    ensures var m := models[n]; var latest' := latest[m.scope := Snapshot(m.round, m.version, published[n])];
      forall scope :: scope in latest' ==>
        exists i ::
          0 <= i < |models| && models[i].scope == scope && models[i].active
          && Shown(latest', models[i], published[i])
  {
    var m := models[n];
    var latest' := latest[m.scope := Snapshot(m.round, m.version, published[n])];
    forall scope | scope in latest'
      ensures exists i ::
        0 <= i < |models| && models[i].scope == scope && models[i].active
        && Shown(latest', models[i], published[i])
    {
      if scope == m.scope {
        assert Shown(latest', m, published[n]);
      } else {
        var i :| 0 <= i < n && models[i].scope == scope && models[i].active && Shown(latest, models[i], published[i]);
        assert Shown(latest', models[i], published[i]);
      }
    }
  }

  /** A step keeps checkpoints faithful exactly if it is harmless. */
  lemma StepKeepsFaithful(p: Setup, tr: Trace, s: Step)
    requires Crypto.IsAead(p.aead) && Faithful(p, tr.world, tr.published) && Persistent(tr.world)
    requires Allowed(p, tr.world, s) && FloatsOut(p, tr.world, s)
    ensures Faithful(p, Traced(p, tr, s).world, Traced(p, tr, s).published) <==>
      Harmless(p, tr.world, tr.published, s)
  {
    hide Faithful, Persistent, FloatsOut;
    match s
    case Submits(_, _, _, _) =>
      hide Submit, Plausible, Traced, Harmless;
      SubmitKeepsFaithful(p, tr, s);
    case Leases(scope, client, version, now) =>
      hide Lease;
      LeaseModels(tr.world.tables, Normalized(scope), client, version, p.requiredClients, p.defaultTtl, now);
      SameFaithful(p, tr.world, Moved(p, tr.world, s), tr.published);
    case Creates(_, _) =>
      hide PreparedJob, Supersede, NewId;
      SameFaithful(p, tr.world, Moved(p, tr.world, s), tr.published);
    case RollsBack(request, target) =>
      hide RollBack;
      RollbackKeepsFaithful(p, tr.world, tr.published, request, target);
    case Rotates(newKey) => RotateKeepsFaithful(p, tr.world, tr.published, newKey);
    case Restarts(now, random) =>
      hide Booted;
      RestartRestoresLatest(p, tr.world, tr.published, now, random);
  }

  // ----- Runs -----

  ghost predicate AllFloats(p: Setup, start: Trace, steps: seq<Step>) {
    |steps| > 0 ==>
      var before := steps[..|steps| - 1];
      AllFloats(p, start, before) && FloatsOut(p, Run(p, start, before).world, steps[|steps| - 1])
  }

  ghost predicate AllHarmless(p: Setup, start: Trace, steps: seq<Step>) {
    |steps| > 0 ==>
      var before := steps[..|steps| - 1];
      var tr := Run(p, start, before);
      AllHarmless(p, start, before) && Harmless(p, tr.world, tr.published, steps[|steps| - 1])
  }

  ghost predicate AlwaysFaithful(p: Setup, start: Trace, steps: seq<Step>) {
    && Faithful(p, Run(p, start, steps).world, Run(p, start, steps).published)
    && (|steps| > 0 ==> AlwaysFaithful(p, start, steps[..|steps| - 1]))
  }

  lemma FirstFaithful(p: Setup, start: Trace)
    requires FirstProcess(p, start)
    ensures Faithful(p, start.world, start.published)
  {
    hide FirstProcess;
    FirstStart(p, start);
  }

  /** Over every run from a first start, restarts included, checkpoints are faithful all along exactly if every
      submission in it is harmless. */
  lemma {:induction false} RunFaithful(p: Setup, start: Trace, steps: seq<Step>)
    requires Crypto.IsAead(p.aead) && FirstProcess(p, start) && AllAllowed(p, start, steps)
      && AllFloats(p, start, steps)
    ensures AlwaysFaithful(p, start, steps) <==> AllHarmless(p, start, steps)
  {
    hide FirstProcess;
    FirstStart(p, start);
    FirstFaithful(p, start);
    if |steps| > 0 {
      hide Moved, Allowed, Safe, Follows, Faithful, FloatsOut, Harmless, Traced, Persistent;
      var before := steps[..|steps| - 1];
      RunFaithful(p, start, before);
      RunSafe(p, start, before);
      if AlwaysFaithful(p, start, before) {
        StepKeepsFaithful(p, Run(p, start, before), steps[|steps| - 1]);
      }
    }
  }

  // ----- What faithfulness gives -----

  /** Rolling back to any recorded model succeeds, publishes exactly the weights and the round it was aggregated with,
      makes it the active version, and leaves the other scopes as they were. */
  lemma RollbackRestores(p: Setup, w: World, published: seq<Vec>, i: nat)
    requires Crypto.IsAead(p.aead) && Faithful(p, w, published) && RegistryOk(w.tables) && i < |published|
    ensures var m := w.tables.models[i];
      var e := RollBack(p, w, m.scope, m.version);
      && e.reply == RolledBackTo(m.(active := true))
      && e.world.buffer.latest == w.buffer.latest[m.scope := Snapshot(m.round, m.version, published[i])]
      && ActiveVersion(e.world.tables.models, m.scope) == m.version
      && (forall k :: 0 <= k < |published| && w.tables.models[k].scope != m.scope ==>
          e.world.tables.models[k] == w.tables.models[k])
  {
    hide Holds, RollBack, LatestShown, FindVersion, ActiveVersion, Versions;
    var m := w.tables.models[i];
    assert CountsUp(Versions(w.tables.models, m.scope));
    RecordFound(w.tables.models, i);
    RollbackReads(p, w, published, m.scope, m.version);
    ActiveVersionFound(RollBack(p, w, m.scope, m.version).world.tables.models, m.scope, i);
  }

  /** A published model is always the decoded checkpoint of the scope's active version. */
  lemma LatestIsActiveCheckpoint(p: Setup, w: World, published: seq<Vec>, scope: Scope)
    requires Crypto.IsAead(p.aead) && Faithful(p, w, published)
    ensures scope in w.buffer.latest <==> HasActiveModel(w.tables.models, scope)
    ensures scope in w.buffer.latest ==>
      exists i :: 0 <= i < |w.tables.models| && w.tables.models[i].scope == scope
        && ActiveVersion(w.tables.models, scope) == w.tables.models[i].version == w.buffer.latest[scope].version
        && w.tables.models[i].round == w.buffer.latest[scope].round
        && ReadCheckpoint(p, w, w.tables.models[i].path) == Ok(w.buffer.latest[scope].weights)
  {
    hide Holds, ReadCheckpoint, Crypto.KeysOk, ActiveVersion;
    var models := w.tables.models;
    if scope in w.buffer.latest {
      var i := FirstActive(models, scope);
      HoldsReads(p, w, models[i].path, published[i]);
      ActiveVersionFound(models, scope, i);
    }
  }

  lemma FirstActive(models: seq<ModelRecord>, scope: Scope) returns (i: nat)
    requires HasActiveModel(models, scope)
    ensures i < |models| && models[i].scope == scope && models[i].active
    ensures forall k :: 0 <= k < i ==> !(models[k].scope == scope && models[k].active)
  {
    i := 0;
    while !(models[i].scope == scope && models[i].active)
      invariant i < |models| && forall k :: 0 <= k < i ==> !(models[k].scope == scope && models[k].active)
      decreases |models| - i
    {
      i := i + 1;
    }
  }

  // ----- Within one process -----

  /** The buffer knows every recorded round as closed. */
  ghost predicate Remembers(w: World) {
    forall i :: 0 <= i < |w.tables.models| ==> w.tables.models[i].path in w.buffer.completed
  }

  ghost predicate SamePaths(models: seq<ModelRecord>, models': seq<ModelRecord>) {
    |models'| == |models| && forall i :: 0 <= i < |models| ==> models'[i].path == models[i].path
  }

  /** Apart from a round that closes, a step keeps the recorded paths. */
  lemma QuietPaths(p: Setup, w: World, s: Step)
    requires !s.Submits? && !s.Restarts?
    ensures SamePaths(w.tables.models, Moved(p, w, s).tables.models)
  {
    match s
    case Leases(scope, client, version, now) =>
      hide Lease;
      LeaseModels(w.tables, Normalized(scope), client, version, p.requiredClients, p.defaultTtl, now);
    case Creates(_, _) => hide PreparedJob, Supersede;
    case RollsBack(request, target) =>
      hide RollBack;
      RollbackShape(p, w, request, target);
      var i := FindVersion(w.tables.models, Normalized(request), target);
      if i < |w.tables.models| { MovedPaths(w.tables.models, Normalized(request), i); }
    case Rotates(_) =>
  }

  lemma StepRemembers(p: Setup, w: World, s: Step)
    requires Remembers(w) && !s.Restarts?
    ensures Remembers(Moved(p, w, s))
  {
    hide Submit, Screen, ScreenedTables, Tried, BlobOf, FilesAfter, RoundBuffer.Tried, Moved;
    if s.Submits? {
      if Screened(w, s) {
        SubmitCheckpoints(p, w, s);
        AttemptCompletes(p, w, s);
      } else {
        SubmitShapes(p, w, s);
      }
    } else {
      QuietPaths(p, w, s);
      QuietStepMarks(p, w, s);
    }
  }

  lemma SubmitShapes(p: Setup, w: World, s: Step)
    requires s.Submits? && !Screened(w, s)
    ensures Moved(p, w, s).tables.models == w.tables.models && Moved(p, w, s).buffer == w.buffer
  {
    hide Submit, Screen, ScreenedTables;
    SubmitShape(p, w, s);
    ScreenedSame(w, s.req, s.env.now);
  }

  lemma AttemptCompletes(p: Setup, w: World, s: Step)
    requires Screened(w, s)
    ensures w.buffer.completed <= Moved(p, w, s).buffer.completed
    ensures Handled(p, w, s).stage.Published? ==> KeyOf(s.req) in Moved(p, w, s).buffer.completed
  {
    hide Submit, Screen, ScreenedTables, RoundBuffer.Tried, Settled, Clip, Without, FinalWeights, AttemptFor,
         TablesAfter, FilesAfter;
    SubmitShape(p, w, s);
    AttemptIsTry(p, w, s);
    AttemptFields(p, w, s);
    RoundBuffer.AddEnds(w.buffer, p.sqrt, TryOf(p, w, s));
  }

  /** In one process no submission can harm a recorded round: over every run of submissions, failed attempts, rotations
      and rollbacks, checkpoints stay faithful. */
  lemma {:induction false} OneProcessFaithful(p: Setup, start: Trace, steps: seq<Step>)
    requires Crypto.IsAead(p.aead) && OneProcess(steps)
    requires FirstProcess(p, start) && AllAllowed(p, start, steps) && AllFloats(p, start, steps)
    ensures AllHarmless(p, start, steps) && AlwaysFaithful(p, start, steps)
    ensures Remembers(Run(p, start, steps).world)
  {
    FirstStart(p, start);
    RunFaithful(p, start, steps);
    hide FirstProcess;
    if |steps| > 0 {
      hide Moved, Allowed, Safe, Follows, Faithful, Remembers, Traced, FloatsOut, Harmless, Recorded, Persistent;
      var before, s := steps[..|steps| - 1], steps[|steps| - 1];
      var tr := Run(p, start, before);
      OneProcessFaithful(p, start, before);
      if s.Submits? { RememberedIsFresh(tr.world, KeyOf(s.req)); }
      FreshIsHarmless(p, tr.world, tr.published, s);
      StepRemembers(p, tr.world, s);
      TracedWorld(p, tr, s);
    }
  }

  lemma TracedWorld(p: Setup, tr: Trace, s: Step)
    ensures Traced(p, tr, s).world == Moved(p, tr.world, s)
  {
    hide Moved, Handled, RoundTensors;
  }

  lemma RememberedIsFresh(w: World, key: RoundKey)
    requires Remembers(w)
    ensures key in w.buffer.completed || !Recorded(w.tables, key)
  {
  }

  // ----- When a recorded version is lost -----

  /** The same submission under another fault. */
  function Faulted(s: Step, fault: Fault): Step
    requires s.Submits?
  {
    s.(env := s.env.(fault := fault))
  }

  /** It survives whatever fault strikes exactly if the submission is for another round or does not fill it. */
  lemma SurvivesEveryFault(p: Setup, w: World, published: seq<Vec>, s: Step, i: nat)
    requires Crypto.IsAead(p.aead) && Faithful(p, w, published) && i < |published|
    requires s.Submits? && Allowed(p, w, s) && (Fills(p, w, s) ==> Floats(p.codec, PublishedBy(p, w, s)))
    ensures var path := w.tables.models[i].path;
      (forall fault :: Holds(p, Moved(p, w, Faulted(s, fault)), path, published[i])) <==>
        KeyOf(s.req) != path || !Fills(p, w, s)
  {
    hide Moved, Holds, Faithful, Allowed, FloatsOut, LeavesIt, Floats, Fills, PublishedBy;
    FaithfulCounts(p, w, published);
    var path := w.tables.models[i].path;
    forall fault ensures Holds(p, Moved(p, w, Faulted(s, fault)), path, published[i]) <==>
      LeavesIt(p, w, Faulted(s, fault), path, published[i])
      ensures KeyOf(s.req) != path || !Fills(p, w, s) ==> LeavesIt(p, w, Faulted(s, fault), path, published[i])
      ensures KeyOf(s.req) == path && Fills(p, w, s) && fault == WriteFault ==>
        !LeavesIt(p, w, Faulted(s, fault), path, published[i])
    {
      FaultIndependent(p, w, s, fault);
      RecordedVersionSurvives(p, w, published, Faulted(s, fault), i);
      FaultDecides(p, w, Faulted(s, fault), path, published[i]);
    }
    assert Holds(p, Moved(p, w, Faulted(s, WriteFault)), path, published[i]) <==>
      LeavesIt(p, w, Faulted(s, WriteFault), path, published[i]);
  }

  lemma FaultIndependent(p: Setup, w: World, s: Step, fault: Fault)
    requires s.Submits? && Allowed(p, w, s) && (Fills(p, w, s) ==> Floats(p.codec, PublishedBy(p, w, s)))
    ensures var f := Faulted(s, fault);
      && Allowed(p, w, f) && FloatsOut(p, w, f) && KeyOf(f.req) == KeyOf(s.req)
      && (Fills(p, w, f) <==> Fills(p, w, s)) && PublishedBy(p, w, f) == PublishedBy(p, w, s)
  {
    hide Screen, Aggregates, Reaches, WellFormed, FinalWeights, Floats, AttemptFor;
  }

  lemma FaultDecides(p: Setup, w: World, s: Step, path: RoundKey, v: Vec)
    requires s.Submits?
    ensures KeyOf(s.req) != path || !Fills(p, w, s) ==> LeavesIt(p, w, s, path, v)
    ensures KeyOf(s.req) == path && Fills(p, w, s) && s.env.fault == WriteFault ==> !LeavesIt(p, w, s, path, v)
  {
    hide Fills, PublishedBy;
  }

  /** If the round of a recorded version is filled again and its checkpoint cannot be written, the file is gone and
      rolling back to the version fails. */
  lemma LostVersionMissing(p: Setup, w: World, published: seq<Vec>, s: Step, i: nat)
    requires Crypto.IsAead(p.aead) && Faithful(p, w, published) && RegistryOk(w.tables) && i < |published|
    requires s.Submits? && Allowed(p, w, s) && Fills(p, w, s) && KeyOf(s.req) == w.tables.models[i].path
    requires s.env.fault == WriteFault || s.env.fault == EncryptFault
    ensures var m := w.tables.models[i]; RollBack(p, Moved(p, w, s), m.scope, m.version).reply == CheckpointMissing
  {
    hide Submit, Screen, ScreenedTables, BlobOf, RollBack, LatestShown, Holds, Versions, Crypto.KeysOk, Deactivate,
         AttemptFor, RoundBuffer.Tried, Plausible, Reaches, WellFormed;
    var m, w2 := w.tables.models[i], Moved(p, w, s);
    StageKnown(p, w, s);
    SubmitCheckpoints(p, w, s);
    assert m.path !in w2.files && w2.tables.models == w.tables.models;
    assert CountsUp(Versions(w.tables.models, m.scope));
    RecordFound(w.tables.models, i);
    MissingFile(p, w2, m, i);
  }

  /** A restart forgets which rounds are closed, so this can always come about after one, under every rule: with no job
      running, one client's one-coordinate tensor is enough if the configuration asks for one client. */
  lemma RestartCanLoseVersion(p: Setup, w: World, published: seq<Vec>, i: nat, cfg: Config, bytes: Bytes, now: Time,
                              random: Bytes)
    returns (s: Step)
    requires Crypto.IsAead(p.aead) && Faithful(p, w, published) && Safe(p, w.tables) && Persistent(w) && i < |published|
    requires w.clock <= now && |random| == Crypto.KEY_SIZE && w.tables.models[i].round >= 1
    requires !HasActiveJob(w.tables, w.tables.models[i].scope) && p.requiredClients <= 1 && Sendable(p, cfg, bytes)
    ensures Allowed(p, w, Restarts(now, random))
    ensures var m, w1 := w.tables.models[i], Moved(p, w, Restarts(now, random));
      && s.Submits? && KeyOf(s.req) == m.path && Allowed(p, w1, s)
      && RollBack(p, Moved(p, w1, s), m.scope, m.version).reply == CheckpointMissing
  {
    hide Booted, RollBack, Safe, Holds, Fills, Plausible, Persistent, Faithful, Screened, Submit, LastActive, RecordOk;
    FaithfulCounts(p, w, published);
    var m, w1 := w.tables.models[i], Moved(p, w, Restarts(now, random));
    RestartRestoresLatest(p, w, published, now, random);
    RestartFinds(p, w, now, random);
    RestartEmpties(p, w, now, random);
    StepKeepsSafe(p, w, Restarts(now, random));
    SafeParts(p, w1.tables);
    FaithfulRecord(p, w, published, i);
    var sub := Submission(m.scope, "client", "", "", m.round, 0);
    var iv := seq(Crypto.IV_SIZE, _ => 0);
    s := LoneSubmission(sub, cfg, bytes, iv, WriteFault, now);
    LoneScreened(w1, sub, cfg, bytes, iv, now);
    LoneFills(p, w1, sub, cfg, bytes, iv, WriteFault, now);
    LostVersionMissing(p, w1, published, s, i);
  }

  lemma FaithfulRecord(p: Setup, w: World, published: seq<Vec>, i: nat)
    requires Faithful(p, w, published) && i < |published|
    ensures |published| == |w.tables.models|
    ensures var m := w.tables.models[i]; m.path == RoundKey(m.scope, m.round) && Normalized(m.scope) == m.scope
  {
  }

  lemma MissingFile(p: Setup, w: World, m: ModelRecord, i: nat)
    requires i < |w.tables.models| && m == w.tables.models[i] && Normalized(m.scope) == m.scope && m.version >= 1
    requires FindVersion(w.tables.models, m.scope, m.version) == i && m.path !in w.files
    ensures RollBack(p, w, m.scope, m.version).reply == CheckpointMissing
  {
    hide FindVersion, Deactivate;
  }
}
