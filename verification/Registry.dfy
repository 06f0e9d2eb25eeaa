/** The model registry: versions in order, one active model, nothing else touched. */
module Registry {
  import opened Records
  import opened StateStore

  /** The versions recorded for a scope, in order. */
  ghost function Versions(models: seq<ModelRecord>, scope: Scope): seq<int> {
    if |models| == 0 then []
    else
      var rest, m := Versions(models[..|models| - 1], scope), models[|models| - 1];
      if m.scope == scope then rest + [m.version] else rest
  }

  ghost function ActiveCount(models: seq<ModelRecord>, scope: Scope): nat {
    if |models| == 0 then 0
    else
      var rest, m := ActiveCount(models[..|models| - 1], scope), models[|models| - 1];
      if m.scope == scope && m.active then rest + 1 else rest
  }

  /** 1, 2, 3, ... */
  ghost predicate CountsUp(s: seq<int>) {
    forall i :: 0 <= i < |s| ==> s[i] == i + 1
  }

  /** Each scope's versions are 1..k in the order they were recorded, one of them is active if there is any,
      and the count of completed rounds is the number of models. */
  ghost predicate RegistryOk(t: Tables) {
    && t.completedRounds == |t.models|
    && (forall s: Scope ::
          CountsUp(Versions(t.models, s))
          && ActiveCount(t.models, s) == (if Versions(t.models, s) == [] then 0 else 1))
  }

  /** The active version is that of the first active record of the scope, and 0 if it has none. */
  lemma {:induction false} ActiveVersionIs(models: seq<ModelRecord>, scope: Scope, k: nat)
    requires k <= |models| && forall j :: 0 <= j < k ==> !(models[j].scope == scope && models[j].active)
    requires k < |models| ==> models[k].scope == scope && models[k].active
    ensures ActiveVersion(models, scope) == if k < |models| then models[k].version else 0
    decreases |models|
  {
    if k > 0 {
      ActiveVersionIs(models[1..], scope, k - 1);
    }
  }

  /** The next version is above every one of the scope, and the least such that is at least 1. */
  lemma {:induction false} NextVersionIs(models: seq<ModelRecord>, scope: Scope)
    ensures var v := NextVersion(models, scope);
      && v >= 1 && (forall k :: 0 <= k < |models| && models[k].scope == scope ==> models[k].version < v)
      && (v == 1 || exists k :: 0 <= k < |models| && models[k].scope == scope && models[k].version + 1 == v)
  {
    if |models| > 0 {
      var p := models[..|models| - 1];
      NextVersionIs(p, scope);
      forall k | 0 <= k < |p| ensures p[k] == models[k] { }
    }
  }

  lemma {:induction false} NextAfterVersions(models: seq<ModelRecord>, scope: Scope)
    requires CountsUp(Versions(models, scope))
    ensures NextVersion(models, scope) == |Versions(models, scope)| + 1
  {
    if |models| > 0 {
      var p, v := models[..|models| - 1], Versions(models, scope);
      var w := Versions(p, scope);
      assert w == v || w == v[..|v| - 1];
      assert CountsUp(w);
      NextAfterVersions(p, scope);
      if models[|models| - 1].scope == scope {
        assert v[|w|] == models[|models| - 1].version == |w| + 1;
      }
    }
  }

  lemma {:induction false} DeactivateCounts(models: seq<ModelRecord>, scope: Scope, s: Scope)
    ensures Versions(Deactivate(models, scope), s) == Versions(models, s)
    ensures ActiveCount(Deactivate(models, scope), s) == (if s == scope then 0 else ActiveCount(models, s))
  {
    if |models| > 0 {
      var p := models[..|models| - 1];
      DeactivateCounts(p, scope, s);
      assert Deactivate(models, scope)[..|models| - 1] == Deactivate(p, scope);
    }
  }

  lemma PushCounts(models: seq<ModelRecord>, m: ModelRecord, s: Scope)
    ensures Versions(models + [m], s) == if m.scope == s then Versions(models, s) + [m.version] else Versions(models, s)
    ensures ActiveCount(models + [m], s) == ActiveCount(models, s) + if m.scope == s && m.active then 1 else 0
  {
    assert (models + [m])[..|models|] == models;
  }

  /** Recording a model appends the next version and makes it the active one. */
  lemma RecordKeepsRegistry(t: Tables, scope: Scope, round: int, path: RoundKey, strategy: Strategy, keyVersion: int,
                            clientCount: int, dimension: int, now: Time)
    requires RegistryOk(t)
    ensures var e := RecordModel(t, scope, round, path, strategy, keyVersion, clientCount, dimension, now);
      && RegistryOk(e.tables) && e.result == |Versions(t.models, scope)| + 1
      && Versions(e.tables.models, scope) == Versions(t.models, scope) + [e.result]
      && (forall s :: s != scope ==> Versions(e.tables.models, s) == Versions(t.models, s))
    ensures var e := RecordModel(t, scope, round, path, strategy, keyVersion, clientCount, dimension, now);
      var n, version := |t.models|, |Versions(t.models, scope)| + 1;
      && e.saved && |e.tables.models| == n + 1
      && e.tables.models[n]
        == ModelRecord(scope, version, round, path, strategy, keyVersion, clientCount, dimension, true, now)
      && (forall k :: 0 <= k < n ==>
            e.tables.models[k] == if t.models[k].scope == scope then t.models[k].(active := false) else t.models[k])
      && e.tables == t.(models := e.tables.models, completedRounds := n + 1)
  {
    var e := RecordModel(t, scope, round, path, strategy, keyVersion, clientCount, dimension, now);
    var m := e.tables.models[|t.models|];
    NextAfterVersions(t.models, scope);
    forall s: Scope
      ensures Versions(e.tables.models, s) == if s == scope then Versions(t.models, s) + [e.result]
        else Versions(t.models, s)
      ensures ActiveCount(e.tables.models, s) == if s == scope then 1 else ActiveCount(t.models, s)
    {
      DeactivateCounts(t.models, scope, s);
      PushCounts(Deactivate(t.models, scope), m, s);
    }
  }

  lemma {:induction false} ActivateOne(models: seq<ModelRecord>, i: nat, s: Scope)
    requires i < |models| && !models[i].active
    ensures Versions(models[i := models[i].(active := true)], s) == Versions(models, s)
    ensures ActiveCount(models[i := models[i].(active := true)], s) == ActiveCount(models, s) + if models[i].scope == s
      then 1 else 0
    decreases |models|
  {
    var n, r := |models| - 1, models[i := models[i].(active := true)];
    if i < n {
      ActivateOne(models[..n], i, s);
      assert r[..n] == models[..n][i := models[i].(active := true)];
    } else {
      assert r[..n] == models[..n];
    }
  }

  lemma {:induction false} FoundHasVersion(models: seq<ModelRecord>, i: nat, scope: Scope)
    requires i < |models| && models[i].scope == scope
    ensures Versions(models, scope) != []
    decreases |models|
  {
    if i < |models| - 1 {
      FoundHasVersion(models[..|models| - 1], i, scope);
    }
  }

  ghost predicate IsActiveVersion(m: ModelRecord, scope: Scope, version: int) {
    m.scope == scope && m.version == version && m.active
  }

  /** Rolling back only moves the active mark within the scope; without such a version it changes nothing. */
  lemma RollbackKeepsRegistry(t: Tables, scope: Scope, version: int)
    requires RegistryOk(t)
    ensures var e := Rollback(t, scope, version);
      && RegistryOk(e.tables)
      && (e.result.None? <==>
          forall k :: 0 <= k < |t.models| ==> !(t.models[k].scope == scope && t.models[k].version == version))
      && (e.result.None? ==> e.tables == t && !e.saved)
      && (e.result.Some? ==> IsActiveVersion(e.result.value, scope, version) && e.result.value in e.tables.models)
      && |e.tables.models| == |t.models|
      && (forall k :: 0 <= k < |t.models| ==>
            e.tables.models[k] == if t.models[k].scope != scope then t.models[k]
                                  else t.models[k].(active := if e.result.Some? then k
                                                    == FindVersion(t.models, scope, version) else t.models[k].active))
  {
    var i := FindVersion(t.models, scope, version);
    if i < |t.models| {
      var d := Deactivate(t.models, scope);
      assert d[i] == t.models[i].(active := false);
      var r := Rollback(t, scope, version).tables;
      assert r.models == d[i := d[i].(active := true)];
      FoundHasVersion(t.models, i, scope);
      forall s: Scope
        ensures Versions(r.models, s) == Versions(t.models, s)
        ensures ActiveCount(r.models, s) == if s == scope then 1 else ActiveCount(t.models, s)
      {
        DeactivateCounts(t.models, scope, s);
        ActivateOne(d, i, s);
      }
      assert r.models[i] in r.models;
    }
  }

  lemma {:induction false} ActiveVersionFound(models: seq<ModelRecord>, scope: Scope, i: nat)
    requires i < |models| && models[i].scope == scope && models[i].active
    requires forall k :: 0 <= k < i ==> !(models[k].scope == scope && models[k].active)
    ensures ActiveVersion(models, scope) == models[i].version
  {
    if i > 0 {
      ActiveVersionFound(models[1..], scope, i - 1);
    }
  }

  // ----- Runs -----

  datatype RegistryOp = Recorded(scope: Scope, round: int, path: RoundKey, strategy: Strategy, keyVersion: int,
                                 clients: int, dimension: int, now: Time)
                      | RolledBack(scope: Scope, version: int)

  ghost function Do(t: Tables, op: RegistryOp): Tables {
    match op
    case Recorded(s, r, p, g, k, c, d, now) => RecordModel(t, s, r, p, g, k, c, d, now).tables
    case RolledBack(s, v) => Rollback(t, s, v).tables
  }

  ghost function After(ops: seq<RegistryOp>): Tables {
    if |ops| == 0 then EMPTY_TABLES else Do(After(ops[..|ops| - 1]), ops[|ops| - 1])
  }

  /** After any interleaving of recordings and rollbacks the registry is in order, and a scope has exactly as many
      versions as models recorded for it: numbers are never reused. */
  lemma {:induction false} RegistryAlwaysOk(ops: seq<RegistryOp>, scope: Scope)
    ensures RegistryOk(After(ops))
    ensures |Versions(After(ops).models, scope)| == RecordedFor(ops, scope)
  {
    if |ops| > 0 {
      var p := ops[..|ops| - 1];
      RegistryAlwaysOk(p, scope);
      match ops[|ops| - 1]
      case Recorded(s, r, path, g, k, c, d, now) =>
        RecordKeepsRegistry(After(p), s, r, path, g, k, c, d, now);
      case RolledBack(s, v) =>
        RollbackKeepsRegistry(After(p), s, v);
        SameVersions(After(p), s, v, scope);
    }
  }

  ghost function RecordedFor(ops: seq<RegistryOp>, scope: Scope): nat {
    if |ops| == 0 then 0
    else
      var rest, op := RecordedFor(ops[..|ops| - 1], scope), ops[|ops| - 1];
      if op.Recorded? && op.scope == scope then rest + 1 else rest
  }

  lemma SameVersions(t: Tables, scope: Scope, version: int, s: Scope)
    ensures Versions(Rollback(t, scope, version).tables.models, s) == Versions(t.models, s)
  {
    var i := FindVersion(t.models, scope, version);
    if i < |t.models| {
      DeactivateCounts(t.models, scope, s);
      var d := Deactivate(t.models, scope);
      assert d[i] == t.models[i].(active := false);
      ActivateOne(d, i, s);
    }
  }

  // ----- Finding versions -----

  lemma {:induction false} VersionIsPosition(models: seq<ModelRecord>, scope: Scope, i: nat)
    requires i < |models| && models[i].scope == scope && CountsUp(Versions(models, scope))
    ensures models[i].version == |Versions(models[..i + 1], scope)| >= 1
    decreases |models|
  {
    var n, v := |models| - 1, Versions(models, scope);
    var w := Versions(models[..n], scope);
    assert w == v || w == v[..|v| - 1];
    if i < n {
      VersionIsPosition(models[..n], scope, i);
      assert models[..n][..i + 1] == models[..i + 1];
    } else {
      assert models[..i + 1] == models;
      assert v[|w|] == models[n].version;
    }
  }

  lemma {:induction false} VersionsGrow(models: seq<ModelRecord>, scope: Scope, i: nat, j: nat)
    requires i <= j <= |models|
    ensures |Versions(models[..i], scope)| <= |Versions(models[..j], scope)|
    decreases j - i
  {
    if i < j {
      VersionsGrow(models, scope, i, j - 1);
      assert models[..j][..j - 1] == models[..j - 1];
    }
  }

  /** A record is found under its own version. */
  lemma RecordFound(models: seq<ModelRecord>, i: nat)
    requires i < |models| && CountsUp(Versions(models, models[i].scope))
    ensures FindVersion(models, models[i].scope, models[i].version) == i && models[i].version >= 1
  {
    var scope := models[i].scope;
    var r := FindVersion(models, scope, models[i].version);
    VersionIsPosition(models, scope, i);
    assert models[..i + 1][..i] == models[..i];
    if r < i {
      VersionIsPosition(models, scope, r);
      VersionsGrow(models, scope, r + 1, i);
    }
  }
}
