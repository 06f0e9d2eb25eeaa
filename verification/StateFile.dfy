/** The JSON image of the tables: what SaveLocked writes and Load reads back. */
module StateFile {
  import opened Records

  datatype Field = ActiveKeyVersion | CompletedRounds | TotalSubmissions | Models | TrainingJobs | Assignments
    | JobId | TenantId | ModelId | DatasetId | TargetRounds | PlannedClients | MinClientsPerRound
    | AssignmentTtl | StatusField | CurrentRound | ActiveModelVersion | CreatedAt | ActivatedAt | Notes
    | AssignmentId | ClientId | RoundIndex | BaseModelVersion | IssuedAt | ExpiresAt | UpdatedAt | Detail
    | Version | LatestRound | CheckpointPath | AggregationStrategy | KeyVersion | ClientCount
    | WeightDimension | ActiveFlag

  datatype Json = JInt(n: int) | JText(s: string) | JBool(b: bool) | JPath(p: RoundKey) | JArray(items: seq<Json>)
    | JObject(fields: map<Field, Json>)
    | JBroken // text that does not parse

  // ----- j.value(key, default) -----

  function IntAt(j: Json, f: Field, default: int): int {
    if j.JObject? && f in j.fields && j.fields[f].JInt? then j.fields[f].n else default
  }

  function TimeAt(j: Json, f: Field, default: Time): Time {
    var n := IntAt(j, f, default);
    if n < 0 then default else n
  }

  function TextAt(j: Json, f: Field, default: string): string {
    if j.JObject? && f in j.fields && j.fields[f].JText? then j.fields[f].s else default
  }

  function BoolAt(j: Json, f: Field, default: bool): bool {
    if j.JObject? && f in j.fields && j.fields[f].JBool? then j.fields[f].b else default
  }

  function PathAt(j: Json, f: Field): RoundKey {
    if j.JObject? && f in j.fields && j.fields[f].JPath? then j.fields[f].p else RoundKey(Scope("", ""), -1)
  }

  function ItemsAt(j: Json, f: Field): seq<Json> {
    if j.JObject? && f in j.fields && j.fields[f].JArray? then j.fields[f].items else []
  }

  // ----- Status names -----

  function JobStatusName(s: JobStatus): string {
    match s
    case Planned => "planned"
    case Running => "running"
    case Superseded => "superseded"
    case Completed => "completed"
  }

  function JobStatusOf(s: string): JobStatus {
    if s == "planned" then Planned else if s == "running" then Running
    else if s == "superseded" then Superseded else Completed
  }

  function LeaseStatusName(s: LeaseStatus): string {
    match s case Leased => "leased" case Submitted => "submitted" case Expired => "expired" case Missed => "missed"
            case Aggregated => "aggregated"
  }

  function LeaseStatusOf(s: string): LeaseStatus {
    if s == "leased" then Leased else if s == "submitted" then Submitted else if s == "expired" then Expired
    else if s == "missed" then Missed else Aggregated
  }

  function StrategyName(s: Strategy): string {
    match s case FedAvg => "fedavg" case Krum => "krum" case TrimmedMean => "trimmed_mean"
  }

  function StrategyOf(s: string): Strategy {
    if s == "krum" then Krum else if s == "trimmed_mean" then TrimmedMean else FedAvg
  }

  lemma NamesRead(j: JobStatus, l: LeaseStatus, s: Strategy)
    ensures JobStatusOf(JobStatusName(j)) == j && LeaseStatusOf(LeaseStatusName(l)) == l
      && StrategyOf(StrategyName(s)) == s
  {
  }

  // ----- Records -----

  function SaveJob(j: Job): Json {
    JObject(map[JobId := JText(j.id), TenantId := JText(j.scope.tenant), ModelId := JText(j.scope.model),
                DatasetId := JText(j.dataset), TargetRounds := JInt(j.targetRounds),
                PlannedClients := JInt(j.plannedClients), MinClientsPerRound := JInt(j.minClients),
                AssignmentTtl := JInt(j.ttl), StatusField := JText(JobStatusName(j.status)),
                CurrentRound := JInt(j.currentRound), CompletedRounds := JInt(j.completedRounds),
                ActiveModelVersion := JInt(j.modelVersion), CreatedAt := JInt(j.createdAt),
                ActivatedAt := JInt(j.activatedAt), Notes := JText(j.notes)])
  }

  function LoadJob(j: Json, now: Time): Job {
    Job(TextAt(j, JobId, ""), Normalized(Scope(TextAt(j, TenantId, ""), TextAt(j, ModelId, ""))),
        TextAt(j, DatasetId, ""), IntAt(j, TargetRounds, 0), IntAt(j, PlannedClients, 0),
        IntAt(j, MinClientsPerRound, 0), IntAt(j, AssignmentTtl, 120),
        JobStatusOf(TextAt(j, StatusField, "planned")), IntAt(j, CurrentRound, 1), IntAt(j, CompletedRounds, 0),
        IntAt(j, ActiveModelVersion, 0), TimeAt(j, CreatedAt, now), TimeAt(j, ActivatedAt, 0), TextAt(j, Notes, ""))
  }

  function SaveAssignment(a: Assignment): Json {
    JObject(map[AssignmentId := JText(a.id), JobId := JText(a.jobId), TenantId := JText(a.scope.tenant),
                ModelId := JText(a.scope.model), DatasetId := JText(a.dataset), ClientId := JText(a.client),
                RoundIndex := JInt(a.round), BaseModelVersion := JInt(a.baseVersion),
                StatusField := JText(LeaseStatusName(a.status)), IssuedAt := JInt(a.issuedAt),
                ExpiresAt := JInt(a.expiresAt), UpdatedAt := JInt(a.updatedAt), Detail := JText(a.detail)])
  }

  function LoadAssignment(j: Json): Assignment {
    Assignment(TextAt(j, AssignmentId, ""), TextAt(j, JobId, ""),
               Normalized(Scope(TextAt(j, TenantId, ""), TextAt(j, ModelId, ""))), TextAt(j, DatasetId, ""),
               TextAt(j, ClientId, ""), IntAt(j, RoundIndex, 0), IntAt(j, BaseModelVersion, 0),
               LeaseStatusOf(TextAt(j, StatusField, "leased")), TimeAt(j, IssuedAt, 0), TimeAt(j, ExpiresAt, 0),
               TimeAt(j, UpdatedAt, 0), TextAt(j, Detail, ""))
  }

  function SaveModel(m: ModelRecord): Json {
    JObject(map[TenantId := JText(m.scope.tenant), ModelId := JText(m.scope.model), Version := JInt(m.version),
                LatestRound := JInt(m.round), CheckpointPath := JPath(m.path),
                AggregationStrategy := JText(StrategyName(m.strategy)), KeyVersion := JInt(m.keyVersion),
                ClientCount := JInt(m.clientCount), WeightDimension := JInt(m.dimension),
                ActiveFlag := JBool(m.active), CreatedAt := JInt(m.createdAt)])
  }

  function LoadModel(j: Json, now: Time): ModelRecord {
    ModelRecord(Normalized(Scope(TextAt(j, TenantId, ""), TextAt(j, ModelId, ""))), IntAt(j, Version, 0),
                IntAt(j, LatestRound, -1), PathAt(j, CheckpointPath),
                StrategyOf(TextAt(j, AggregationStrategy, "fedavg")), IntAt(j, KeyVersion, 1),
                IntAt(j, ClientCount, 0), IntAt(j, WeightDimension, 0), BoolAt(j, ActiveFlag, false),
                TimeAt(j, CreatedAt, now))
  }

  function SaveJobs(s: seq<Job>): seq<Json> {
    seq(|s|, i requires 0 <= i < |s| => SaveJob(s[i]))
  }

  function SaveAssignments(s: seq<Assignment>): seq<Json> {
    seq(|s|, i requires 0 <= i < |s| => SaveAssignment(s[i]))
  }

  function SaveModels(s: seq<ModelRecord>): seq<Json> {
    seq(|s|, i requires 0 <= i < |s| => SaveModel(s[i]))
  }

  function Save(t: Tables): Json {
    JObject(map[CompletedRounds := JInt(t.completedRounds), TotalSubmissions := JInt(t.totalSubmissions),
                ActiveKeyVersion := JInt(t.activeKeyVersion), Models := JArray(SaveModels(t.models)),
                TrainingJobs := JArray(SaveJobs(t.jobs)), Assignments := JArray(SaveAssignments(t.assignments))])
  }

  /** Load before it expires leases: the records as the file has them. */
  function Read(j: Json, now: Time): Tables {
    var js, az, ms := ItemsAt(j, TrainingJobs), ItemsAt(j, Assignments), ItemsAt(j, Models);
    Tables(seq(|js|, i requires 0 <= i < |js| => LoadJob(js[i], now)),
           seq(|az|, i requires 0 <= i < |az| => LoadAssignment(az[i])),
           seq(|ms|, i requires 0 <= i < |ms| => LoadModel(ms[i], now)),
           IntAt(j, CompletedRounds, 0), IntAt(j, TotalSubmissions, 0), IntAt(j, ActiveKeyVersion, 1))
  }

  /** Every scope names a tenant and a model, as the store's own writes guarantee. */
  ghost predicate ScopesNamed(t: Tables) {
    && (forall i :: 0 <= i < |t.jobs| ==> Normalized(t.jobs[i].scope) == t.jobs[i].scope)
    && (forall i :: 0 <= i < |t.assignments| ==> Normalized(t.assignments[i].scope) == t.assignments[i].scope)
    && (forall i :: 0 <= i < |t.models| ==> Normalized(t.models[i].scope) == t.models[i].scope)
  }

  lemma JobRoundTrip(j: Job, now: Time)
    ensures LoadJob(SaveJob(j), now) == j.(scope := Normalized(j.scope))
  {
    hide JobStatusName, JobStatusOf, Normalized, IntAt, TextAt, TimeAt, LoadJob, SaveJob;
    NamesRead(j.status, Leased, FedAvg);
    JobTexts(j);
    JobNumbers(j, now);
    LoadJobIs(SaveJob(j), now);
  }

  lemma LoadJobIs(f: Json, now: Time)
    ensures LoadJob(f, now) ==
      Job(TextAt(f, JobId, ""), Normalized(Scope(TextAt(f, TenantId, ""), TextAt(f, ModelId, ""))),
        TextAt(f, DatasetId, ""), IntAt(f, TargetRounds, 0), IntAt(f, PlannedClients, 0),
        IntAt(f, MinClientsPerRound, 0), IntAt(f, AssignmentTtl, 120),
        JobStatusOf(TextAt(f, StatusField, "planned")), IntAt(f, CurrentRound, 1), IntAt(f, CompletedRounds, 0),
        IntAt(f, ActiveModelVersion, 0), TimeAt(f, CreatedAt, now), TimeAt(f, ActivatedAt, 0), TextAt(f, Notes, ""))
  {
  }

  lemma JobTexts(j: Job)
    ensures var f := SaveJob(j);
      TextAt(f, JobId, "") == j.id && TextAt(f, TenantId, "") == j.scope.tenant
        && TextAt(f, ModelId, "") == j.scope.model
      && TextAt(f, DatasetId, "") == j.dataset && TextAt(f, Notes, "") == j.notes
      && TextAt(f, StatusField, "planned") == JobStatusName(j.status)
  {
    hide JobStatusName;
  }

  lemma JobNumbers(j: Job, now: Time)
    ensures var f := SaveJob(j);
      IntAt(f, TargetRounds, 0) == j.targetRounds && IntAt(f, PlannedClients, 0) == j.plannedClients
      && IntAt(f, MinClientsPerRound, 0) == j.minClients && IntAt(f, AssignmentTtl, 120) == j.ttl
      && IntAt(f, CurrentRound, 1) == j.currentRound && IntAt(f, CompletedRounds, 0) == j.completedRounds
      && IntAt(f, ActiveModelVersion, 0) == j.modelVersion
      && TimeAt(f, CreatedAt, now) == j.createdAt && TimeAt(f, ActivatedAt, 0) == j.activatedAt
  {
    hide JobStatusName;
  }

  lemma AssignmentRoundTrip(a: Assignment)
    ensures LoadAssignment(SaveAssignment(a)) == a.(scope := Normalized(a.scope))
  {
    hide LeaseStatusName, LeaseStatusOf;
    NamesRead(Planned, a.status, FedAvg);
  }

  lemma ModelRoundTrip(m: ModelRecord, now: Time)
    ensures LoadModel(SaveModel(m), now) == m.(scope := Normalized(m.scope))
  {
    hide StrategyName, StrategyOf;
    NamesRead(Planned, Leased, m.strategy);
  }

  /** What a record with no fields at all loads as: the defaults. */
  lemma MissingFields(now: Time)
    ensures LoadJob(JObject(map[]), now)
      == Job("", Scope("default-tenant", "default-model"), "", 0, 0, 0, 120, Planned, 1, 0, 0, now, 0, "")
    ensures LoadAssignment(JObject(map[]))
      == Assignment("", "", Scope("default-tenant", "default-model"), "", "", 0, 0, Leased, 0, 0, 0, "")
    ensures LoadModel(JObject(map[]), now)
      == ModelRecord(Scope("default-tenant", "default-model"), 0, -1, RoundKey(Scope("", ""), -1), FedAvg, 1, 0, 0,
                     false,
                     now)
    ensures Read(JObject(map[]), now) == EMPTY_TABLES
  {
  }

  /** Loading what was saved recovers every record exactly when every record names its scope. */
  lemma ReadInvertsSave(t: Tables, now: Time)
    ensures Read(Save(t), now) == t <==> ScopesNamed(t)
  {
    hide LoadJob, SaveJob, LoadAssignment, SaveAssignment, LoadModel, SaveModel;
    var r := Read(Save(t), now);
    assert r.completedRounds == t.completedRounds && r.totalSubmissions == t.totalSubmissions
      && r.activeKeyVersion == t.activeKeyVersion;
    assert |r.jobs| == |t.jobs| && |r.assignments| == |t.assignments| && |r.models| == |t.models|;
    forall i | 0 <= i < |t.jobs| ensures r.jobs[i] == t.jobs[i].(scope := Normalized(t.jobs[i].scope)) {
      JobRoundTrip(t.jobs[i], now);
    }
    forall i | 0 <= i < |t.assignments|
      ensures r.assignments[i] == t.assignments[i].(scope := Normalized(t.assignments[i].scope)) {
      AssignmentRoundTrip(t.assignments[i]);
    }
    forall i | 0 <= i < |t.models| ensures r.models[i] == t.models[i].(scope := Normalized(t.models[i].scope)) {
      ModelRoundTrip(t.models[i], now);
    }
  }
}
