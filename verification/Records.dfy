/** The persisted records of the control plane, and the state file they are saved to. */
module Records {
  import opened Basics

  datatype Scope = Scope(tenant: string, model: string)

  /** Empty identifiers stand for the default tenant and model. */
  function Normalized(s: Scope): Scope {
    Scope(if s.tenant == "" then "default-tenant" else s.tenant,
          if s.model == "" then "default-model" else s.model)
  }

  datatype RoundKey = RoundKey(scope: Scope, round: int)

  function NormalizedKey(key: RoundKey): RoundKey {
    RoundKey(Normalized(key.scope), key.round)
  }

  /** Milliseconds; 0 is the empty timestamp, which sorts before every reading of the clock. */
  type Time = nat

  function AfterSeconds(now: Time, seconds: int): Time {
    now + 1000 * Max(0, seconds)
  }

  datatype JobStatus = Planned | Running | Superseded | Completed

  datatype Job = Job(id: string, scope: Scope, dataset: string, targetRounds: int, plannedClients: int,
                     minClients: int, ttl: int, status: JobStatus, currentRound: int, completedRounds: int,
                     modelVersion: int, createdAt: Time, activatedAt: Time, notes: string)

  predicate IsActive(j: Job) {
    j.status == Planned || j.status == Running
  }

  datatype LeaseStatus = Leased | Submitted | Expired | Missed | Aggregated

  datatype Assignment = Assignment(id: string, jobId: string, scope: Scope, dataset: string, client: string,
                                   round: int, baseVersion: int, status: LeaseStatus, issuedAt: Time,
                                   expiresAt: Time, updatedAt: Time, detail: string)

  datatype Strategy = FedAvg | Krum | TrimmedMean

  /** A stored model; its checkpoint path is determined by scope and round. */
  datatype ModelRecord = ModelRecord(scope: Scope, version: int, round: int, path: RoundKey, strategy: Strategy,
                                     keyVersion: int, clientCount: int, dimension: int, active: bool, createdAt: Time)

  datatype Tables = Tables(jobs: seq<Job>, assignments: seq<Assignment>, models: seq<ModelRecord>,
                           completedRounds: int, totalSubmissions: int, activeKeyVersion: int)

  const EMPTY_TABLES := Tables([], [], [], 0, 0, 1)
}
