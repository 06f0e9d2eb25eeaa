# A model of the PQ-FL server

PQ-FL is a federated-learning server. Clients train on their own data and send encrypted weight vectors; the server
collects them round by round, aggregates them under a Byzantine-robust rule, persists an encrypted checkpoint of every
model, and streams the result back. A control plane hands out leases on the rounds of training jobs and keeps a ledger
of who submitted what. This project models that server in Dafny and proves what its parts keep, and what they keep
together, over every run.

The modules follow the program:

- `Vectors`, `Sums`, `Sorting`: squared norms, sums over sets, sorting, and least sums over subsets of a given size.
- `Aggregation`, `Krum`: validation, FedAvg, Trimmed-Mean and Krum, as loops over maps, matrices and arrays, and their
  robustness.
- `WeightBuffer`, `RoundBuffer`, `Attempts`, `Momentum`: the round buffer and one aggregation attempt (clip, wait,
  validate, aggregate, smooth, add noise, clip again, persist, publish, or take back), with what it does spelled out for
  its caller; the round protocol; bounds on norms and on the optimizer's velocity.
- `Records`, `StateFile`, `StateStore`, `Ledger`, `Decisions`, `Registry`, `Recovery`: the persisted tables, their file,
  every store call, what each decides, and what calls keep of jobs, leases and model versions; crash recovery.
- `Crypto`, `SessionContext`, `ScopeKeys`: versioned blobs over key rotations and restarts;
  the encoding fed to the MAC; the text of round keys.
- `StreamCall`: the asynchronous stream call driven by completion-queue events.
- `FederatedService`, `Steps`: the whole server, in memory and on disk, as a state machine of submissions, leases, new
  jobs, rollbacks, key rotations and restarts, with its classes. A restart knows only what is on disk.
- `Persistence`, `ControlPlane`, `Consistency`, `Lineage`, `Progress`, `Checkpoints`, `InForce`, `ServerMomentum`,
  `Crashes`: the theorems that cross the buffer, the ledger, the keys and the three things on disk, over every run.
- `Handler`: what the handlers decide and answer, spelled out for their callers.
- `LoneClient`, `Scenarios`, `Reached`: the submissions of the counterexamples, their steps, and the runs from a first
  start that reach them.

Each class has the fields of the original, and each of its methods is proved against a function on values (`View`,
`State` and `Keys` give the value); the lemmas about runs are about those functions. What such a function computes is
also said without it, in terms of what a caller sees: by `Attempts`, `Decisions`, `Handler` and, for instance,
`Aggregation.FedAvgWeighs`, `Krum.KrumChooses`, `WeightBuffer.ClipExactly`, `Crypto.LoadsExactly` and
`StreamCall.StreamAnswers`.

## Assumptions

- Floats are reals and sample counts are mathematical integers. `sqrt` is any function that returns the non-negative
  root of a non-negative number, the noise is any vector, and finiteness of a coordinate is any predicate. Krum's
  largest float as a first best score is "no score yet".
- A checkpoint holds bytes that read back to the same vector for vectors of floats (`Checkpoints.Floats`); runs assume
  it of the vectors they publish.
- The cipher is any pair of functions in which opening inverts sealing under one key (`Crypto.IsAead`), and the MAC is
  any function.
- Scopes are pairs of tenant and model. The original joins them with `::` although identifiers may contain colons;
  `ScopeKeys` says when the joined text stands for the pair.
- Every store call is one step, since each holds the store's mutex, and so is the `SubmitWeights` handler, since
  `HandleRpcs` serialises handlers. Rollback and job creation, which run on other threads, are taken not to interleave
  inside it. A handler reads the clock once; the clock does not go back and is past zero. Times are milliseconds, and
  ids contain their decimal text where the original writes a timestamp.
- Ids given to new jobs are not in use.
- New keys have 32 bytes and IVs 12, and there are fewer rotations than 32-bit key versions.

No other condition is put on runs. Where the code keeps a property only under one, the theorem is an equivalence with a
condition that is known before the call.

## What the proofs found

- A submission's assignment is not compared with the job it names, only that job with the active one. Jobs keep to their
  rounds exactly as long as no submission closes a round other than the job's current or last one
  (`ControlPlane.RunInLockstep`). A lease left behind by a replaced job can (`ControlPlane.ReplacedJobBreaksLockstep`),
  in six steps from a first start (`Reached.LockstepLostInARun`).
- The set of closed rounds lives in memory only, so after a restart the server takes submissions to rounds it has already
  recorded. Recorded versions stay restorable exactly as long as no submission fills such a round, unless the file does
  not open or the same weights are published (`Checkpoints.RunFaithful`, `Checkpoints.SurvivesEveryFault`). Three steps
  from a first start are enough to lose one (`Reached.VersionLostInARun`). What is in force is even then a model some
  round published (`InForce.RunInForce`).
- After a restart submitted weights are gone but their assignments stay submitted. Ledger and buffer agree exactly as
  long as no restart finds an assignment marked (`Consistency.RunAgrees`); when a round closes, exactly those submissions
  went in that the buffer still held (`Consistency.ClosingMarks`), the others are marked all the same
  (`Lineage.RunKeepsLineage`, `Reached.SubmissionLostInARun`).
- A crash inside a submission never breaks the invariants of the tables, but between two of its calls it leaves a
  recorded round that the job still waits for (`Crashes.RecordedNotAdvanced`).
- A job created in a scope whose first round the running process has already closed makes no progress
  (`Progress.NewJobStalls`) until a submission slips in under another job's assignment (`Progress.StalledForever`).
- The configuration accepts a server momentum of one or more, for which the velocity has no bound, whatever the rule
  (`Momentum.MomentumUnbounded`); below one it has (`Momentum.MomentumBounded`).
- The text of a scope key stands for one scope exactly if it can be cut at one separator only
  (`ScopeKeys.KeyIsOneScope`).
- A refused attempt by a client that had already submitted to the round takes its earlier tensor with it
  (`RoundBuffer.FailedAttemptRestores`); the handler's own check for repeated submissions keeps this from happening.
- The branch for a lease found overdue at submission, the completing branch of leasing, and the fallback of
  Trimmed-Mean that keeps everything are never taken.
- The repository's README.md mentions OpenMP and `std::nth_element` for aggregation; the code, and so the model, uses
  plain loops and `std::sort`.

## Model

| member | source | states |
|---|---|---|
| Aggregation.ValidateWeights | server/weight_buffer.cpp:78-108 | The verdict is valid exactly when there are tensors, all non-empty, of one dimension, with finite values; otherwise it names a defect that is there. |
| Aggregation.CountSamples | server/weight_buffer.cpp:116-119 | The sum of the dataset sizes over the whole map, each counted as at least one, in whatever order it is walked. |
| Aggregation.AggFedAvg | server/weight_buffer.cpp:110-138 | The loop computes the mean weighted by dataset size, for any order of the map. |
| Aggregation.SharesSumToOne | server/weight_buffer.cpp:116-130 | The sample factors are non-negative and sum to one: a convex combination. |
| Aggregation.FedAvgWeighs | server/weight_buffer.cpp:110-138 | With every size counted as at least one: the sum of all sizes times a coordinate of the mean is the sum over the clients of size times that coordinate; without sizes it is the plain average. |
| Aggregation.FedAvgNorm | server/weight_buffer.cpp:110-138 | FedAvg of vectors whose squared norm is at most s has squared norm at most s. |
| Aggregation.SortInPlace | server/weight_buffer.cpp:207-211 | The axis is sorted in place: same values, ascending. |
| Aggregation.AverageKept | server/weight_buffer.cpp:213-224 | The average of the entries left after trimming both ends, with the fallback branch when nothing is left. |
| Aggregation.AggTrimmedMean | server/weight_buffer.cpp:193-228 | Every coordinate is the average of the sorted column without its trim lowest and trim highest values, for every order of the clients. |
| Aggregation.AxisOrderIrrelevant | server/weight_buffer.cpp:200-211 | Any two enumerations of the clients give the same sorted column, so map order does not matter. |
| Aggregation.TrimLeavesSome | server/weight_buffer.cpp:198-218 | The trim count is the largest number not above beta times n; for beta below one half twice it is below n, so the start >= end fallback is dead. |
| Aggregation.KeptValueBracketed | server/weight_buffer.cpp:207-224 | A kept value lies between honest bounds as long as no more than trim clients are arbitrary. |
| Aggregation.TrimmedMeanAverages | server/weight_buffer.cpp:193-228 | With t the largest number not above beta times n, and in any order of the clients in which the coordinate ascends, n - 2t times the result is the sum of the values at positions t to n - t; if none are left, n times the result is the sum of all. |
| Aggregation.TrimmedMeanResilient | server/weight_buffer.cpp:193-228 | With at most beta times n arbitrary clients every output coordinate lies between the honest minimum and maximum. |
| Krum.Distance | server/weight_buffer.cpp:164-168 | The inner loop computes the squared distance of two vectors. |
| Krum.FillDistances | server/weight_buffer.cpp:161-173 | The matrix filled above the diagonal and mirrored holds the squared distance of every pair, zero on the diagonal. |
| Krum.SqDistSymmetric | server/weight_buffer.cpp:161-173 | Squared distance is symmetric and non-negative. |
| Krum.NeighbourCount | server/weight_buffer.cpp:157-159 | For n >= 3 the neighbour count is n-f-2 for the f with 2f+3 <= n < 2f+5; it lies in 1..n-2 and is more than f. |
| Krum.RowScore | server/weight_buffer.cpp:177-182 | Entries 1..k of a sorted row sum to the least sum over all k-subsets of the other clients. |
| Krum.ScoreRow | server/weight_buffer.cpp:177-182 | The in-place sort and prefix sum of one row compute that value. |
| Krum.SelectBest | server/weight_buffer.cpp:174-187 | The scan keeps the first client with the least score; with no score yet any score is taken. |
| Krum.EqualSizeMap | server/weight_buffer.cpp:143-146 | Every client gets the same size. |
| Krum.AggKrum | server/weight_buffer.cpp:140-191 | Below three clients it is the unweighted mean; otherwise one of the inputs, of least Krum score. |
| Krum.KrumResilient | server/weight_buffer.cpp:157-190 | For f arbitrary clients with 2f+3 <= n the result is within squared distance (n-(n-3)/2-2)*D of an honest vector, D bounding honest squared distances. |
| Krum.KrumChooses | server/weight_buffer.cpp:157-190 | Of all clients, and all ways to take n-(n-3)/2-2 of the others, the result is the tensor of a client for which the squared distances to those taken add up to the least. |
| Krum.KrumAveragesFew | server/weight_buffer.cpp:140-148 | Below three clients n times the result is the sum of the tensors, whatever the sizes. |
| Krum.SqDistPush | server/weight_buffer.cpp:164-168 | Squared distances add up coordinate by coordinate. |
| Krum.HonestScore | server/weight_buffer.cpp:157-190 | An honest client's score is at most (n-f-2)*D. |
| Krum.HonestNeighbour | server/weight_buffer.cpp:157-190 | A selected client has an honest client within (n-f-2)*D among its nearest neighbours. |
| Sorting.SortedPrefixIsLeastSum | server/weight_buffer.cpp:177-182 | The sum of the m smallest values is least among all m-subsets. |
| Sorting.SortedUnique | server/weight_buffer.cpp:211 | Two sorted arrangements of the same values are equal, so any correct sort computes the same column. |
| WeightBuffer.WeightBuffer.constructor | server/weight_buffer.hpp:98-104 | A new buffer is empty: no tensors, no closed round, no model, no velocity. |
| WeightBuffer.WeightBuffer.ClipWeights | server/weight_buffer.cpp:38-51 | In place, the vector becomes its clipped version. |
| WeightBuffer.ClipNorm | server/weight_buffer.cpp:38-51 | Clipping to c > 0 leaves a norm of at most c. |
| WeightBuffer.ClipIdentity | server/weight_buffer.cpp:38-51 | Clipping changes nothing exactly when the norm was at most c already. |
| WeightBuffer.ClipExactly | server/weight_buffer.cpp:38-51 | The clipped vector is the one that keeps the direction and has norm exactly c where the norm exceeds a positive c, and the vector itself otherwise. |
| WeightBuffer.WeightBuffer.ApplyDifferentialPrivacy | server/weight_buffer.cpp:53-76 | In place, noise is added to every coordinate and the result is clipped again, unless privacy is off or there are no clients. |
| WeightBuffer.WeightBuffer.RemoveSubmissionLocked | server/weight_buffer.cpp:19-36 | The client leaves both maps of the round, and a round left empty leaves them too. |
| WeightBuffer.WeightBuffer.ApplyMomentum | server/weight_buffer.cpp:296-313 | Velocity becomes m times itself plus the step from the latest model; the result is latest plus velocity; without a comparable latest model nothing happens. |
| WeightBuffer.WeightBuffer.Aggregate | server/weight_buffer.cpp:287-294 | The configured rule is applied to the round's tensors. |
| WeightBuffer.WeightBuffer.BufferSubmission | server/weight_buffer.cpp:261-264 | The clipped tensor and the dataset size, at least one, go into the round's maps. |
| WeightBuffer.WeightBuffer.CloseRound | server/weight_buffer.cpp:279-371 | A full round is validated, aggregated, smoothed, made private and persisted; a defect or a fault takes the submission back. |
| WeightBuffer.WeightBuffer.PersistCheckpoint | server/weight_buffer.cpp:319-371 | Each way writing can fail, with what it leaves on disk; on success the blob, the registry record, the latest model and the closed round. |
| WeightBuffer.WeightBuffer.AddWeightAndCheckAggregate | server/weight_buffer.cpp:230-371 | The whole attempt under the normalised key: new buffer state, outcome, checkpoint files and store, over every branch. |
| WeightBuffer.WeightBuffer.IsRoundCompleted | server/weight_buffer.cpp:373-378 | Whether the round is closed. |
| WeightBuffer.WeightBuffer.HasClientSubmission | server/weight_buffer.cpp:380-388 | Whether the client's tensor is held for the round. |
| WeightBuffer.WeightBuffer.CountClients | server/weight_buffer.cpp:389-395 | How many tensors the round holds. |
| WeightBuffer.WeightBuffer.RestoreLatestGlobalModel | server/weight_buffer.cpp:407-414 | The scope's latest model is replaced, nothing else. |
| RoundBuffer.AddEnds | server/weight_buffer.cpp:251-371 | Every attempt is ignored, waits, is taken back or publishes, with the exact state of each. |
| RoundBuffer.AddKeepsMapsAgree | server/weight_buffer.cpp:261-284 | The weight and size maps keep identical rounds and clients and never an empty round. |
| RoundBuffer.WithoutUndoes | server/weight_buffer.cpp:19-36 | Removing a client undoes its buffering exactly when it was not in the round before. |
| RoundBuffer.FailedAttemptRestores | server/weight_buffer.cpp:265-284 | A refused attempt restores closed rounds and latest models, and restores the round's maps exactly when its client was new to the round. |
| RoundBuffer.AddKeepsThreshold | server/weight_buffer.cpp:270-277 | With one threshold, open rounds stay below it and closed ones stand exactly at it. |
| RoundBuffer.ResubmissionOnlyWaits | server/weight_buffer.cpp:261-277 | Under one threshold a client that submitted before can only replace its tensor and wait. |
| RoundBuffer.OtherRoundsFrozen | server/weight_buffer.cpp:253-264 | An attempt touches only its own round, and never a closed one. |
| RoundBuffer.AggregatedOnce | server/weight_buffer.cpp:253-259 | Along any run a round is aggregated once if it ends closed and never otherwise. |
| RoundBuffer.RunKeepsProtocol | server/weight_buffer.cpp:251-284 | From an empty buffer, every run keeps map agreement and the threshold rule. |
| RoundBuffer.PublishedNorm | server/weight_buffer.cpp:296-317 | Every published model has norm at most clip_norm, for every rule, momentum and noise. |
| RoundBuffer.AddKeepsClipped | server/weight_buffer.cpp:261-264 | All buffered tensors stay clipped. |
| RoundBuffer.RawFedAvgNorm | server/weight_buffer.cpp:287-294 | The raw FedAvg of a round already respects the norm. |
| RoundBuffer.RawWithin | server/weight_buffer.cpp:287-294 | Under every rule the raw aggregate's coordinates lie in [-c, c]. |
| Attempts.AttemptHolds | server/weight_buffer.cpp:261-284 | After an attempt on an open round: an accepted one has added the clipped tensor and the size, at least one, to the round and changed no other; a refused one leaves the client out of both maps. |
| Attempts.AttemptEnds | server/weight_buffer.cpp:251-371 | How it ends, by the number of clients, the soundness of their tensors and the fault: it waits, is refused, or closes the round with what the configured rule makes of exactly those tensors; outcome, message, version and stage of each. |
| Attempts.MomentumMoves | server/weight_buffer.cpp:296-313 | Coordinate by coordinate: the velocity is m times itself, or nothing if there is none of that length, plus the way from the latest model; the model moves by it; without a comparable model or momentum nothing happens. |
| Attempts.AttemptPublishes | server/weight_buffer.cpp:296-317 | What is published: the aggregate after that step, and with privacy on the sum with the noise, shrunk to the norm in its own direction if longer. |
| Attempts.ClosedRefuses | server/weight_buffer.cpp:253-259 | A closed round takes nothing more and changes nothing. |
| Momentum.AddKeepsMomentum | server/weight_buffer.cpp:296-313 | One attempt keeps every velocity coordinate within the limit. |
| Momentum.MomentumBounded | server/weight_buffer.cpp:296-313 | For m < 1 and fixed clip norm C, every velocity coordinate stays within 2C/(1-m) over runs of the buffer alone: attempts with every outcome, dimension changes, and restores of models published before. |
| Momentum.MomentumUnbounded | server/weight_buffer.cpp:296-313 | For m >= 1, which the configuration accepts, allowed runs of rounds 1, 2, 3, ... exceed every bound, under every rule. |
| StateFile.JobRoundTrip | server/state_store.cpp:173-193 | A saved job loads as itself. |
| StateFile.AssignmentRoundTrip | server/state_store.cpp:194-212 | A saved assignment loads as itself. |
| StateFile.ModelRoundTrip | server/state_store.cpp:140-156 | A saved model record loads as itself. |
| StateFile.MissingFields | server/state_store.cpp:140-212 | What records and tables without any field load as: the defaults. |
| StateFile.ReadInvertsSave | server/state_store.cpp:100-422 | Reading back what was saved gives the same tables exactly when their scopes are normalised. |
| StateStore.StateStore.constructor | server/state_store.cpp:63-65 | A new store is empty, with key version 1. |
| StateStore.StateStore.SaveLocked | server/state_store.cpp:290-422 | The file becomes the saved form of exactly the tables in memory. |
| StateStore.StateStore.Load | server/state_store.cpp:100-288 | The tables become those of the file with overdue leases expired, or empty if the file does not parse, and are saved again. |
| StateStore.StateStore.ExpireAssignmentsLocked | server/state_store.cpp:81-98 | Exactly the leased assignments with a past expiry become expired. |
| StateStore.StateStore.FindActiveJob | server/state_store.cpp:691-706 | The last active job of the scope, if there is one. |
| StateStore.StateStore.GetActiveTrainingJob | server/state_store.cpp:691-706 | A copy of that job. |
| StateStore.StateStore.GetActiveModelVersion | server/state_store.cpp:1430-1440 | The version of the first active model of the scope, or 0. |
| StateStore.StateStore.RecordWeightSubmission | server/state_store.cpp:465-477 | The submission count goes up by one and is saved. |
| StateStore.StateStore.RecordAggregatedModel | server/state_store.cpp:479-513 | The other models of the scope are deactivated, one with the next version is appended, and the round count goes up. |
| StateStore.StateStore.RollbackModel | server/state_store.cpp:515-550 | The named version becomes the scope's only active one; a missing version changes nothing. |
| StateStore.StateStore.UpdateActiveKeyVersion | server/state_store.cpp:552-564 | The version is noted, and saved only if it changed. |
| StateStore.StateStore.CreateTrainingJob | server/state_store.cpp:640-672 | The new job is appended and every active job of its scope superseded. |
| StateStore.StateStore.LeaseTrainingAssignment | server/state_store.cpp:708-822 | A live lease of the client is returned again; otherwise one is granted while the round has capacity; a planned job starts running. |
| StateStore.StateStore.ValidateTrainingAssignmentSubmission | server/state_store.cpp:824-898 | The verdict of every check in order, on the normalised scope; the tables change by expiry only. |
| StateStore.StateStore.AcceptTrainingAssignmentSubmission | server/state_store.cpp:900-1004 | The same verdict; an accepted assignment becomes submitted and is saved. |
| StateStore.StateStore.AdvanceTrainingJobRound | server/state_store.cpp:1006-1064 | The round's submitted assignments become aggregated, its leased ones missed; the job moves on or completes. |
| Ledger.CreateKeepsJobs | server/state_store.cpp:659-669 | Creating a job keeps ids distinct and at most one active job a scope. |
| Ledger.LeaseKeeps | server/state_store.cpp:708-822 | Leasing keeps at most one lease per job, client and round, and at most the round's capacity. |
| Ledger.WithinPlan | server/state_store.cpp:767-780 | What that capacity is: the leases of a round of a job number at most the planned clients, where any are planned, else those needed, else the default or one. |
| Ledger.LeaseWithinPlan | server/state_store.cpp:708-822 | After leasing no round has more leases out than clients planned for. |
| Ledger.PushKeepsLeases | server/state_store.cpp:743-800 | A lease for a free slot below capacity keeps the lease invariant. |
| Ledger.ValidateKeeps | server/state_store.cpp:824-898 | Validation leaves exactly the expired tables, and keeps the invariants. |
| Ledger.OverdueAlreadyExpired | server/state_store.cpp:836-880 | The branch for a lease found overdue at submission is never taken, in either call. |
| Ledger.AcceptFlipsOne | server/state_store.cpp:937-1000 | With an active job, an accepted submission changes exactly one record, the first of that id, from leased to submitted. |
| Ledger.AcceptKeeps | server/state_store.cpp:900-1004 | Acceptance keeps the job and lease invariants and moves statuses only along their life. |
| Ledger.ValidatedIsAccepted | server/state_store.cpp:824-1004 | Validate and Accept give the same verdict, on the same tables and on any whose jobs and expired assignments are those validation left. |
| Ledger.RepeatRefused | server/state_store.cpp:937-948 | A submission accepted once is refused when repeated while the job stays active. |
| Ledger.AdvanceKeeps | server/state_store.cpp:1006-1064 | Advancing keeps the job and lease invariants and moves statuses only along their life. |
| Ledger.LeaseKeepsLockstep | server/state_store.cpp:723-743 | Leasing keeps lockstep, and its branch that completes a job is dead. |
| Ledger.CreateKeepsLockstep | server/state_store.cpp:640-672 | A job created the way the admin service does starts in step. |
| Ledger.AdvanceKeepsLockstep | server/state_store.cpp:1048-1055 | Advancing keeps lockstep exactly when the round closed is the job's current one or its last. |
| Ledger.ValidatedRoundIsCurrent | server/state_store.cpp:852-890 | If the assignment belongs to the named job, what validates is for the job's current round. |
| Ledger.LiveLeaseValidates | server/state_store.cpp:837-893 | A live lease validates under the active job's id, whichever job it was granted for. |
| Decisions.ExpiryIs | server/state_store.cpp:81-98 | After expiry no lease is overdue, and nothing changed but leases that were: status, stamp and note. |
| Decisions.LeaseAnswers | server/state_store.cpp:708-822 | A job with rounds to go answers with the first live lease of the client for its round; else, if fewer are live than planned (else needed, else default), with a new one of the job's lifetime, all fields given; else with none; a planned job starts. |
| Decisions.LeaseRefused | server/state_store.cpp:716-733 | Without an active job nothing is leased; a job with its rounds done is marked completed instead. |
| Decisions.ValidateAnswers | server/state_store.cpp:824-898 | The verdict is that of the first of seven checks to fail, each written out; accepted if none does. |
| Decisions.AcceptMarksNamed | server/state_store.cpp:900-1004 | Acceptance marks the assignment of that id, which was leased, as submitted, and nothing else. |
| Decisions.AdvanceMoves | server/state_store.cpp:1006-1064 | Closing a round: what was submitted to it is aggregated, what was still leased is missed, the rest stays; the job counts the round, goes to the next, and is completed exactly when it has closed as many as it was to. |
| Decisions.CreateAdds | server/state_store.cpp:640-672 | The new job with each of its fields, its defaults and its id's text; exactly the active jobs of its scope are superseded. |
| Decisions.AssignmentIdIs | server/state_store.cpp:785-786 | The text of an assignment's id. |
| Registry.ActiveVersionIs | server/state_store.cpp:1430-1440 | The active version is that of the first active record of the scope, or 0. |
| Registry.NextVersionIs | server/state_store.cpp:488-494 | The next version is the least number that is at least 1 and above every version of the scope. |
| Registry.NextAfterVersions | server/state_store.cpp:488-494 | The next version is one more than the number of versions so far. |
| Registry.RecordKeepsRegistry | server/state_store.cpp:479-513 | Recording appends a record with the next version and the fields given, makes it the only active one of its scope, and leaves other records alone. |
| Registry.RollbackKeepsRegistry | server/state_store.cpp:515-550 | Rolling back moves only the active mark within the scope; it fails exactly when the version is missing, and then changes nothing. |
| Registry.RegistryAlwaysOk | server/state_store.cpp:479-550 | After any interleaving versions are 1..k, one is active if k > 0, round count and model count agree, and numbers are never reused. |
| Registry.RecordFound | server/state_store.cpp:515-533 | A record is found under its own version and no other record is. |
| Recovery.UnsavedOnlyExpires | server/state_store.cpp:708-1004 | A store call that does not save has changed nothing but overdue leases. |
| Recovery.CallKeepsLag | server/state_store.cpp:81-98 | After every call the file lags memory by leases memory has already expired, and by nothing else. |
| Recovery.RunLags | server/state_store.cpp:81-98 | So it does along every run of calls. |
| Recovery.CrashRecovery | server/state_store.cpp:100-422 | After any run of calls, a crash and a reload at any later time give the tables memory would have at that time, up to the time stamps of expired leases. |
| Crypto.HeaderRoundTrip | server/crypto_engine.cpp:19-31 | The big-endian writer and reader of the version header invert each other on 32 bits. |
| Crypto.VersionedKeyPathInjective | server/crypto_engine.cpp:61-66 | A version's file is named by stem, .v, its number in decimal and extension; distinct versions live in distinct files. |
| Crypto.ListPaths | server/crypto_engine.cpp:72-78 | The registry lists every key held. |
| Crypto.LoadListedKeys | server/crypto_engine.cpp:106-115 | Loading the listed keys succeeds exactly when every valid entry's file is readable, and yields exactly those keys. |
| Crypto.CryptoEngine.SaveKeyRegistry | server/crypto_engine.cpp:68-82 | The registry file lists the active version and all keys held. |
| Crypto.CryptoEngine.LoadOrGenerateKey | server/crypto_engine.cpp:84-153 | From a registry, from a lone master key file, or from nothing: the exact keys and directory that result, and exactly when it fails. |
| Crypto.CryptoEngine.Restart | server/crypto_engine.cpp:84-153 | A restart over the directory an engine left behind comes back with the same keys. |
| Crypto.CryptoEngine.RotateMasterKey | server/crypto_engine.cpp:259-277 | Rotation makes the new key the working one and the next version, keeps the old ones, and writes the new key's file and a registry that lists versions 1 to the new one. |
| Crypto.CryptoEngine.Encrypt | server/crypto_engine.cpp:204-221 | The blob is magic, version, IV, ciphertext and tag. |
| Crypto.CryptoEngine.Decrypt | server/crypto_engine.cpp:223-252 | A versioned blob is opened with the key of its header, any other with the working key. |
| Crypto.BlobRoundTrip | server/crypto_engine.cpp:204-252 | A blob decrypts to its plaintext under every later key state that still holds its key. |
| Crypto.BlobLayout | server/crypto_engine.cpp:204-221 | The bytes of a blob: PQF2, the active version with its highest byte first, the IV, ciphertext and tag under the working key. |
| Crypto.DecryptReads | server/crypto_engine.cpp:223-252 | For any bytes: PQF2 names a version that must be held, and its key opens the rest; anything else of 28 bytes or more is opened with the working key; the offsets of IV, ciphertext and tag. |
| Crypto.LoadsExactly | server/crypto_engine.cpp:84-153 | Exactly which directories load, with or without a registry, and with which keys and files. |
| Crypto.LoadRestores | server/crypto_engine.cpp:84-153 | Loading the directory an engine keeps gives back its very keys and leaves the directory alone. |
| Crypto.FirstLoadOk | server/crypto_engine.cpp:116-144 | A directory without a registry fails to load exactly when its master key file is too short; otherwise version 1 is stored and in use. |
| Crypto.HistoryKeepsKeys | server/crypto_engine.cpp:84-277 | Over every history in which rotations write the directory and restarts know nothing else, every restart loads, versions are 1..active, the working key is the active one, and no key is lost. |
| Crypto.RotationStays | server/crypto_engine.cpp:259-277 | In any history a rotation's key becomes the working one under the next version, and every later state holds it under that version. |
| Crypto.BlobsSurviveHistory | server/crypto_engine.cpp:204-277 | From any first directory that loads, every blob written at any point of any history decrypts at any later point. |
| SessionContext.BuildMacInput | server/crypto_engine.cpp:397-403 | The loop builds the length-prefixed encoding of the parts. |
| SessionContext.MacInputGrows | server/crypto_engine.cpp:397-403 | The text starts pqfl-session-v3 and grows by a bar, the length in decimal, a colon and the part. |
| SessionContext.DeriveSessionKeyWithSecret | server/crypto_engine.cpp:386-418 | The key is the MAC of exactly that encoding. |
| SessionContext.DecodeInvertsEncode | server/crypto_engine.cpp:397-403 | A decoder reads back every list of strings from its encoding. |
| SessionContext.EncodeInvertsDecode | server/crypto_engine.cpp:397-403 | Whatever decodes is the encoding of what it decodes to. |
| SessionContext.MacInputInjective | server/crypto_engine.cpp:397-403 | Two lists share MAC input exactly when they are equal. |
| SessionContext.ContextParts | server/federated_service.cpp:393-712 | What the two contexts name, in which order, with the defaults. |
| SessionContext.SubmitContextsSeparated | server/federated_service.cpp:393-417 | Submit contexts share MAC input exactly when they agree in every part, nonce included. |
| SessionContext.SubmitNeverStream | server/federated_service.cpp:393-712 | No submit context shares MAC input with a stream context. |
| ScopeKeys.RoundKeysSplit | server/federated_helpers.hpp:31-33 | Round keys are equal exactly when scope keys and rounds are. |
| ScopeKeys.KeyTextIs | server/federated_helpers.hpp:27-33 | The text of a round key, part by part. |
| ScopeKeys.KeyIsOneScope | server/federated_helpers.hpp:27-29 | A scope's key stands for that scope alone exactly if it could be cut at one separator only. |
| ScopeKeys.RoundKeysInjective | server/federated_helpers.hpp:27-33 | Among tenants without a colon, round keys are equal exactly when tenant, model and round are. |
| ScopeKeys.ColonsCollide | server/federated_helpers.hpp:27-29 | Whatever the tenant, doubled colons, which identifiers may contain, make two different scopes share a key. |
| StreamCall.StreamGlobalModelCall.constructor | server/federated_service.cpp:714-732 | A new call asks for a request and for the notice of completion. |
| StreamCall.StreamGlobalModelCall.Deliver | server/federated_service.cpp:734-740 | Taking an event off the queue and handling it is one step of the state machine. |
| StreamCall.StreamGlobalModelCall.Proceed | server/federated_service.cpp:734-918 | The handler computes the state machine's next state, branch by branch. |
| StreamCall.StreamGlobalModelCall.FinishCall | server/federated_service.cpp:920-924 | Finishing sets the status and hands out the finish tag. |
| StreamCall.StreamGlobalModelCall.RequestDone | server/federated_service.cpp:926-931 | The notice of completion is asked for once. |
| StreamCall.StreamGlobalModelCall.MaybeDeleteAfterTerminalEvent | server/federated_service.cpp:933-942 | The object is deleted only when nothing is in flight and it is done or finished. |
| StreamCall.StepKeepsInv | server/federated_service.cpp:734-942 | Flags mirror outstanding tags, at most one of write, alarm and finish is in flight, and the object is deleted exactly when no tag is left. |
| StreamCall.NothingStartsAfterDone | server/federated_service.cpp:742-774 | After the client is gone every event only takes tags away and writes nothing. |
| StreamCall.LifeIsSafe | server/federated_service.cpp:734-942 | Over every possible life that holds, and rounds written are above the client's last and differ from one to the next. |
| StreamCall.OnlyAdmittedWritten | server/federated_service.cpp:784-820 | In every possible life, nothing is written, nor the call streamed to, unless the request started with valid identifiers, an authenticated sender and a registered client. |
| StreamCall.StreamAnswers | server/federated_service.cpp:784-918 | At any point of any life: a request not in order is finished; a model newer than what the client had and not the last one written is written, or finishes the call if it cannot be encrypted; with none, the alarm is set; once the client is gone nothing is started. |
| StreamCall.DeletedIsFinal | server/federated_service.cpp:933-942 | No event is possible after deletion: it is deleted once and never used again. |
| StreamCall.DoneDrains | server/federated_service.cpp:933-942 | Once done, the next event deletes the object. |
| FederatedService.Server.constructor | server/federated_service.cpp:19-49 | Over a loaded store and loaded keys, the active models are restored into the empty buffer. |
| FederatedService.Boot | server/main.cpp:182-192 | A process start from disk alone: keys, state file, key version, checkpoints; it fails exactly when the keys do not load. |
| FederatedService.Server.RestorePersistedModels | server/federated_service.cpp:60-91 | Every active model whose checkpoint reads back becomes the latest of its scope; the others are skipped. |
| FederatedService.Server.CheckSubmission | server/federated_service.cpp:445-611 | The handler's checks in order, with the answer each refusal gives and the leases that expired on the way. |
| FederatedService.Server.SubmitWeights | server/federated_service.cpp:437-702 | The whole handler as one step of the server, memory and disk, with its answer. |
| FederatedService.Server.SettleSubmission | server/federated_service.cpp:637-698 | What happens to assignment and job once the buffer has answered. |
| FederatedService.Server.RollbackModel | server/admin_service.cpp:317-385 | The registry moves first; each way the checkpoint cannot be read leaves the buffer behind. |
| FederatedService.Server.RotateAtRestKey | server/admin_service.cpp:387-399 | A rotation changes the keys, the key directory and the version the store notes and saves, nothing else. |
| FederatedService.Server.CreateTrainingJob | server/admin_service.cpp:248-302 | A request is refused for the first defect found, or becomes a planned job in round 1. |
| FederatedService.ScreenedIsAccepted | server/federated_service.cpp:539-676 | A submission that passed the screen under an active job is accepted after the attempt: the calls in between preserve the verdict. |
| FederatedService.AttemptKeepsLedger | server/federated_service.cpp:613-635 | Counting and attempting touch neither jobs nor assignments. |
| Steps.SubmitShape | server/federated_service.cpp:437-702 | A refused submission at most expires leases and saves nothing; one that reached the buffer is settled without a refusal and saved. |
| Steps.StageKnown | server/federated_service.cpp:445-653 | How far a submission gets is decided by the screen, the round's tensors and the fault alone, all known before the attempt. |
| Persistence.StepIsCalls | server/federated_service.cpp:437-702 | Every step but a restart is, for memory and state file, the run of its store calls in the handler's order. |
| Persistence.StepKeepsFiled | server/state_store.cpp:81-98 | After every step the state file lags memory by expired leases only. |
| Persistence.StepKeepsKeyring | server/crypto_engine.cpp:259-277 | After every step the key directory loads to the keys in use, which extend those before. |
| Persistence.StepKeepsPersistent | server/main.cpp:182-192 | So disk is an image of memory after every step. |
| Persistence.RestartFinds | server/main.cpp:182-192 | A restart from disk then finds the tables up to the stamps of expired leases, the same keys and the same checkpoints. |
| LoneClient.LoneIsAggregated | server/weight_buffer.cpp:110-228 | Under each of the three rules the only tensor of a round is its aggregate. |
| LoneClient.EqualIsAggregated | server/weight_buffer.cpp:110-228 | Under each of the three rules one coordinate sent alike by one or two clients is their aggregate. |
| LoneClient.EqualFills | server/federated_service.cpp:445-653 | A tensor equal to the one held, if any, fills the round exactly if that makes as many as are asked for, under every rule. |
| LoneClient.LoneFills | server/federated_service.cpp:445-653 | If one client is enough, a one-coordinate tensor fills an empty round, under every rule. |
| ControlPlane.StepKeepsSafe | server/state_store.cpp:640-1064 | Every step of the server, restarts included, keeps job, lease and registry invariants and the life of assignments. |
| ControlPlane.RunSafe | server/state_store.cpp:640-1064 | Over every run: one active job a scope, leases unique and within capacity, versions 1..k with one active, statuses only along their life, and disk an image of memory. |
| ControlPlane.RunWithinPlan | server/state_store.cpp:767-780 | Over every run from a first start no round of a job has more leases out than clients planned for, where any are planned, else those needed, else the default or one. |
| ControlPlane.SubmitKeepsLockstep | server/federated_service.cpp:539-686 | A submission keeps jobs in lockstep exactly if it closes no round of a job, or the job's current one, or its last. |
| ControlPlane.StepKeepsLockstep | server/federated_service.cpp:539-686 | So does every step: exactly if it is on time in that sense, which is known before the call. |
| ControlPlane.OwnIsOnTime | server/state_store.cpp:852-890 | A submission that names an assignment of the job it names is on time. |
| ControlPlane.RunInLockstep | server/federated_service.cpp:539-686 | Over runs current_round is completed_rounds + 1 and leases of an active job are for its current round, all along, exactly if every submission is on time. |
| ControlPlane.OwnRunInLockstep | server/federated_service.cpp:539-686 | In particular if every submission names its own job's assignment. |
| ControlPlane.ReplacedJobBreaksLockstep | server/state_store.cpp:852-890 | From any such state in which a lease of a second or later round is out, replacing the job and then submitting the lease under the new job's id are allowed, and lockstep is lost. |
| Crashes.CrashedSubmission | server/federated_service.cpp:539-686 | Wherever between its store calls a submission is cut off, the next start finds jobs, leases and models safe and statuses on their path, and jobs in lockstep exactly if it was on time or did not make its last call. |
| Crashes.RecordedNotAdvanced | server/federated_service.cpp:613-686 | A submission that closes a job's round makes five store calls, and a crash leaves its model recorded with the job not advanced exactly behind the third or fourth. |
| Consistency.AnswerIsTheBuffers | server/federated_service.cpp:637-698 | Once the buffer took a submission the handler's answer is the buffer's, with the number of tensors held: acceptance never refuses it. |
| Consistency.ProducedIsAggregated | server/federated_service.cpp:617-653 | A published model is the configured rule applied to exactly the tensors noted for its round, at least as many as the active job needs if it says so and else as the server is configured for, then smoothed and made private. |
| Consistency.SubmitKeepsAgreement | server/federated_service.cpp:562-686 | One submission keeps ledger and buffer in agreement: submitted or aggregated assignments have their tensor in the buffer, aggregated ones had it among those of the round's model. |
| Consistency.StepKeepsAgreement | server/federated_service.cpp:562-686 | So does every step, except exactly a restart that finds an assignment marked. |
| Consistency.RunAgrees | server/federated_service.cpp:562-686 | Over runs ledger and buffer agree all along exactly if every restart finds nothing marked. |
| Consistency.RestartAgrees | server/federated_service.cpp:19-91 | After a restart they agree exactly if nothing was marked before it. |
| Consistency.ClosingMarks | server/state_store.cpp:1019-1025 | When a job's round closes, every assignment submitted to it becomes aggregated, and its client's tensor went in exactly if it is the closing client's or the buffer still held it. |
| Consistency.LostSubmissionIsAggregated | server/state_store.cpp:1019-1025 | So a submission whose tensor a restart lost is marked aggregated although it did not go in. |
| Handler.ScreensExactly | server/federated_service.cpp:445-611 | Exactly which submissions reach the buffer: ten checks in the handler's order, each written out, with those of the assignment if a job is active; any other is refused for the first that fails. |
| Handler.RefusalAnswers | server/federated_service.cpp:445-611 | A refused submission changes no more than assignments and the clock; its answer, with the current version where that was the matter. |
| Handler.SubmitEnds | server/federated_service.cpp:613-698 | A submission that reached the buffer: published exactly if the round now has as many clients as the active job needs, else as configured, their tensors are sound and nothing fails; failed, accepted and aggregated likewise; the counts in the answer; what the round holds. |
| Handler.PublishesWithEnough | server/federated_service.cpp:617-635 | Over every step that publishes, the round has at least as many clients as the scope's active job needs, or as the server is configured for if no job says. |
| Handler.TrimmedRoundResilient | server/weight_buffer.cpp:193-228 | For every step that publishes under Trimmed-Mean, with at most beta times n of the round's clients arbitrary, the aggregate's coordinates lie between honest ones. |
| Handler.KrumRoundResilient | server/weight_buffer.cpp:157-190 | For every step that publishes under Krum, with f arbitrary clients and 2f+3 <= n, the aggregate is within (n-(n-3)/2-2)*D of an honest tensor of the round. |
| Handler.PublishingRecords | server/weight_buffer.cpp:351-361 | The record of a published model, field by field; the scope's other models are no longer active. |
| Handler.SubmitSettles | server/federated_service.cpp:613-698 | What is left in tables and file: the count, the named assignment submitted, and on closing the round every assignment and the job as they should be. |
| Handler.JobAnswers | server/admin_service.cpp:248-302 | A request for a job is refused for the first of six checks that fails; otherwise the planned job, field by field. |
| Handler.RollbackAnswers | server/admin_service.cpp:317-385 | Which reply a rollback gets, and what becomes of records, file and the model in force, for each way it can go. |
| Handler.BootAnswers | server/main.cpp:182-192 | What every start begins with: the keys the directory loads to, whatever the state file says; the tables saved again; no round held or closed; nothing at all without a readable state file. |
| Handler.RotationAnswers | server/admin_service.cpp:387-399 | After a rotation the new key is the working one and the next version, in memory, on disk and in the store; earlier keys stay. |
| Progress.StepMovesJob | server/state_store.cpp:1027-1062 | A step changes a job's progress only by closing a round of it. |
| Progress.JobsCountTheirRounds | server/state_store.cpp:1027-1062 | Over every run from a first start, whatever leases submissions name, a job has completed exactly the rounds closed for it, never more than its target, and is completed exactly when it reached it. |
| Progress.StalledRefuses | server/federated_service.cpp:562-569 | When the round an active job waits for is already closed, no submission with its own job's assignment passes; one that passes is for another round and another job's assignment. |
| Progress.NewJobStalls | server/state_store.cpp:640-672 | A new job is in that state from the start exactly when the scope's first round is already closed. |
| Progress.StallPersists | server/federated_service.cpp:539-569 | In one process and until a new job comes, that state lasts exactly as long as no submission closes a round of the scope. |
| Progress.StalledOwnMisses | server/federated_service.cpp:539-569 | No submission with its own job's assignment does. |
| Progress.StalledForever | server/federated_service.cpp:539-569 | Over whole runs such a job closes no further round exactly if no submission closes a round of the scope. |
| Progress.OwnStalledForever | server/federated_service.cpp:539-569 | In particular if submissions name their own job's assignments: whatever clients do, it never gets on. |
| Checkpoints.SubmitKeepsFaithful | server/weight_buffer.cpp:319-371 | A submission keeps every recorded checkpoint and adds its own exactly if it leaves the weights of every recorded version in place, which is known before the call. |
| Checkpoints.RotateKeepsFaithful | server/crypto_engine.cpp:259-277 | Rotation keeps every checkpoint readable. |
| Checkpoints.RollbackKeepsFaithful | server/admin_service.cpp:317-385 | Rollback keeps the published model equal to the active checkpoint. |
| Checkpoints.RestartRestoresLatest | server/federated_service.cpp:60-91 | A new process, started from disk, publishes again exactly the models the old one had published. |
| Checkpoints.StepKeepsFaithful | server/federated_service.cpp:60-702 | Every step keeps all checkpoints faithful exactly if it is harmless in that sense. |
| Checkpoints.RunFaithful | server/federated_service.cpp:60-702 | Over runs, restarts included, checkpoints are faithful all along exactly if every submission is harmless. |
| Checkpoints.FreshIsHarmless | server/weight_buffer.cpp:253-259 | A submission to a round that is not recorded, or that the buffer knows as closed, is harmless. |
| Checkpoints.OneProcessFaithful | server/weight_buffer.cpp:253-371 | Within one process every submission is harmless, so checkpoints stay faithful without any condition on the rounds. |
| Checkpoints.RollbackRestores | server/admin_service.cpp:330-377 | Rolling back to any recorded version succeeds, restores exactly the weights and round it was aggregated with, and makes it the active version; other scopes keep theirs. |
| Checkpoints.LatestIsActiveCheckpoint | server/admin_service.cpp:341-377 | A published model is always the decoded checkpoint of the scope's active version. |
| Checkpoints.RecordedVersionSurvives | server/weight_buffer.cpp:319-349 | A recorded checkpoint survives a submission exactly if that is for another round, does not fill it, meets a file that does not open, or publishes the same weights. |
| Checkpoints.SurvivesEveryFault | server/weight_buffer.cpp:319-349 | It survives whatever fault strikes exactly if the submission is for another round or does not fill it. |
| Checkpoints.LostVersionMissing | server/admin_service.cpp:341-347 | If a recorded round is filled again and its checkpoint cannot be written, rolling back to the version fails for want of the file. |
| Checkpoints.RestartCanLoseVersion | server/federated_service.cpp:60-91 | That is always possible after a restart, under every rule, when no job runs and one client is enough. |
| Scenarios.AcceptedStep | server/federated_service.cpp:613-686 | What a submission taken under an active job makes of the round's maps, the closed rounds, the jobs and the assignments, whether it waits or closes the round. |
| Scenarios.RestartCanLoseSubmission | server/federated_service.cpp:562-686 | After a restart, for any submitted assignment of a job that asks for two clients: the two other clients' submissions are allowed, and mark it aggregated though it did not go in, under every rule. |
| InForce.StepInForce | server/admin_service.cpp:330-377 | Every step keeps this: each checkpoint on disk holds weights some round published, and each model in force is one. |
| InForce.RunInForce | server/federated_service.cpp:60-702 | So it is over every run from a first start, restarts and refilled rounds included. |
| InForce.RunRespectsNorm | server/weight_buffer.cpp:296-371 | Over every run every model ever published respects clip_norm. |
| InForce.LatestRespectsNorm | server/admin_service.cpp:368-377 | So does every model in force, published by a round, a rollback or a restart, over every run. |
| ServerMomentum.VelocityBounded | server/weight_buffer.cpp:296-313 | For m < 1 and fixed clip norm C every velocity coordinate stays within 2C/(1-m) over every run of the server: failed rounds, rollbacks and restarts that read files, and refilled rounds included. |
| Lineage.CloseAggregates | server/state_store.cpp:1019-1025 | Closing a round of a job marks honestly exactly if every assignment submitted to it had a tensor of its client in one of the round's models. |
| Lineage.StepKeepsLineage | server/federated_service.cpp:562-686 | Every step keeps all aggregated assignments accounted for exactly if it closes no job's round over an assignment whose tensor is neither held, nor the closing client's, nor went in before. |
| Lineage.RunKeepsLineage | server/federated_service.cpp:562-686 | Over runs across restarts: all along every aggregated assignment had a tensor of its client in a model of its round exactly if every step was honest in that sense. |
| Reached.SubmissionLostInARun | server/federated_service.cpp:562-686 | From any first start, by allowed steps: three leases, a submission, a restart, two more submissions; the first client's assignment ends aggregated though no tensor of its ever went in. |
| Reached.LockstepLostInARun | server/state_store.cpp:852-890 | From any first start, by allowed steps: a round closed, the next leased, the job replaced, the lease submitted under the new job's id; lockstep is lost. |
| Reached.VersionLostInARun | server/weight_buffer.cpp:319-349 | From any first start, by allowed steps: a round recorded, a restart, the round filled again with a failed write; rolling back to the recorded version fails for want of its file. |

## Left out

- Rounding, overflow, NaN and infinities of floats; overflow of 32-bit counters other than the key version.
- The formula for the noise's scale and any guarantee of differential privacy: noise is arbitrary.
- Aggregation.SortInPlace: stands for the library's `std::sort`; it is specified by the sorted arrangement, not by that
  algorithm.
- AES-GCM, HMAC, ML-KEM and model signing: abstract functions, or not modelled.
- Blobs without a version header: `Decrypt` follows that branch, but no round trip is claimed across rotations, since it
  uses whatever key is active.
- The text of JSON, file permissions and syncing: the state file is a value replaced at once. A file that parses to
  values of wrong types, or with unknown status names, is not modelled.
- Path strings of checkpoints: a path stands for scope and round. Failures to create directories are not modelled.
- Clients, datasets, workers, worker tasks and audit events in the store, with their updates inside Accept and Advance
  (`UpdateClientLastRound` too): no modelled property depends on them. Whether a dataset is registered is a flag of the
  request.
- Exceptions thrown by the store while it records an aggregated model.
- Certificates, identifier syntax, payload lengths and decryption of a submission: flags and a payload of the request.
- RegisterClient, GetTrainingConfig beyond leasing, worker calls, listing calls, health, configuration parsing, logging,
  clients and scripts: they would add only easy members.
- A crash inside a handler is modelled for the state file (`Crashes`); what it leaves of a checkpoint that is just being
  written, or of a key directory in the middle of a rotation, is not modelled.
- Termination of the server's event loop and fairness of the completion queue.
- `HandleRpcs` itself: the serialisation it provides is an assumption, not a proved property.
- StateStore.StateStore.AcceptTrainingAssignmentSubmission: does not model the updates of worker tasks and workers that go with an accepted assignment.
- StateStore.StateStore.AdvanceTrainingJobRound: does not model the updates of worker tasks and workers that go with a closed round.
- StateStore.StateStore.Load: does not model files whose fields have wrong types; the original then starts empty, as it does for text that does not parse.
- FederatedService.Server.SubmitWeights: takes the decrypted payload as an argument, so the session key's derivation is not part of it.
