# Kron in Dafny

Kron is a persistent scheduler. An embedded engine runs timers inside a host process and keeps an
append-only log and snapshots; a server replicates timers and hands runs to workers under leases. This
project models both, with the storage under them, and proves what they promise.

Where the source changes state, a class with the same fields changes it, and each method is proved equal
to a function on values; the theorems are about those functions and about runs of them.

- Server. `Machine` is the committed state and its commands. `Ownership` checks histories with an
  independent ledger. `Leases` adds what nodes propose from stale views, and `Tokens` and
  `DelayedClaims` say when fencing tokens are distinct. `Replication` is batches, snapshots and restarts.
  `Lifecycle`, `Parts` and `Replacements` read timers, runs and the history off the log.
  `LeaseQueue`, `LeaseRuns`, `LeaseAttempts` and `LeaseProgress` are the older, file-based leader.
- Raft log. `Bytes`, `Segments` and `SegmentFormat` are the record format, `LengthDamage` what damage to a
  length field does, `LogStore` the rotated store.
- Embedded engine. `Retry`, `Schedules`, `Heap` and `Events` are its parts, `Engine` its blocks that hold
  the lock, `EngineRuns` their interleavings; `EngineFrame` and `EngineParts` show that blocks about one
  timer leave others alone. `EventHistory`, `EngineDurable`, `EngineFiles`, `EngineSkip`, `EngineDelay`,
  `EngineGoesOn`, `EngineNext`, `EngineAttempts`, `EngineReregister`, `EngineInherited`, `EngineInheritedRun`, `EnginePlans`,
  `EngineOneShot`, `EngineEarlyRetry` and `EngineShutdown` hold the theorems; `EngineScript` builds the
  concrete runs they need.
- Durability. `TextLog` is the line-based log, `Snapshots` loading and compaction step by step, `Audit`
  the hash-chained audit log.

`dafny verify dfyconfig.toml` checks everything.

## Hypotheses

Each is a parameter or a named predicate, and each theorem asks for the ones it uses.

- Run ids are fresh (`Ownership.FreshRunIds`, `EngineRuns.Enabled`, `LeaseRuns.Enabled`).
- A file rename is atomic and a log append happens whole or not at all; whether an append happens is an
  argument of every block. An entry's text, cut short, reads as truncated (`TextLog.Faithful`) and, with
  its beginning cut off, is no entry (`TextLog.NoSuffixParses`).
- JSON encoding round-trips (`Segments.Faithful`, `Replication.Faithful`, `Snapshots.Sound`). The payloads
  of the Raft entries at hand are shorter than 2^64 bytes (`Segments.Sized`, `LogStore.SizedLog`). An
  encoding that is cut short, or followed by the start of another record, does not decode
  (`LengthDamage.Delimited`), only where an altered length still fits in the file.
- The audit hash has no collisions (`Audit.Injective`), only in `Audit.LastHashFixesLog`.
- The clock never goes back in runs of the engine (`EngineRuns.Enabled`); runs start at the
  epoch, or at any instant where a theorem says so (`EngineOneShot.NewWorldAt`). The server's theorems
  assume nothing of clocks.
- A timer is created once (`Leases.CreatedOnce`), only in `Leases.TokenGrows` and
  `DelayedClaims.CurrentExact`; `RecreationRepeatsToken` shows why. Claims are atomic
  (`Leases.AtomicClaims`), only in `Tokens`; `DelayedClaims` does without.
- A session is undisturbed (`EngineGoesOn.Smooth`) and a schedule never over (`EngineGoesOn.Recurs`), in
  `EngineGoesOn.DelayGoesOn` and `EngineGoesOn.SkipAllowGoOn`.
- Run ids of the leader are never used again (`LeaseAttempts.AllNew`), in `LeaseAttempts`.
- What the registrations of a one-shot timer have in common (`EnginePlans.Terms`), in
  `EngineOneShot.OneShotStartsOnce` and `EngineEarlyRetry.OneShotExact`. The latter's condition,
  `Retry.FiresEarly`, is arithmetic on the retry policy.

## Where the code and its comments differ

The model follows the code.

- `engine.rs:181-182` says that registering a known timer only rebinds its function; the code records a
  differing specification and reschedules the timer.
- `log.rs:65-68` says that a corrupt final line is ignored; the code ignores it only if the JSON parser
  reports the end of input.
- `state.rs:8-9` says that the state can always be rebuilt from the log alone; after a compaction the
  snapshot is needed.
- `engine.rs:331-367` means to wait for active runs, but a rejected append marks the engine stopped, and
  then shutdown does not wait.

## Model

| member | source | states |
|---|---|---|
| Machine.PersistedStateMachine.ApplyKronCommand | crates/kron-core/src/openraft_adapter/file_store.rs:443-647 | every command leaves the committed state as the specification `Machine.Apply` says, field by field |
| Machine.PersistedStateMachine.ApplyClaim | crates/kron-core/src/openraft_adapter/file_store.rs:488-529 | a claim is a no-op while the timer has an active run; otherwise it takes token, owner and history record together |
| Machine.PersistedStateMachine.ApplyExpiry | crates/kron-core/src/openraft_adapter/file_store.rs:591-615 | an expiry ends the run once, and requeues the replacement with its token or sends the timer to Dead |
| Machine.PersistedStateMachine.RescheduleTimer | crates/kron-core/src/openraft_adapter/file_store.rs:662-686 | after a completion a one-shot timer has no next run, any other the next one of its schedule, if any |
| Machine.PersistedStateMachine.RemovePendingRun | crates/kron-core/src/openraft_adapter/file_store.rs:488-529 | the first pending run with the claimed id leaves the queue, the others keep their order |
| Lifecycle.NextIsLastDecided | crates/kron-core/src/openraft_adapter/file_store.rs:443-686 | over any log a timer's next run is what the last command to decide on it decided: creating, updating, cancelling, pausing, resuming, or an effective completion |
| Lifecycle.StateIsLastDecided | crates/kron-core/src/openraft_adapter/file_store.rs:443-615 | and so is its lifecycle state, over any honest log |
| Lifecycle.CompletionReschedules | crates/kron-core/src/openraft_adapter/file_store.rs:530-559 | after an effective completion, until a later decision, a one-shot timer has no next run and any other the first run of its schedule after the completion |
| Lifecycle.ClaimableAgain | crates/kron-core/src/openraft_adapter/file_store.rs:662-686 | so a recurring worker timer is claimable again from that run on, until it is claimed or decided on |
| Parts.ActiveSinceClaim | crates/kron-core/src/openraft_adapter/file_store.rs:488-615 | over any log a run is active exactly if a command claimed it and no later one ended it |
| Parts.PendingPart | crates/kron-core/src/openraft_adapter/file_store.rs:488-615 | the queue loses the first unit of a claimed run, gains a replacement at its end, and changes in no other way |
| Parts.WorkersPart | crates/kron-core/src/openraft_adapter/file_store.rs:616-640 | workers are registered, kept alive while registered, and unregistered |
| Parts.NodesPart | crates/kron-core/src/openraft_adapter/file_store.rs:641-646 | nodes are added and removed |
| Parts.HistoryTells | crates/kron-core/src/openraft_adapter/file_store.rs:443-647 | the history tells every command that had an effect, once, in order, with the ending of each run |
| Ownership.SingleOwner | crates/kron-core/src/openraft_adapter/file_store.rs:488-615 | for every log with fresh run ids and every prefix of it: one active run a timer at most, claims = ends + active runs, claims of a timer separated by an end of the first run, no run ends twice |
| Ownership.ClaimsSeparated | crates/kron-core/src/openraft_adapter/file_store.rs:488-615 | in any history an independent ledger accepts, two claims of a timer have between them the end of the first run, by its worker and with its token |
| Ownership.ClaimsBalance | crates/kron-core/src/openraft_adapter/file_store.rs:488-615 | in such a history claims equal ends plus timers owned |
| Ownership.EndsOnce | crates/kron-core/src/openraft_adapter/file_store.rs:530-615 | in such a history no run ends twice |
| Ownership.ApplyKeeps | crates/kron-core/src/openraft_adapter/file_store.rs:443-647 | every command, whoever proposed it, keeps the history acceptable to the ledger and its owners equal to the active runs |
| Ownership.LogKeeps | crates/kron-core/src/openraft_adapter/file_store.rs:443-647 | so does every log with fresh run ids, after each of its commands |
| Leases.SelectClaim | crates/kron-core/src/openraft_adapter/runtime.rs:563-590 | `try_claim` picks the first claimable timer in key order, with its tenant, task and payload, and finds none exactly when no timer is claimable |
| Leases.ExpireActiveLeases | crates/kron-core/src/openraft_adapter/runtime.rs:499-544 | one expiry is proposed for exactly the runs whose lease deadline has passed; it replaces the run exactly if its timer exists, is a worker's and has max_attempts above the run's attempt, by the next attempt and token of the same run with the timer's task |
| Replacements.PendingWithinLimit | crates/kron-core/src/openraft_adapter/runtime.rs:499-544 | over any honest log a pending run is a second attempt of a worker timer that allows one, if its specification is fixed, and carries its task |
| Replacements.ExpiryOutcome | crates/kron-core/src/openraft_adapter/file_store.rs:591-615 | an effective expiry leaves its timer Dead exactly if in its view no attempt is left or the target is no worker; otherwise Retrying, with the next attempt queued last |
| Replacements.FirstAttempts | crates/kron-core/src/openraft_adapter/runtime.rs:563-590 | every active run is a first attempt |
| Leases.ValidateExact | crates/kron-core/src/openraft_adapter/runtime.rs:631-661 | a report passes exactly if it is the owner's, with the run's token, from a tenant that may see the timer |
| Leases.TenantsApart | crates/kron-core/src/openraft_adapter/runtime.rs:563-590 | a request under a tenant sees the timers of that tenant and no others |
| Leases.AtomicClaimHandsOut | crates/kron-core/src/openraft_adapter/runtime.rs:595-629 | a claim that meets the state it was read from is effective and its run is handed out |
| Leases.HandedOutWasClaimed | crates/kron-core/src/openraft_adapter/runtime.rs:595-629 | every run `try_claim` returns was claimed by an effective command, recorded with its worker and token |
| Leases.ActiveFromClaim | crates/kron-core/src/openraft_adapter/file_store.rs:488-529 | an active run stems from one effective claim and has been active, unchanged, ever since |
| Leases.EndedForever | crates/kron-core/src/openraft_adapter/file_store.rs:530-615 | once a run has ended no completion, failure or expiry of it changes the state |
| Leases.ExpiryExact | crates/kron-core/src/openraft_adapter/runtime.rs:499-544 | however stale or repeated, an expiry removes a run only at or after its deadline, replaces that very run, and at most once |
| Leases.ValidatedCompletion | crates/kron-core/src/openraft_adapter/runtime.rs:631-661 | a completion validated on an old view ends the run if and only if the run is still active when it is applied |
| Leases.RunningMeansOwned | crates/kron-core/src/openraft_adapter/file_store.rs:488-615 | in every committed state a timer in Running has one active run, which carries the timer's token |
| Leases.TokenGrows | crates/kron-core/src/openraft_adapter/runtime.rs:563-629 | for a timer created once, the token grows by one with each effective claim whose view is the state it meets and with each replaced expiry, however stale, and with nothing else |
| Leases.ClaimTokenExact | crates/kron-core/src/openraft_adapter/runtime.rs:595-617 | a single claim raises the token it meets if and only if that has not moved on since the claim was read |
| DelayedClaims.OnCountExact | crates/kron-core/src/openraft_adapter/runtime.rs:595-617 | however late claims reach the log, and however often the timer is created again: the tokens it hands out are pairwise distinct if and only if each is taken from a view whose token is the number of tokens taken before |
| DelayedClaims.CurrentExact | crates/kron-core/src/openraft_adapter/runtime.rs:595-617 | for a timer created once: if and only if no effective claim is committed after the token has moved on from the view it was read from |
| DelayedClaims.StaleIsNotCurrent | crates/kron-core/src/openraft_adapter/runtime.rs:595-617 | the log of `StaleClaimRepeatsToken` fails that condition |
| Tokens.TokensDistinctExact | crates/kron-core/src/openraft_adapter/file_store.rs:445-529 | with atomic claims, the tokens a timer hands out over a log, to claims and to replaced expiries, are distinct if and only if the first taken after a creation or update at a token above 0 is never taken from a view that has seen it |
| Tokens.ClaimsDistinctExact | crates/kron-core/src/openraft_adapter/file_store.rs:445-529 | if only claims take tokens: if and only if no creation or update of the timer at a token above 0 is followed by an effective claim of it |
| Tokens.LostRunDecides | crates/kron-core/src/openraft_adapter/runtime.rs:499-544 | a log in which no claim follows the creation: a replaced expiry repeats the token if its node has seen the creation, and does not otherwise |
| Tokens.RecreationForgets | crates/kron-core/src/openraft_adapter/file_store.rs:445-466 | the log of `RecreationRepeatsToken` fails that condition |
| Leases.StaleClaimRepeatsToken | crates/kron-core/src/openraft_adapter/runtime.rs:595-617 | a concrete log in which a delayed claim gives a second worker a token already used |
| Leases.RecreationRepeatsToken | crates/kron-core/src/openraft_adapter/file_store.rs:445-466 | a concrete log in which creating a timer again does the same, even with atomic claims |
| Replication.Replica.Apply | crates/kron-core/src/openraft_adapter/file_store.rs:353-376 | a batch of committed entries is folded in order into memory and into state.json |
| Replication.Replica.GetCurrentSnapshot | crates/kron-core/src/openraft_adapter/file_store.rs:407-429 | a snapshot is the encoded state with its last applied id and membership |
| Replication.Replica.InstallSnapshot | crates/kron-core/src/openraft_adapter/file_store.rs:386-405 | installing replaces memory and state.json by the snapshot, or changes nothing if it cannot be decoded |
| Replication.Replica.Restart | crates/kron-core/src/openraft_adapter/file_store.rs:717-724 | a new process has the state of state.json, or the initial one if there is no file |
| Replication.ReplicasAgree | crates/kron-core/src/openraft_adapter/file_store.rs:353-429 | through any batches, snapshots, installs and restarts each replica equals the fold of the committed log up to its last applied entry |
| Replication.ReplicasHold | crates/kron-core/src/openraft_adapter/file_store.rs:353-429 | in every reachable cluster each replica holds the state that the commands among its applied entries lead to, in order and each once, and the last membership among them under its log id |
| Replication.HeldIsOwned | crates/kron-core/src/openraft_adapter/file_store.rs:353-376 | so single ownership holds of what every replica holds |
| Bytes.Checksum32 | crates/kron-core/src/openraft_adapter/file_store.rs:981-988 | the loop computes the 32-bit FNV-1a fold |
| Bytes.ChecksumDetectsByte | crates/kron-core/src/openraft_adapter/file_store.rs:981-988 | changing any one byte changes the checksum |
| Bytes.FnvInjectiveInHash | crates/kron-core/src/openraft_adapter/file_store.rs:981-988 | for fixed bytes the fold is injective in the running hash modulo 2^32 |
| Bytes.FromToLE | crates/kron-core/src/openraft_adapter/file_store.rs:961-979 | a number below 256^n survives its n-byte little-endian form |
| Bytes.ToFromLE | crates/kron-core/src/openraft_adapter/file_store.rs:961-979 | and n bytes survive being read as a number |
| Segments.EncodeLogRecord | crates/kron-core/src/openraft_adapter/file_store.rs:946-959 | a record is magic, version, term, index, checksum, the low 64 bits of the length, and payload, for every entry |
| Segments.ReadSegmentFile | crates/kron-core/src/openraft_adapter/file_store.rs:799-850 | the offset loop refines the recursive reader: the same entries, the same errors, torn tails ignored only after a whole record |
| SegmentFormat.AcceptedFiles | crates/kron-core/src/openraft_adapter/file_store.rs:799-850 | the reader accepts exactly the files that are whole records followed by one torn tail, and returns those records |
| SegmentFormat.ReadBack | crates/kron-core/src/openraft_adapter/file_store.rs:799-959 | reading what was encoded is the identity |
| SegmentFormat.TruncatedSegment | crates/kron-core/src/openraft_adapter/file_store.rs:799-850 | a segment cut after n bytes reads as its whole records, as empty at 0, and as an error within the first record |
| SegmentFormat.EveryTruncation | crates/kron-core/src/openraft_adapter/file_store.rs:799-850 | and that covers every n |
| SegmentFormat.DamagedSegment | crates/kron-core/src/openraft_adapter/file_store.rs:799-850 | altering any one byte of any record outside its length field makes the reader fail |
| SegmentFormat.DamagedLength | crates/kron-core/src/openraft_adapter/file_store.rs:826-839 | a length field that promises more than the file holds drops that record and all later ones in silence, and is an error in the first |
| LengthDamage.LengthDamageExact | crates/kron-core/src/openraft_adapter/file_store.rs:799-850 | for any record and any altered byte of its length field, the reader fails if and only if the record is the first or the altered length fits in the file; otherwise it returns the records before |
| LengthDamage.RaisedLengthDropsRecords | crates/kron-core/src/openraft_adapter/file_store.rs:826-839 | setting the top byte of the length of any record but the first, in any file below 2^56 bytes, loses that record and all later ones in silence |
| LogStore.FileNameInjective | crates/kron-core/src/openraft_adapter/file_store.rs:990-993 | segment files with different ranges have different names |
| LogStore.WriteEntry | crates/kron-core/src/openraft_adapter/file_store.rs:866-905 | one turn of the rewrite loop closes the open segment exactly when it has reached the limit, then writes the entry |
| LogStore.WriteSegments | crates/kron-core/src/openraft_adapter/file_store.rs:852-921 | the segments written hold the log in index order, each below the size limit before its last record, all but the last full, and read back as the log |
| LogStore.ReadLogSegments | crates/kron-core/src/openraft_adapter/file_store.rs:774-797 | the manifest's segments are read in order into one map; a missing or bad segment is an error |
| LogStore.Reopen | crates/kron-core/src/openraft_adapter/file_store.rs:774-921 | reading back what a rewrite stored gives the same map |
| LogStore.SegmentRanges | crates/kron-core/src/openraft_adapter/file_store.rs:852-921 | segments cover ascending, disjoint index ranges under distinct names |
| LogStore.RaftLogStore.Append | crates/kron-core/src/openraft_adapter/file_store.rs:305-321 | the log on disk and in memory gains the entries, later ones overriding earlier ones of the same index |
| LogStore.RaftLogStore.Truncate | crates/kron-core/src/openraft_adapter/file_store.rs:323-327 | both lose exactly the entries from the given index on |
| LogStore.RaftLogStore.Purge | crates/kron-core/src/openraft_adapter/file_store.rs:329-335 | both lose exactly the entries up to the given index, which becomes the last purged |
| LogStore.RaftLogStore.Open | crates/kron-core/src/openraft_adapter/file_store.rs:131-173 | a new process reads the log the store had |
| LogStore.LastLogId | crates/kron-core/src/openraft_adapter/file_store.rs:268-279 | the last log id is that of the highest entry, or the last purged one |
| LogStore.DoKeepsWindow | crates/kron-core/src/openraft_adapter/file_store.rs:305-335 | appending where the log ends, truncating, and purging forwards each keep the log one window that starts right after the last purged entry |
| LogStore.RunKeepsWindow | crates/kron-core/src/openraft_adapter/file_store.rs:305-335 | so does any run of such operations, and the window ends where `NextAll` says |
| TextLog.AppendOnlyLog.Append | crates/kron-core/src/log.rs:42-49 | one encoded line and a newline are added at the end |
| TextLog.AppendOnlyLog.ReplayFrom | crates/kron-core/src/log.rs:59-63 | replaying from an offset reads what lies behind it; past the end, nothing |
| TextLog.ReplayReader | crates/kron-core/src/log.rs:79-111 | the line loop refines the recursive replay: same entries, or the same line number of the first corrupt line |
| TextLog.ReplayBack | crates/kron-core/src/log.rs:42-111 | replaying what was appended is the identity |
| TextLog.TruncatedLog | crates/kron-core/src/log.rs:79-111 | a log cut anywhere replays exactly the entries whose text survived whole |
| TextLog.CorruptLine | crates/kron-core/src/log.rs:96-109 | a corrupt line that is not the last one is an error at its line number |
| TextLog.SkippingLoses | crates/kron-core/src/log.rs:59-63 | starting anywhere past the beginning yields fewer entries, or an error |
| Events.EngineState.ApplyEvent | crates/kron-core/src/state.rs:49-172 | every event changes the state as the specification `Events.Apply` says |
| Events.EngineState.ReplayEvents | crates/kron-core/src/state.rs:42-46 | replaying is the fold of the events in order |
| Events.EngineState.RegisterFunction | crates/kron-core/src/state.rs:192-202 | a function is bound, and only an orphaned or unknown timer becomes scheduled |
| Events.EngineState.MarkFunctionMissing | crates/kron-core/src/state.rs:204-217 | a function is unbound, and a scheduled, retrying or running timer becomes orphaned |
| Events.ReplayAlike | crates/kron-core/src/state.rs:42-172 | specifications, last runs, retry counts and pending retries after a replay depend only on those before it |
| EventHistory.ReplayTells | crates/kron-core/src/state.rs:42-172 | after a replay from nothing the specification, lifecycle state, last run and retry on record of a timer are those the last event to decide them decided, and its retries are counted |
| Snapshots.SnapshotRoundTrip | crates/kron-core/src/snapshot.rs:49-133 | a state survives its snapshot but for the functions bound to it |
| Snapshots.DataDir.LoadState | crates/kron-core/src/snapshot.rs:144-181 | loading yields the snapshot's state and the entries behind it, taking them from the old log when the offset lies beyond the new one; at most an empty log is created |
| Snapshots.DataDir.WriteSnapshotAtomic | crates/kron-core/src/snapshot.rs:183-213 | the file steps of writing a snapshot, cut off after any of them |
| Snapshots.DataDir.Compact | crates/kron-core/src/snapshot.rs:215-244 | the nine file steps of compaction, cut off after any of them |
| Snapshots.DataDir.CompactReadOnly | crates/kron-core/src/snapshot.rs:246-249 | compacting a directory keeps the state it loads |
| Snapshots.CompactionIsCrashSafe | crates/kron-core/src/snapshot.rs:144-244 | stopping after any step of a compaction leaves files that load the state they stood for before |
| Snapshots.AfterSnapshot | crates/kron-core/src/snapshot.rs:144-244 | the exact state loaded after a crash past the first rename and any entries appended since |
| Snapshots.AppendsAfterRotation | crates/kron-core/src/snapshot.rs:154-171 | entries appended after a crash in mid-rotation are all recovered if and only if the new log is shorter than the snapshot's offset or the offset is 0 |
| Snapshots.RotationLosesRetry | crates/kron-core/src/snapshot.rs:154-171 | a log that starts with the creation of a timer, such a crash, and further entries exactly as long: all of them are lost, with the retries among them |
| Heap.TimerHeap.Push | crates/kron-core/src/heap.rs:43-45 | one more entry, nothing else changed |
| Heap.TimerHeap.PeekNextAt | crates/kron-core/src/heap.rs:48-50 | the nearest deadline, if there is an entry |
| Heap.TimerHeap.PopDue | crates/kron-core/src/heap.rs:53-65 | exactly the entries due leave the heap, in the order of their times, each once; the rest stay |
| Heap.TimerHeap.RemoveTimer | crates/kron-core/src/heap.rs:69-76 | exactly the timer's entries leave the heap |
| Heap.EarliestExists | crates/kron-core/src/heap.rs:48-65 | a heap that is not empty has an entry no other precedes |
| Retry.DelayIsExact | crates/kron-core/src/retry.rs:58-83 | saturating 64-bit backoff equals min(max, base*2^(attempt-1)) and min(max, base+step*(attempt-1)) over the integers |
| Retry.DelayMonotone | crates/kron-core/src/retry.rs:58-83 | delays do not shrink from one attempt to a later one and stay within the cap |
| Retry.TotalWaitBound | crates/kron-core/src/retry.rs:34-40 | the waits of one run add up to at most (max_attempts - attempt) times the cap |
| Retry.RetryTimeExact | crates/kron-core/src/retry.rs:34-40 | no retry exactly from the limit on; below it the retry is due its delay later if and only if the delay fits a chrono duration |
| Retry.LongDelayWraps | crates/kron-core/src/retry.rs:38-39 | a delay of 2^64 - 1 seconds puts the retry one second before the failure |
| Schedules.OneShotNext | crates/kron-core/src/schedule.rs:27-81 | a one-shot schedule is due at its fire time and only while that lies ahead |
| Schedules.EveryIsPeriodic | crates/kron-core/src/schedule.rs:27-81 | an interval does not drift: asked from its own answers, its n-th run is n intervals after the start |
| Schedules.AfterIsAt | crates/kron-core/src/schedule.rs:27-81 | a delay after a registration is the instant it ends at, and happens once |
| Schedules.CalendarAnswers | crates/kron-core/src/schedule.rs:27-81 | a zone that does not exist yields no run, and a cron expression what the calendar answers for it and the zone |
| Engine.Engine.constructor | crates/kron-core/src/engine.rs:149-179 | opening folds the files, schedules nothing, and leaves every timer orphaned until its function is registered |
| Engine.Engine.Schedule | crates/kron-core/src/engine.rs:207-265 | registration records a new or changed specification, binds the function, and schedules one run unless one is scheduled; on refusal nothing changes |
| Engine.Engine.AppendApplyOrStop | crates/kron-core/src/engine.rs:584-597 | an event is logged and applied, or neither, and then the engine stops |
| Engine.Engine.Reschedule | crates/kron-core/src/engine.rs:603-619 | unless the engine is halting, the next run after an instant is scheduled or the next run time removed |
| Engine.Engine.RunTimerStart | crates/kron-core/src/engine.rs:408-466 | the start block: what it logs, whom it skips, what it reschedules, which run is then in flight |
| Engine.Engine.RunTimerFinish | crates/kron-core/src/engine.rs:481-578 | the finish block: success, missing function, retry, death, for each policy and each rejected append |
| Engine.Engine.RunFailedNow | crates/kron-core/src/engine.rs:510-574 | its failure branch, with the attempt taken from the retry on record |
| Engine.Engine.Start | crates/kron-core/src/engine.rs:273-284 | starting works once, and not after a stop, and says which |
| Engine.Engine.PopDue | crates/kron-core/src/engine.rs:289-302 | a turn of the loop takes exactly the due entries, or ends when shutting down |
| Engine.Engine.AdmitRun | crates/kron-core/src/engine.rs:304-313 | a popped entry is counted as active unless the engine is shutting down |
| Engine.Engine.BeginShutdown | crates/kron-core/src/engine.rs:331-342 | shutdown returns at once when stopped or never started, else forbids new runs |
| Engine.Engine.EndShutdown | crates/kron-core/src/engine.rs:364-367 | shutdown ends once no run is active |
| Engine.Engine.FinishOne | crates/kron-core/src/engine.rs:580-582 | a finished run is counted once and the count stops at 0 |
| Engine.Engine.Compact | crates/kron-core/src/engine.rs:369-374 | compacting moves the state into the snapshot and starts the log afresh |
| EngineRuns.StepSound | crates/kron-core/src/engine.rs:207-619 | every block keeps memory and files in agreement, tasks apart and counted, and every waiting or running timer registered |
| EngineRuns.RunSound | crates/kron-core/src/engine.rs:207-619 | so does every interleaving of them, with crashes and rejected appends |
| EngineDurable.WriteAhead | crates/kron-core/src/engine.rs:584-597 | in every run the logged part of memory is the fold of snapshot and log |
| EngineDurable.OpenAfterCompaction | crates/kron-core/src/engine.rs:149-179 | reopening gives the same engine state whether or not the engine was compacted just before |
| EngineDurable.OpenAfterCrash | crates/kron-core/src/engine.rs:369-374 | and also after a compaction that crashed at any of its file steps, given files that load the logged state |
| EngineFiles.RunHolds | crates/kron-core/src/engine.rs:369-374 | every step of every run, with its appends, its reopening, and its compactions, complete or cut off before they rotate the log, keeps the bytes of the data directory loading the logged state |
| EngineFiles.FilesSurviveCrash | crates/kron-core/src/engine.rs:149-179 | so from an empty directory, after any such run, the bytes load the logged state, and still do after a last compaction cut off at any step |
| EngineSkip.SkipIsExclusive | crates/kron-core/src/engine.rs:422-466 | while a timer's policy stays skip, no interleaving has two of its runs executing, and it reads Running while one is |
| EngineSkip.AllowOverlaps | crates/kron-core/src/engine.rs:440-466 | under the allow policy a second run does start |
| EngineDelay.DelayIsOneToken | crates/kron-core/src/engine.rs:440-577 | a delay timer registered once in a session, but for registrations that repeat it and schedule nothing, is one token: one entry or run at a time, a waiting retry is the one on record, and its log is a prefix of (Due Started (Failed Retrying Due Started)* (Succeeded or Failed Dead))* |
| EngineGoesOn.DelayGoesOn | crates/kron-core/src/engine.rs:440-577 | a delay timer whose schedule is never over, in a session without rejected appends, shutdown and reopening, is exactly one entry or one run from its registration on, never none |
| EngineGoesOn.FinishLeavesNext | crates/kron-core/src/engine.rs:481-577 | when its run finishes what is left is one waiting entry: the first run of the schedule after the success or the death, with attempt 1, or the retry |
| EngineGoesOn.SkipAllowGoOn | crates/kron-core/src/engine.rs:408-577 | a skip or allow timer of that kind, however often registered, has an entry from its first registration on |
| EngineGoesOn.StartSchedules | crates/kron-core/src/engine.rs:422-466 | for every schedule: the start block makes the run after the entry's time due, and nothing else, exactly if the policy is not delay, the schedule yields one, the engine runs and the log accepts the events |
| EngineNext.FinishKeepsHeap | crates/kron-core/src/engine.rs:481-577 | under skip and allow the end of a run schedules nothing afresh; a retry is then the timer's one entry in the heap |
| EngineNext.FinishTells | crates/kron-core/src/engine.rs:481-577 | what the finish block logs, for every policy, outcome and rejected append, with the retry time as the delay of the attempt |
| EngineNext.BeginTells | crates/kron-core/src/engine.rs:408-466 | what the start block logs, for every policy and rejected append |
| EngineNext.ElapsedExact | crates/kron-core/src/engine.rs:482-483 | the duration logged is the whole milliseconds that passed, and none if the clock went back |
| EngineNext.DisplayIsExact | crates/kron-core/src/engine.rs:240-262 | in a session of a delay timer a next run is on display exactly while a fresh run of it waits, and is its time |
| EngineNext.WaitingIsRegistered | crates/kron-core/src/engine.rs:240-262 | so registering it again, unchanged, while a fresh run waits repeats what is on record |
| EngineNext.RegistrationRecords | crates/kron-core/src/engine.rs:207-239 | an accepted registration records what was asked for, and the defaults where nothing was |
| EngineNext.RegistrationSchedules | crates/kron-core/src/engine.rs:207-265 | it logs what is new or differs, drops what waited under a differing specification, and adds the next run unless one is on display |
| EngineNext.RegistrationBinds | crates/kron-core/src/engine.rs:240-262 | it binds the function and schedules a timer that was unknown or orphaned |
| EngineNext.OpeningOrphans | crates/kron-core/src/engine.rs:149-179 | an opened engine has nothing scheduled or bound, and every timer of its files is orphaned |
| EngineNext.MissingOrphans | crates/kron-core/src/engine.rs:504-510 | a run whose function is gone logs nothing, orphans a live timer, and unschedules it unless delayed |
| EngineDelay.AttemptsBounded | crates/kron-core/src/engine.rs:510-573 | in that language no attempt is numbered above max(1, max_attempts) |
| EngineAttempts.CyclesCount | crates/kron-core/src/engine.rs:510-573 | and, if a run that falls due afresh has not been started before, every run id is started under attempts 1, 2, ... in order, at most max(1, max_attempts) times |
| EngineAttempts.DelayStartsCount | crates/kron-core/src/engine.rs:408-573 | so in a session of `DelayIsOneToken` every run id is started under attempts 1, 2, ... in order, at most max(1, max_attempts) times |
| EngineReregister.DelayTokenExact | crates/kron-core/src/engine.rs:207-577 | over any sessions, whatever is on record at the start, a timer always registered with the delay policy is one entry or run at most throughout if and only if every registration is refused, finds nothing of the timer left, or schedules nothing |
| EngineReregister.RegistrationExact | crates/kron-core/src/engine.rs:207-265 | a registration keeps one token if and only if a change leaves nothing of the timer, or no run is scheduled |
| EngineReregister.UnchangedExact | crates/kron-core/src/engine.rs:240-262 | an unchanged one if and only if a next run is on record, or no entry or run exists, or the schedule yields none |
| EngineReregister.DelayOverlaps | crates/kron-core/src/engine.rs:240-262 | any delay timer with two runs ahead, registered again unchanged while its first run executes, executes both at once |
| EngineReregister.MinutelyOverlaps | crates/kron-core/src/engine.rs:240-262 | in particular one that is due every minute |
| EngineInherited.InheritedExact | crates/kron-core/src/engine.rs:408-577 | a session that registers a delay timer once but starts with a retry on record: its log stays in the language of the policy if and only if the first of its runs that finishes does not fail |
| EngineInherited.RetriesOnRecord | crates/kron-core/src/engine.rs:512-560 | in every run a retry on record is a second attempt or a later one |
| EngineInheritedRun.InheritedRun | crates/kron-core/src/engine.rs:512-573 | a whole run, with a restart, in which a timer that allows two attempts fails once, and its next run is started once, logged as failing its second attempt, and given up |
| EngineOneShot.OneShotStartsOnce | crates/kron-core/src/engine.rs:240-262 | over all sessions a timer always registered with the same one-shot schedule starts at most one run id, if its runs are always delayed, or no retry delay is cast to negative seconds that chrono accepts, or it has one retry policy and that does not fire early |
| EngineEarlyRetry.OneShotExact | crates/kron-core/src/engine.rs:408-577 | with one schedule, retry policy, overlap policy and zone: at most one run id in every run if and only if runs are delayed, the zone does not exist, or the policy does not fire early |
| EngineEarlyRetry.StartsTwice | crates/kron-core/src/engine.rs:462-464 | for every other policy, with skip or allow, a whole run in which the timer starts r1 and r4 |
| EngineEarlyRetry.WrappingPolicies | crates/kron-core/src/retry.rs:34-40 | the condition on policies: a delay of 2^64 - 1 seconds fires early, one of 2^63 does not, and one that wraps only at the second retry does if three attempts are allowed |
| EnginePlans.FreshRunExact | crates/kron-core/src/engine.rs:408-466 | the start block of a one-shot timer makes a fresh run due if and only if the entry is due before the fire time, the policy is not delay, the zone exists, the engine is not halting and the log accepts its events |
| Retry.CoveredByFirst | crates/kron-core/src/retry.rs:34-83 | under a policy that does not fire early every retry, however late its delay wraps around, is covered by the first delay |
| EngineShutdown.ActiveRunsExact | crates/kron-core/src/engine.rs:289-318 | the active count is the number of spawned and executing runs and is never decremented at 0 |
| EngineShutdown.ShutdownQuiesces | crates/kron-core/src/engine.rs:331-367 | after shutdown returns Ok, with no event rejected before, no run is in flight, none starts and nothing is logged |
| EngineShutdown.SilentExact | crates/kron-core/src/engine.rs:331-367 | once the engine is stopped, every continuation without a restart leaves the log unchanged if and only if no run is active |
| EngineShutdown.RejectionStopsTooEarly | crates/kron-core/src/engine.rs:584-597 | a rejected append stops the engine while other runs execute: shutdown returns at once and their ends are still logged |
| Audit.Verify | crates/kron-core/src/audit.rs:108-159 | the loop refines the recursive check: the number of chained records, or the first complaint |
| Audit.ReadLastStateUnverified | crates/kron-core/src/audit.rs:77-106 | the last sequence number and hash in the file, or the first bad line |
| Audit.ReadLastState | crates/kron-core/src/audit.rs:65-75 | an answer exactly for logs that verify, and then the state after the last record |
| Audit.VerifyAccepts | crates/kron-core/src/audit.rs:108-159 | verification accepts exactly well-formed lines whose records form a chain, and counts them |
| Audit.LastHashFixesLog | crates/kron-core/src/audit.rs:42-159 | with an injective hash, two logs that verify and share the last hash are the same record for record |
| Audit.WrittenVerifies | crates/kron-core/src/openraft_adapter/runtime.rs:1191-1240 | a log of chained records verifies with the right count and reads back as written |
| Audit.TornLogVerifies | crates/kron-core/src/audit.rs:125-131 | a log cut inside its last record verifies with the records before it |
| Audit.AuditWriter.Audit | crates/kron-core/src/openraft_adapter/runtime.rs:1191-1240 | the writer appends one record that continues the chain and remembers it, or neither |
| Audit.AuditWriter.constructor | crates/kron-core/src/openraft_adapter/runtime.rs:187-199 | a writer reopened on a valid log has the state the last writer had |
| LeaseQueue.Leader.EnqueueDueRuns | crates/kron-core/src/cluster.rs:602-642 | due timers without a pending or active run get a unit of work under their next token |
| LeaseQueue.Leader.ExpireWorkers | crates/kron-core/src/cluster.rs:644-735 | lost workers leave, and the runs they or the clock have lost are requeued or buried |
| LeaseQueue.Leader.ExpireRun | crates/kron-core/src/cluster.rs:688-734 | a lost run goes back to the queue with the next attempt and token, or dies at its limit |
| LeaseQueue.Leader.ClaimPendingFor | crates/kron-core/src/cluster.rs:737-791 | the first pending run the worker may do becomes active under a 30 second lease |
| LeaseQueue.Leader.CompleteRun | crates/kron-core/src/cluster.rs:471-500 | only the owner with the current token completes a run, which is then rescheduled |
| LeaseQueue.Leader.FailRun | crates/kron-core/src/cluster.rs:502-532 | and only the owner fails it, sending the timer to Dead |
| LeaseQueue.Leader.ApplyCreateTimer | crates/kron-core/src/cluster.rs:1159-1176 | creating a timer replaces its specification and leaves its token and units alone |
| LeaseRuns.RunSound | crates/kron-core/src/cluster.rs:471-791 | in every run: one live unit a timer at most, carrying the last token issued; tokens never shrink and a timer that gains a unit gains a token |
| LeaseRuns.AcceptedIsLatest | crates/kron-core/src/cluster.rs:1415-1435 | a completion is accepted only from the owner, with the last token issued for the timer, while nothing of the timer is pending |
| LeaseRuns.IssuedCounts | crates/kron-core/src/cluster.rs:602-734 | over any run the tokens issued for a timer, to new and to requeued units, are consecutive numbers from the one after its last token on |
| LeaseRuns.SupersededForever | crates/kron-core/src/cluster.rs:1415-1435 | a token once superseded is not accepted again |
| LeaseRuns.ExpirySupersedes | crates/kron-core/src/cluster.rs:688-734 | an expired run is requeued exactly when attempts and target allow, under a token above the lost one |
| LeaseRuns.RunFits | crates/kron-core/src/cluster.rs:688-734 | attempts stay within max(1, max_attempts) while no timer's limit is lowered |
| LeaseAttempts.AttemptsCount | crates/kron-core/src/cluster.rs:602-791 | in every run of the leader a live unit is the attempt after the leases its run has lost, and the run is not dead |
| LeaseAttempts.DeadAtLimit | crates/kron-core/src/cluster.rs:688-734 | a worker timer with a fixed specification: a run is recorded dead once, at its loss number max(1, max_attempts), and loses no lease after that |
| LeaseProgress.DueAreLive | crates/kron-core/src/cluster.rs:602-642 | after due runs are enqueued every due worker timer has a live unit |
| LeaseProgress.EnqueueOneReaches | crates/kron-core/src/cluster.rs:602-642 | a new unit is a first attempt under the next token with the timer's tenant, task and payload |
| LeaseProgress.ClaimTakesFirst | crates/kron-core/src/cluster.rs:737-791 | the first pending unit a worker can do becomes its active run until 30 seconds from now |
| LeaseProgress.ClaimFindsNothing | crates/kron-core/src/cluster.rs:737-791 | otherwise nothing changes |
| LeaseProgress.ReportExact | crates/kron-core/src/cluster.rs:471-532 | a completion or failure counts exactly if it is the owner's with the current token and is logged, and then ends the run, records it and sets the timer's state |
| LeaseProgress.ExpireExact | crates/kron-core/src/cluster.rs:644-735 | expiry takes away exactly the runs whose lease has run out or whose worker is not registered or silent too long |
| LeaseProgress.RunStays | crates/kron-core/src/cluster.rs:602-791 | an active run stays as it is through every step that is neither a report of it nor an expiry |
| LeaseProgress.LossEffect | crates/kron-core/src/cluster.rs:688-734 | what a loss records, queues and makes of the timer |
| LeaseProgress.CompletionReschedules | crates/kron-core/src/cluster.rs:471-500 | after a completion its timer has the next run of its schedule until a later step decides on it |
| LeaseProgress.OperatorEffect | crates/kron-core/src/cluster.rs:1159-1204 | what creating, cancelling, pausing and resuming make of a timer's lifecycle state, and that units stay |
| LeaseProgress.WorkerEffect | crates/kron-core/src/cluster.rs:1308-1333 | registering a worker records its tasks; a heartbeat extends the lease of a registered one |

## Left out

- Leases.TokenGrows: claims read from a stale view, and timers created again; `Tokens.TokensDistinctExact` says exactly when a creation repeats tokens.
- Tokens.TokensDistinctExact: claims that are not atomic; `DelayedClaims.OnCountExact` is the condition with them.
- EngineOneShot.OneShotStartsOnce: timers registered in turn under several retry policies of which one waits backwards.
- EngineDelay.DelayIsOneToken: sessions with further registrations that schedule a run, or with a retry on record at the start. For those, `EngineReregister.DelayTokenExact` says exactly when the timer stays one token, and, for one registration, `EngineInherited.InheritedExact` when its log stays regular; a retry on record breaks the count of attempts and does not make a second entry.
- EngineFiles.RunHolds: runs that go on after a compaction cut off in mid-rotation, where entries can be lost; `Snapshots.AppendsAfterRotation` says exactly when.
- LeaseRuns.RunFits: creating a timer again with a lower limit than the attempts already made.
- Engine.Engine.RunTimerFinish: a retry delay beyond chrono's range, at which the source panics holding the lock; `Engine.Panics` is that condition, `Retry.RetryTimeExact` says when.
- Engine.Engine.RunFailedNow: the same.
- EngineRuns.RunSound: the same; runs stop short of such a panic.
- LogStore.RaftLogStore.Append: crashes inside a rewrite of the segments, which deletes the old ones first; a rewrite is one step here.
- TextLog.TruncatedLog: appending after a torn tail, where the next line is glued to the fragment.
- Tokens, sequence numbers and counters are unbounded here; the source's overflow at 64 or 32 bits.
- Retry.RetryTimeExact: a delay that fits a chrono duration, added to an instant near the end of chrono's range, panics in the source; instants are unbounded here.
- Chrono's overflow panics for schedules with huge periods, and for retries as just said; instants are unbounded.
- Cron expressions, time zones and daylight saving: a parameter, `Schedules.Calendar`.
- JSON text, SHA-256, ULIDs: parameters. Characters of log files are bytes; invalid UTF-8 and Unicode white space are not modelled.
- The idempotency key of a run, which is derived from the timer and its next run time.
- Snapshot fields without effect on loading: engine version and creation time.
- OpenRaft itself: elections, replication and membership changes; one committed log is delivered in order.
- HTTP routes, roles and tokens, IPC, the command line and the Python bindings.
- Fsync, permissions and directory locks.
- Waking up and liveness of the Tokio tasks; the order in which the loop spawns popped entries is free.
- The command log and peer replication of the file-based cluster engine, its leadership check and configuration; only the live leader is modelled.
- Pruning of the 7-day retry counters, which does nothing in the source; status summaries.
- The sequence in which hash maps are visited: parameters of the methods of `LeaseQueue.Leader` and of `Leases`.
