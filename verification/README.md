# Upload lifecycle: a verified model

The service hands a client a capability to PUT one image to a staging key, and later decides, in the background, whether
the image is published under a content-addressed key. Its state is a PostgreSQL schema (uploads, candidates, cleanup
tombstones) and an S3 bucket. Four kinds of actor change it: create and complete calls, any number of finalizers, any number
of cleaners, and clients holding capabilities. No S3 request is made inside a transaction, so all of them interleave freely;
commits lose their acknowledgement, leases run out, and PUT and DELETE requests land long after their sender gave up.

This project models all of that and proves what the service is for: published bytes are never lost or changed, nothing that
was written is forgotten, an upload is given up only when no capability can still write it, stale workers change nothing, and
neither work queue starves.

## How it is organised

| file | content |
|---|---|
| Types, Schema, KeyText | values and rows; every constraint of the schema; the text of object keys and its order |
| Backoff | the two retry schedules |
| Transactions | what each database transaction computes from the tables and the clock it samples under its lock |
| Database | the same transactions as they run: statement by statement, in place, with rollback, and the expiry sweep |
| RetryTransaction | the bounded retry loop around a transaction under every schedule of faults |
| Validation | the bounded read of an object and the image policy |
| DbInvariant, TransactionProofs | the invariant of the tables, what one transaction may change, and that every transaction obeys |
| World | the state machine: tables, bucket, requests in flight, capabilities, one program counter per actor |
| Invariant, FinalizerProofs, ActorProofs, WorldInvariant | the global invariant and the guarantee every step gives to the others |
| Safety, MissingExpiry, Lifecycle, Calls, Leases | the guarantees over whole runs |
| FinalizerDecisions, CleanerDecisions, CallDecisions | what each branch of the programs and transactions comes to, said of stored bytes, columns and clocks |
| Queues, CleanupRuns, FinalizerBackoff | starvation freedom, cleanup duties, backoff over runs |
| Programs, FinalizerProgram, CleanerProgram | the two `processNext` and the cleanup sweep as programs; each execution is a path of the state machine |
| ProgramSafety | the finalizer program among others that keep to the guarantee |
| ExpiryTurns, ExpirySweep | the laws of the expiry sweep's count |
| Progress | no reachable state strands an upload or an owed key: some continuation closes it, or deletes it |
| RunBuilding, EarlyCompletion | runs made by hand; one in which the finalizer's backoff fails |
| Publication, Recoveries | runs that publish any acceptable image and reject any other object, replay a lost answer, and replace a crashed worker |

`World.Run(env, worlds, events)` is a run of the whole system: `worlds[n + 1]` follows `worlds[n]` by `events[n]`. The proofs
are rely/guarantee: every step of every actor keeps `Invariant.SharedInv` and stays within `Invariant.Guarantee`, and every
actor's own knowledge (`PcInv`, `CleanInv`, `CreatorInv`) survives whatever stays within `Guarantee`.

## Assumptions

- One clock that never goes back serves both signing and the database, and an insert commits before the capability signed for
  it expires (the timeouts are 5 and 10 seconds, the capability lives 15 minutes).
- Generated upload ids and tokens are new. SHA-256 and the image decoders are arbitrary functions (`Types.Env`); no
  collision-freedom is used.
- Only this service writes under `media/`. The object store answers a GET from the object it holds, and reports an object
  missing only when it holds none.
- A transaction that locks its row is atomic at the clock it samples. A COMMIT is acknowledged, unanswered (then applied or
  not), or refused with SQLSTATE 40001 or 40P01, which mean rolled back. An unanswered COMMIT that is applied is applied before
  the read that asks about it.
- A PUT or DELETE that was ever sent may land at any later time, any number of times.
- `FOR UPDATE SKIP LOCKED` may skip any set of rows; among the others the first in order is returned.

## Model

| member | source | states |
|---|---|---|
| `Safety.PublishedBytesAreSafe` | internal/app/reconcile.go:209-296 | in any run, once an upload is ready its row never changes again and in every later state its final key holds bytes of the selected candidate's size and digest; no tombstone, no cleaner (however stale) and no delete in flight names the key, and every late PUT to it carries the same size and digest |
| `Safety.NoOrphans` | internal/app/reconcile.go:1071-1149 | in every state each stored key, and each key a sent PUT can still create, is the staging key or a tracked candidate of a durable upload; a closed upload's tombstones are exactly what it wrote minus what it published, an open one's are none |
| `Safety.ExactDuties` | internal/app/reconcile.go:1071-1095 | from the table invariant alone: tombstones of an upload = staging plus candidates minus final key once terminal, empty before |
| `Safety.DeletedStaysDeleted` | internal/app/cleanup.go:319-342 | if no PUT of the key lands after a successful delete, the key is absent in every later state |
| `Safety.HorizonCoversCapabilities` | internal/app/postgres.go:262-289 | every capability ever handed out, by insert, replay or recovery, expires no later than the stored write horizon of its upload, then and ever after |
| `Safety.StagingDeleteWaitsForCapabilities` | internal/app/cleanup.go:196-258 | when a staging delete is reserved, every capability of that upload handed out at any time of the run has expired, and the tombstone's earliest delete time is the frozen horizon |
| `Safety.DeadTokensStayDead` | internal/app/reconcile.go:994-1038 | a claim token that is not live at some state is not live in any later one |
| `Safety.ClaimsAreLiveOnce` | internal/app/reconcile.go:994-1038 | a claim is live during one interval of the run only |
| `Safety.StaleWorkerChangesNothing` | internal/app/reconcile.go:994-1038 | the next step of a worker without a live claim, short of claiming anew, leaves all three tables as they are |
| `Safety.StaleCallChangesNothing` | internal/app/reconcile.go:994-1038 | once a worker's claim is not live, nothing the worker does in the run before it claims anew changes any table |
| `Safety.FinalizingRowsAreFenced` | internal/app/reconcile.go:391-582 | an event changes a finalizing row only in wake-up time and horizon, or under the stored unexpired token, or by taking over a lease that ran out; a candidate row appears only under the live token |
| `Leases.ClaimIsExclusive` | internal/app/reconcile.go:391-468 | a claimed row is claimed again only a whole lease later, or after its worker stored a retry |
| `Leases.ClaimStands` | internal/app/reconcile.go:391-468 | while the lease runs and no retry is stored, the row stays finalizing under its token, or has been closed |
| `Leases.ReservationIsExclusive` | internal/app/cleanup.go:172-266 | a reserved key is reserved again only half a minute later, or after the result of that reservation was applied |
| `Leases.ReservationStands` | internal/app/cleanup.go:172-266 | until then token and expiry of the reservation stay as stored |
| `Safety.SchemaHolds` | migrations/0001_initial.sql:32-311 | every CHECK, UNIQUE and FOREIGN KEY of the schema holds in every state (the two octet_length checks are the range of type Digest), so no commit relies on the database refusing it |
| `Safety.StatusReadsAreWellFormed` | internal/app/postgres.go:550-703 | in every state a ready row has its tracked candidate, a rejected row a non-empty public code, and every tracked candidate has the declared size, is a JPEG iff the declared type is image/jpeg and a PNG iff it is image/png, and meets the limits of the policy |
| `Safety.LiveCommitsGoThrough` | internal/app/reconcile.go:844-974 | at any terminal commit of any worker: the commit changes the row iff the claim is live, and "not tracked", "tombstoned" and "conflicting tombstone" never arise; the re-checks of a missing-staging expiry never fail under a live claim |
| `MissingExpiry.MissingExpiryIsSound` | internal/app/expiry.go:187-275 | for every finalizing row that expires there was an earlier moment at which staging was absent, the deadline and every capability handed out at any time of the run had passed, and from which one claim stayed live until the commit |
| `MissingExpiry.HorizonFrozen` | internal/app/postgres.go:262-289 | once the deadline and the horizon have passed, the horizon never moves again |
| `Progress.FinalizingUploadsCanBeClosed` | internal/app/reconcile.go:110-297 | from every reachable state, whatever is stored under staging or candidate keys and wherever workers stand, some continuation by any chosen worker closes any given finalizing upload |
| `Progress.PendingUploadsCanExpire` | internal/app/expiry.go:73-151 | from every reachable state some continuation expires any given pending upload |
| `Progress.OwedKeysCanBeDeleted` | internal/app/cleanup.go:109-170 | from every reachable state some continuation by any chosen cleaner deletes any given owed key and records it |
| `Lifecycle.EveryEventRefines` | internal/app/reconcile.go:844-974 | every event of the system is, for every upload, a stutter or one legal move of the machine absent, pending, finalizing, closed |
| `Lifecycle.LifecycleIsBounded` | migrations/0001_initial.sql:116-199 | at most three moves per upload in any run, and a closed outcome (state, time, final key, reasons, horizon) never changes |
| `Lifecycle.OnlyTheseEventsMove` | internal/app/postgres.go:357-466 | an upload moves only by its own insert, a completion or sweep of its pending row, or the terminal commit of the worker holding its live claim |
| `Lifecycle.CompletionBeforeExpiryAfter` | internal/app/postgres.go:397-436 | a pending row becomes finalizing only strictly before its deadline and expired only at or after it, by the clock of the transaction, which is the time it stores |
| `Calls.CreateIsIdempotent` | internal/app/postgres.go:87-204 | two successful answers for one idempotency key name one upload with equal declarations, at most one says created, and capabilities end by the horizon |
| `Calls.DifferingDeclarationChangesNothing` | internal/app/postgres.go:166-243 | once the stored declarations differ from those of a call, no later event of that call in the run changes a table, hands out a capability or is answered with an upload |
| `Calls.HandOutMatches` | internal/app/postgres.go:147-165 | a capability about to be handed out belongs to the stored upload of that key and is covered by its horizon |
| `Calls.CompletionIsDurable` | internal/app/postgres.go:345-493 | every answered completion left a durable finalizing or terminal row, and at most one answer per upload reports a change |
| `CallDecisions.AnsweredWakeUpIsStored` | internal/app/postgres.go:468-548 | a completion answered by a read-back was attempted earlier in the run; if that attempt found the row finalizing and it still is, the stored wake-up is no later than the clock of the attempt |
| `CallDecisions.OutcomeDecides` | internal/app/postgres.go:468-548 | the read-back answers iff the row is no longer pending and, while it is finalizing, its wake-up is no later than the one tried; otherwise the call tries once more, then gives up |
| `CallDecisions.CompletionDecides` | internal/app/postgres.go:357-466 | by the state of the locked row: a terminal row is answered unchanged; a pending one begins to finalize before its deadline and expires from it on; a finalizing one is woken, never later than before; each with its reported transition, or a read-back when the COMMIT has no answer |
| `CallDecisions.InsertIsStored` | internal/app/postgres.go:100-165 | under a free key: a pending row with the declarations, a deadline a day ahead and a horizon covering the signed capability, which is handed out as created or recovered |
| `CallDecisions.RepeatIsServed` | internal/app/postgres.go:166-204 | a repeated create with the stored declarations can go on: by signing anew while the row is neither terminal nor past its deadline, and otherwise to an answer without capability |
| `CallDecisions.RepeatIsServedOnlySo` | internal/app/postgres.go:166-204 | and in no other way |
| `CallDecisions.ReplayIsAnswered` | internal/app/postgres.go:206-290 | the locked row of a replay: if it is the row read before, not terminal and before its deadline, an acknowledged replay hands out its capability under a horizon that covers it; any other row with the declarations is answered without one |
| `CallDecisions.RecoverDecides` | internal/app/postgres.go:292-343 | after a COMMIT without an answer the capability is handed out iff the stored row has the declarations, is the signed one, still takes writes and covers a capability that has not run out; created is reported iff the call inserted that row |
| `Recoveries.LostAnswerIsReplayed` | internal/app/postgres.go:166-290 | a run: the answer to a create call is lost, the call is repeated a minute later, and a second capability for the same pending upload is handed out, covered by the horizon |
| `Calls.TransitionIsOwnCommit` | internal/app/postgres.go:438-466 | a reported transition is the one this call committed with an acknowledgement, from a pending row |
| `Queues.CleanupNeverGrows` | internal/app/cleanup.go:196-212 | once the clock is past a tombstone's due time t, (tombstones ahead) + (open uploads with horizon at most t) never grows, although staging tombstones are inserted back-dated |
| `Queues.ServingShrinks` | internal/app/cleanup.go:344-417 | an applied result on a tombstone ahead shrinks that measure |
| `Queues.CleanupWorkAheadIsBounded` | internal/app/cleanup.go:172-266 | over any stretch of a run the results applied ahead, plus the measure left, never exceed the measure at its start |
| `Queues.CleanupIsStarvationFree` | internal/app/cleanup.go:196-212 | a reservation never passes over an unlocked tombstone whose next attempt is due and whose reservation, if any, has run out, except for one ahead of it; after as many applied results as the measure the next one takes it |
| `Queues.AheadOfNeverGrows` | internal/app/postgres.go:400-436 | no completion, replayed or new, jumps ahead of an overdue finalizing upload |
| `Queues.FinalizerWorkAheadIsBounded` | internal/app/reconcile.go:1151-1205 | claims resolved ahead plus uploads still ahead never exceed the uploads ahead at the start |
| `Queues.FinalizingIsStarvationFree` | internal/app/reconcile.go:411-427 | a claim never passes over an unlocked finalizing upload whose wake-up is due and whose lease, if any, has run out, except for one ahead; after as many resolved claims as were ahead the next one takes it |
| `FinalizerDecisions.SomebodyIsClaimed` | internal/app/reconcile.go:411-427 | while an unlocked finalizing row is due without a running lease, the query returns a row: that one or one due earlier; so a crashed worker's row is taken over |
| `FinalizerDecisions.IdleWorkersCanClaim` | internal/app/reconcile.go:391-468 | in every state that keeps the invariant an idle worker with a new token can then take such a claim |
| `FinalizerDecisions.ClaimWrites` | internal/app/reconcile.go:411-468 | exactly token and expiry of the row are written; the row is the first by wake-up time and id among the unlocked ones that are due without a running lease |
| `Recoveries.CrashedWorkerIsReplaced` | internal/app/reconcile.go:391-468 | a run: a worker takes a claim and crashes, and once the lease has run out another worker takes the row |
| `CleanerDecisions.SomethingIsReserved` | internal/app/cleanup.go:196-212 | while an unlocked tombstone is due without a running reservation, the query returns one: that one or one that comes earlier |
| `CleanerDecisions.RestingCleanersCanReserve` | internal/app/cleanup.go:172-266 | in every state that keeps the invariant a resting cleaner with a new token can then reserve it |
| `CleanerDecisions.ReservationWrites` | internal/app/cleanup.go:172-266 | exactly token and an expiry half a minute ahead are written; the key may be deleted, is not published, and is the first by time and key among the unlocked ones that are due without a running reservation |
| `CleanerDecisions.ReservationIsConfirmed` | internal/app/cleanup.go:268-317 | after a COMMIT without an answer the cleaner goes on iff its token is stored and its reservation still runs |
| `CleanerDecisions.DeleteSends` | internal/app/cleanup.go:319-342 | one delete of the reserved key is sent and no other object changes; an answer other than an error means that the object is gone |
| `CleanerDecisions.ResultWrites` | internal/app/cleanup.go:344-431 | a result under the stored token releases the reservation, records attempt and result, counts or ends the streak, and puts the next attempt a day, an hour or min(2^streak, 60) minutes ahead; any other result changes nothing |
| `CleanupRuns.DutyBounds` | internal/app/cleanup.go:359-409 | the next attempt is never before the earliest delete time and at most a day after the last attempt; a reserved tombstone is due |
| `CleanupRuns.NextAttemptIsExact` | internal/app/cleanup.go:344-431 | in every state a tombstone that was tried is next due exactly a day after a success, an hour after a lasting error, and min(2^(streak - 1), 60) minutes after any other |
| `CleanupRuns.EarliestDelete` | internal/app/reconcile.go:1071-1149 | in every state a staging key may be deleted from the write horizon on, a candidate from the moment its upload closed |
| `CleanupRuns.NextAttemptNeverRecedes` | internal/app/cleanup.go:344-417 | over a run the next attempt of a tombstone never moves to an earlier time |
| `CleanupRuns.RestAfterSuccess` | internal/app/cleanup.go:344-417 | between an applied success on a key and the next reservation of that key the clock advances by at least a day |
| `CleanupRuns.BackoffOverRuns` | internal/app/cleanup.go:379-399 | a tombstone with streak s had its first failure at some earlier event, failed ever since, and is next due at least FailureWait(s) minutes after that event's clock, for every mix of error classes |
| `CleanupRuns.ResultAppliedOnce` | internal/app/cleanup.go:359-409 | after a reservation's result is applied its token is never stored again, so every later attempt to apply under it does nothing |
| `FinalizerBackoff.ScheduleStep` | internal/app/reconcile.go:1165-1191 | a row that stays finalizing is rescheduled by a retry under its lease, or woken by a repeated completion, or keeps its schedule |
| `FinalizerBackoff.RetryBackoffOverRuns` | internal/app/reconcile.go:1207-1219 | a finalizing upload with streak s is next due at least FailureWait(s) seconds after its first failure, if no completion cut a wait short since |
| `FinalizerBackoff.WaitKeptUnlessCutShort` | internal/app/postgres.go:421-436 | one event: among those that keep the streak, the wait stays at least as long exactly when no applied completion met it before its time |
| `FinalizerBackoff.BackoffHoldsExactly` | internal/app/postgres.go:421-436 | over a run: the schedule of the failures since the first holds at every moment since exactly when no applied completion since came before the time it puts the next attempt at |
| `EarlyCompletion.RepeatedCompletionBreaksBackoff` | internal/app/postgres.go:421-436 | a run in which the backoff fails: failures at 0, 1 and 3 seconds, a completion repeated at 4, and the upload is due at once instead of 7 seconds after its first failure |
| `Backoff.DelaysAreClippedPowers` | internal/app/cleanup.go:419-431 | the clipped shift equals min(2^(n-1), 60) units for every streak n of at least one; deterministic classes wait the ceiling; both schedules lie between their bounds |
| `Backoff.ShiftDelayIsClippedPower` | internal/app/reconcile.go:1207-1219 | clipping the exponent at 6 and the result at 60 units gives the unclipped power cut at 60 |
| `Backoff.FailureWaitClosedForm` | internal/app/cleanup.go:385-389 | the total wait of n failures is 2^n - 1 units up to six and 63 + 60(n - 6) beyond |
| `RetryTransaction.RetryUploadTransaction` | internal/app/postgres.go:728-763 | under every schedule of faults: committed means one durable effect, neither committed nor unknown means none, unknown means at most one and a non-retryable error; the final state is the interference of others plus that effect; the exhausted return is unreachable |
| `RetryTransaction.RegisterCandidate` | internal/app/reconcile.go:655-748 | active without mismatch implies the identical row is durable, mismatch implies a different stored row, an unresolved outcome implies the row is absent |
| `Validation.CaptureObject` | internal/app/storage_finalize.go:28-70 | never holds more than limit + 1 bytes; succeeds iff the reply is complete, closes and agrees with its declared length; the bytes are a prefix of the body |
| `Validation.VerdictMatchesPolicy` | internal/app/validate.go:58-164 | on every snapshot the capture can return, validation accepts iff the policy holds, its retriable error is impossible, an accepted image is the captured bytes with their digest, and a refusal fits the schema |
| `Validation.CaptureThenValidate` | internal/app/reconcile.go:170-206 | for every stored object, with or without a declared length, acceptance is exactly the policy on the whole object |
| `Validation.RefusalsBlameTheDefect` | internal/app/validate.go:58-176 | for every stored object: an accepted one meets the policy, is a JPEG iff declared image/jpeg and a PNG iff declared image/png; a refused one is refused for the one defect it has, with the class and phase of that defect |
| `Validation.DefectsAreExclusive` | internal/app/validate.go:58-164 | an object has at most one defect in the order of the checks, and none if it meets the policy |
| `Validation.PublicCodesCoverTheSchema` | internal/app/postgres.go:688-703 | a public failure code exists exactly for the class and reason pairs the schema admits |
| `Validation.PublicCodes` | internal/app/postgres.go:688-703 | which class and reason pairs the client sees under which code |
| `FinalizerDecisions.StagingIsJudged` | internal/app/reconcile.go:154-206 | in any run, when the staging object is read: if it meets the policy of its upload row the worker goes on to track exactly its bytes, their digest and decoded format; otherwise it goes on to reject the upload for the defect of the object |
| `FinalizerDecisions.CandidateIsCompared` | internal/app/reconcile.go:814-842 | a candidate object that is read leads to its publication iff it has the tracked size and digest, and otherwise to a rejection for broken candidate integrity |
| `FinalizerDecisions.CandidatesAreIntact` | internal/app/reconcile.go:121-152 | in any run a worker that finds a candidate object goes on to publish it: the comparison never fails |
| `FinalizerDecisions.TerminalCommitWrites` | internal/app/reconcile.go:844-974 | in any run: under a live claim an applied terminal commit writes exactly the columns of its outcome and clears claim and wake-up; without one nothing is written; what the worker does next by the fate of the COMMIT |
| `FinalizerDecisions.RegistrationWrites` | internal/app/reconcile.go:655-748 | the candidate row is stored as given or already there as given; another row under its digest leads to a rejection; a lost claim ends the call |
| `FinalizerDecisions.RetryWrites` | internal/app/reconcile.go:1151-1219 | a retry under a live claim releases the row, counts the failure with class and time, and puts the next attempt min(2^streak, 60) seconds or a minute ahead; without a live claim nothing is written |
| `FinalizerDecisions.RenewalWrites` | internal/app/reconcile.go:519-582 | a renewal moves exactly the expiry of a live claim, to one lease after the locked clock |
| `FinalizerDecisions.ConfirmationDecides` | internal/app/reconcile.go:470-612 | which stored row the read after a COMMIT without an answer takes for success, for a claim, a renewal, a registration, a publication and a rejection |
| `FinalizerDecisions.MissingConfirmationDecides` | internal/app/expiry.go:289-337 | under the table invariant the read that confirms a missing-staging expiry succeeds iff the row expired for that reason with the observed horizon and number of candidates |
| `KeyText.TextOrder` | migrations/0001_initial.sql:265-278 | texts of object keys are equal iff the keys are, and their byte order is the order used in the queues and the sorted targets, for all UUIDs and digests |
| `KeyText.HexOrder` | internal/app/reconcile.go:211 | fixed-width hexadecimal keeps order and distinctness |
| `DbInvariant.SchemaFollows` | migrations/0001_initial.sql:32-311 | the table invariant implies every constraint of the schema |
| `TransactionProofs.OpenUploadHasNoTombstones` | internal/app/reconcile.go:868-884 | no key of an open upload has a tombstone |
| `TransactionProofs.ReadyKeeps` | internal/app/reconcile.go:844-914 | a live worker selecting a tracked candidate always commits, keeping the invariant and the step relation |
| `TransactionProofs.RejectKeeps` | internal/app/reconcile.go:916-974 | the same for a rejection with non-empty evidence and a fitting reason |
| `TransactionProofs.ExpireMissingKeeps` | internal/app/expiry.go:209-275 | the same for a missing-staging expiry whose re-checks hold |
| `TransactionProofs.ExpirePendingKeeps` | internal/app/expiry.go:122-151 | expiring a due pending row meets no conflicting tombstone and retires exactly its staging key |
| `TransactionProofs.ClaimKeeps` | internal/app/reconcile.go:391-468 | taking a due claim keeps the invariant and changes nothing but the claim of an unleased row |
| `TransactionProofs.RetryKeeps` | internal/app/reconcile.go:1151-1205 | scheduling a retry keeps the invariant and releases the claim |
| `TransactionProofs.RegisterKeeps` | internal/app/reconcile.go:655-748 | registering a candidate keeps the invariant and adds at most that row |
| `TransactionProofs.InsertKeeps` | internal/app/postgres.go:100-146 | inserting an upload under a free key keeps the invariant |
| `TransactionProofs.CompleteKeeps` | internal/app/postgres.go:357-466 | a completion never fails on a tombstone and keeps the invariant |
| `TransactionProofs.ReserveKeeps` | internal/app/cleanup.go:172-266 | reserving a due tombstone keeps the invariant |
| `TransactionProofs.ApplyKeeps` | internal/app/cleanup.go:344-417 | applying a result keeps the invariant, the target and the bounds of the next attempt |
| `Invariant.NoRevival` | internal/app/reconcile.go:994-1038 | under any step within the guarantee an issued token that is not live stays not live |
| `Invariant.ListFrozen` | internal/app/reconcile.go:614-653 | while one token is live no step under another changes that upload's candidate list |
| `Invariant.StablePc` | internal/app/reconcile.go:110-297 | what a worker knows at its program counter survives every step of everybody else |
| `FinalizerProofs.FinStepKeeps` | internal/app/reconcile.go:110-297 | every step of a finalizer keeps the invariant, gives the guarantee and establishes what the worker knows next |
| `ActorProofs.CleanStepKeeps` | internal/app/cleanup.go:109-170 | every step of a cleaner keeps the invariant and gives the guarantee |
| `ActorProofs.CreateStepShared` | internal/app/postgres.go:87-343 | every step of a create call keeps the invariant and gives the guarantee |
| `ActorProofs.CompleteStepKeeps` | internal/app/postgres.go:345-493 | every step of a completion keeps the invariant and gives the guarantee |
| `WorldInvariant.NextKeeps` | internal/app/reconcile.go:110-297 | every event of the whole system keeps the global invariant and gives the guarantee |
| `WorldInvariant.RunKeeps` | internal/app/reconcile.go:110-297 | the global invariant holds in every state of every run |
| `FinalizerProgram.FinWorker.ProcessNext` | internal/app/reconcile.go:110-297 | under every interference and fault: with a row to claim and a database that answers, the old path goes on by exactly one call, which takes that claim, makes at each stage the one call the program makes there, and ends idle; otherwise nothing happens; processed iff the claim was held |
| `FinalizerProgram.CallEnds` | internal/app/reconcile.go:110-297 | a call ends in a retry, an acknowledged terminal commit, a confirmed one, a lost claim, or a claim that was never held; it never stops halfway |
| `FinalizerProgram.FinWorker.VerifyCandidate` | internal/app/reconcile.go:121-152 | one turn of the candidate loop goes on to the next index only by reading that the object is missing, and otherwise ends the call |
| `FinalizerProgram.FinWorker.RenewFinalizeClaim` | internal/app/reconcile.go:519-582 | active means the stored expiry is the one kept in the claim, inactive that the claim is not live or its renewal was not stored, an error that the database failed |
| `FinalizerProgram.FinWorker.Finish` | internal/app/reconcile.go:340-389 | at least one and at most two commit attempts unless the database fails first; it ends by a commit, the read that confirms it, or a retry |
| `FinalizerProgram.FinWorker.RegisterCandidate` | internal/app/reconcile.go:655-748 | active without mismatch means the identical row is stored, with mismatch another one, inactive that the claim is lost, an error that the worker retries |
| `FinalizerProgram.FinWorker.JudgeStaging` | internal/app/reconcile.go:154-206 | begins with the read of the staging key: an object that meets the policy comes out as the image, one that does not leads to rejecting the upload for the defect it has, a missing one to its expiry iff the earlier observation allowed it, and otherwise to a retry |
| `ProgramSafety.ProgramKeeps` | internal/app/reconcile.go:110-297 | if others keep to the guarantee under other tokens, every step of every execution keeps the invariant, gives the guarantee and keeps what the worker knows |
| `ProgramSafety.ProgramCommitsGoThrough` | internal/app/reconcile.go:340-389 | every terminal commit of the program changes the row iff its claim is live at that moment |
| `ProgramSafety.FinalizeOnce` | internal/app/reconcile.go:110-297 | a client that runs one call in a state that keeps the invariant, among such others: the invariant holds at each of its steps and afterwards, and the call ends as CallEnds says |
| `ProgramSafety.CleanerKeeps` | internal/app/cleanup.go:109-170 | the same as ProgramKeeps for every execution of the cleaner |
| `ProgramSafety.SweepOnce` | internal/app/cleanup.go:68-90 | a client that runs one sweep among such others: the invariant holds at each step, the counts are those of the deletes sent, and no delete is sent for a published key |
| `CleanerProgram.CleanWorker.ReserveNextCleanup` | internal/app/cleanup.go:172-317 | a reservation is held only when the stored tombstone carries its token; otherwise nothing was due, something was out of service, or it was not there when read back |
| `CleanerProgram.CleanWorker.DeleteObject` | internal/app/cleanup.go:319-342 | sends exactly one delete; after a success the object is gone, and only an absent object is reported absent |
| `CleanerProgram.CleanWorker.ProcessNext` | internal/app/cleanup.go:109-170 | with something due and everything in service the old path goes on by exactly one call from rest to rest; otherwise nothing happens; the three results are read off the last step |
| `CleanerProgram.CleanWorker.SweepCleanup` | internal/app/cleanup.go:68-90 | the path goes on; at most 10 deletes are sent and counted exactly; errors are the failed deletes and at most one failure of the service; a short sweep without errors found nothing due or a reservation gone |
| `Publication.AcceptableImagesCanBePublished` | internal/app/reconcile.go:110-297 | for every image that meets the policy some run publishes exactly its bytes |
| `Publication.OtherObjectsAreRejected` | internal/app/reconcile.go:170-206 | for every object that fails the policy some run rejects its upload for the defect it has, and owes exactly its staging key a delete |
| `Database.SameCandidateList` | internal/app/expiry.go:277-287 | the index loop decides equality of the two lists |
| `Database.Contains` | internal/app/reconcile.go:858-867 | the search loop decides membership of the selected candidate |
| `Database.UnselectedTargets` | internal/app/reconcile.go:1071-1095 | the targets are staging plus the unselected candidates with their earliest delete times, sorted by key |
| `Database.Tables.ClaimNextFinalizing` | internal/app/reconcile.go:391-468 | the claimed row is the transaction function of the old tables; the claim object carries token and expiry |
| `Database.Tables.LockFinalizeParent` | internal/app/reconcile.go:994-1038 | a parent is returned iff the claim is live at the locked clock |
| `Database.Tables.RenewFinalizeClaim` | internal/app/reconcile.go:519-582 | active iff live; then exactly the expiry moves, in the row and in the claim |
| `Database.Tables.ScheduleFinalizeRetry` | internal/app/reconcile.go:1151-1205 | applied iff live; then the row is rescheduled by its class and streak and released |
| `Database.Tables.InsertCandidate` | internal/app/reconcile.go:655-748 | insert or read back, and compare: agrees with the registration function in all three outcomes |
| `Database.Tables.TerminalTombstones` | internal/app/reconcile.go:1071-1095 | the keys of the targets are exactly the duties of the closing upload |
| `Database.Tables.EnsureTombstones` | internal/app/reconcile.go:1097-1149 | ok iff no stored tombstone conflicts; then the table gains exactly the missing targets |
| `Database.CoveredOrConflicting` | internal/app/reconcile.go:1097-1149 | nothing conflicts iff every stored tombstone under a target's key has the target's upload and digest and a delete time no earlier than the target's; stored tombstones stay as they are |
| `Database.Tables.TransitionFinalizeReady` | internal/app/reconcile.go:844-914 | in place, with every defect rolled back, the new tables are those of the transaction function |
| `Database.Tables.TransitionFinalizeRejected` | internal/app/reconcile.go:916-974 | the same for a rejection |
| `Database.Tables.TransitionFinalizeExpiredMissing` | internal/app/expiry.go:209-275 | the same for a missing-staging expiry |
| `Database.Tables.TransitionPendingExpired` | internal/app/expiry.go:122-151 | the same for a pending expiry, row first and tombstone second |
| `Database.Tables.NextPendingExpiry` | internal/app/expiry.go:87-99 | the first unlocked pending row past its deadline, by deadline and id, or none iff there is none |
| `Database.Tables.ExpireNextPendingUpload` | internal/app/expiry.go:73-120 | one turn, under every fate of its COMMIT, every interference before its confirming read and every failure of that read: which row it took, what it stored and what it reported |
| `Database.Tables.SweepPendingExpiries` | internal/app/expiry.go:37-71 | with everybody else writing between and within its turns: at most 100 turns, each as prescribed; processed and errors count the turns that report so; only the last turn may report anything but a processed row; a short sweep without error ends with nothing due |
| `ExpiryTurns.CountBalances` | internal/app/expiry.go:37-120 | counted + applied but unconfirmed = applied + counted though somebody else expired the row; what is unconfirmed is an error |
| `ExpiryTurns.BorrowedFromSomebody` | internal/app/expiry.go:153-185 | a turn counts a row it did not expire only if the row was pending after its COMMIT and expired when it was read back |
| `ExpiryTurns.AloneTheCountIsClose` | internal/app/expiry.go:37-120 | without interference processed <= rows expired <= processed + errors, and they are equal exactly when no unconfirmed commit was applied |
| `ExpiryTurns.AloneRowsExpire` | internal/app/expiry.go:37-151 | without interference each row is untouched, or was due at the clock of a turn and expired at it |
| `ExpirySweep.StoredIsConfirmed` | internal/app/expiry.go:153-185 | among others that keep what is permanent, the read that follows an applied expiry confirms it |
| `ExpirySweep.NothingElseIsLost` | internal/app/expiry.go:37-120 | among such others every expiry the sweep stored is counted, unless its confirming read failed |
| `ExpirySweep.TurnsNeverConflict` | internal/app/expiry.go:122-151 | in tables that keep the invariant, the transaction of a turn never meets a conflicting tombstone |
| `CallDecisions.SweepDecides` | internal/app/expiry.go:122-151 | the sweep expires a row iff it is pending and its deadline has come: exactly state, time and reason are written, and the staging key is owed a delete from the horizon on |
| `Database.Tables.InsertUpload` | internal/app/postgres.go:100-146 | inserted iff the idempotency key was free |
| `Database.Tables.AuthorizeReplay` | internal/app/postgres.go:206-277 | authorized iff size and type are the stored ones, the locked row is the one read before with the same staging key, and it is neither terminal nor past its deadline; then the horizon covers the new capability |
| `Database.Tables.CompleteUpload` | internal/app/postgres.go:357-466 | the switch over the locked row is the completion function |
| `Database.Tables.ReserveNextCleanup` | internal/app/cleanup.go:172-266 | reserved iff a row was returned; then exactly its token and an expiry half a minute ahead are stored |
| `Database.Tables.ApplyCleanupResult` | internal/app/cleanup.go:344-417 | applied iff the reservation token is still the stored one; the attempt, its result and the streak are stored, and after a success the next attempt is due a day later |

## Left out

- HTTP handlers, routing, JSON, headers, logging, metrics and their counts. In particular nothing is claimed about how often
  a terminal transition is counted: the confirming reads do not tell whose commit they see.
- Presigning and URL checks: a capability is an upload id and an expiry 15 minutes after signing, cut to the second.
- PostgreSQL's own machinery: snapshots, deadlock detection and the timing of skipped locks; a COMMIT applied only after the
  read that asks about it.
- PNG and JPEG decoding and SHA-256: arbitrary functions.
- How errors are sorted into the five classes: any failing call may get any class.
- Configuration, start-up, shutdown, timers and the maintenance loop around the two sweeps.
- The gauges that the cleanup sweep refreshes at its end, and the error it counts when that fails.
- The create and complete calls as methods: their transactions are methods of `Database.Tables` and their control flow is
  `World.CreateStep` and `World.CompleteStep`. The state machine lets a refused COMMIT be repeated more often than the two
  attempts of the code; the bound is in `RetryTransaction` and in `FinalizerProgram`.
- No claim that a lease covers a whole S3 request: the code fences again afterwards instead.
- Rejection evidence keeps the names of its fields, not their values. Status words, MIME types and error classes are
  enumerations. Streaks, sizes and times are unbounded integers, so a 32-bit streak does not wrap.
- The claim object of the in-place transactions keeps upload, token and expiry; the declared size, type and staging key travel
  in `World.Claim`.
- `FinalizerProgram` does not follow a BEGIN that is refused and tried again: it leaves no step. `RetryTransaction` has it.
- The rows on `Database.Tables` that name a function of `Transactions` link the two layers; what those functions keep is stated
  by the rows on `TransactionProofs`.
- Database.Tables.AuthorizeReplay: stops before its COMMIT; what follows an unanswered one is `World.RecoverStep`.
- Liveness in time: the queue results count resolved work and `Progress` says what some continuation of every run reaches; neither
  says that workers run.
