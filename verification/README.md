# Schlüssel: a verified model

This project models the durable work and the session store of Schlüssel, the
auth service of a self-hosted platform, and proves what they promise over whole
runs. `dafny verify dfyconfig.toml` checks everything. Nothing was executed: the
statements below are about the model, and the model follows the source line by
line where the table says so.

Four parts:

* **Export jobs.** `ExportRows` is one job's database row, its service rows and
  their attempt ledger, with one function per transaction. `ExportCell` puts the
  job next to the files in its directory and to every dispatch alive on it. A step
  is a stretch of code without `await`; it is a script of persistent effects in
  program order, so that a crash can be placed after any effect, and a removal can
  be torn in the middle. Any number of dispatches, routes, cleanups, lost leases,
  deaths and crashes interleave. `ExportDurable` to `ExportRuns` prove the
  invariant, `ExportTheorems`, `ExportPool` and `ExportRetry` the theorems about one job
  (`ExportWitness` is a run that publishes), `ExportLease`, `ExportArchive` and
  `ExportExpiry` how long a lease and a result last, `ExportEffects` and `ExportStreams`
  what each step leaves in rows, files and counters and what the files come to hold,
  `ExportOwners` the per-owner limits, `ExportStorage` and `ExportQuota` the
  storage budget. The same code is then written imperatively: `ExportDatabase`
  (the tables), `ExportDisk` (the directory) and `ExportDispatch` (the closure
  variables of one batch, one method per stretch). `Dispatch.Did` is the bridge:
  each method performs exactly the effects of its step, in the same order, and
  leaves the variables the step leaves. `ExportTables` does the same for the
  queries that look at other jobs and for the directory scan.
* **Leased queues.** `LeasedQueue` is the claim, attempt, fenced settle protocol
  that the deletion saga and the outbox share, with its theorems; `QueueTable` is
  the mutable table. `DeletionSaga` and `SagaWorker` add the job that folds its
  targets and the drain loop, `Outbox` the dispatcher to Glocke.
* **Sessions.** `Sessions` runs the handlers of `auth.ts` and `admin.ts` stretch by
  stretch, with whatever a request read before an `await` carried along;
  `AuthStore` is the store with one method per handler. Its ghost `trace` grows by
  the handler's stretches, and `Valid` says that the tables are those of the run of
  the trace, so every theorem of `Sessions` holds of the store. `SessionEffects` says
  what the stretches do to sessions, tokens and codes, and which refreshes are accepted
  from then on. `AccountRemoval` runs
  the handlers and the deletion saga together, from a removal to the services' answers.
* **Limiter and counters.** `LoginLimiter` and `AdminStats`.

Wherever Dafny would add an induction hypothesis to a lemma by itself, the lemma
turns that off with `{:induction false}`: every proof is the one written down.

Results that correct or sharpen what one might expect of the code:

* A published partial or failed job can be refused by the retry route, and then
  stays as it is until it expires or its owner goes (`StuckForever`). This happens
  exactly when its archive step stores no error (the archive is finished, or no
  service had succeeded) and no service row had failed before it (`StuckExactly`).
  Seen from the claim: every attempt of the batch succeeded, and what it left
  unfinished, on a shutdown signal or for a registry that lacks the service, had not
  failed before (`StuckFromClaim`, with a run in `StuckAfterShutdown`). With a complete
  registry and no signal retry always accepts (`RetryIsPossible`).
* Self-deletion can remove the last admin when the caller was promoted after
  authenticating, and only then (`AdminKeptExactly`, `LastAdminCanGo`).
* The limiter admits up to 39 recorded failures in a closed interval of fifteen
  minutes when requests come one at a time, not 20; each further request that may
  have passed the check and still await the password hash adds two. The bound
  (`IntervalBound`) is reached for every such number (`BoundIsReached`).
* The clamp at zero in `storage.release` never acts (`ClampNeverActs`), and the
  missing-file branch of the download route is dead (`DownloadNeverMisses`).

## Model

| member | source | states |
|---|---|---|
| ExportRows.NewJobOk | src/routes/exportJobs.ts:118-128 | a new job with its pending service rows satisfies every row, ledger and column invariant |
| ExportRows.ClaimJobOk | src/services/exportWorker.ts:155-188 | claiming, also over a dead dispatch, keeps all row and column invariants and changes no recorded byte count |
| ExportRows.ClaimRows | src/services/exportWorker.ts:166-177 | only running services change: they become pending with their newest attempt closed; attempt counts stay |
| ExportRows.StartedRowOk | src/db/schema.ts:242 | a start appends the next attempt number, which no existing attempt of the service has, so the unique index cannot fire |
| ExportRows.StartAttemptOk | src/services/exportWorker.ts:203-225 | starting an attempt keeps the ledger and column invariants and the recorded bytes |
| ExportRows.FinishAttemptOk | src/services/exportWorker.ts:227-262 | finishing the running attempt keeps them and adds exactly the recorded bytes |
| ExportRows.PublishOk | src/services/exportWorker.ts:657-665 | a publication with consistent arguments leaves status, expiry, lease and archive columns in agreement |
| ExportRows.CancelJobOk | src/routes/exportJobs.ts:196-212 | cancelling keeps every row invariant and closes the running attempts |
| ExportRows.RetryRows | src/routes/exportJobs.ts:242-249 | retry puts exactly the failed services back to pending, touches no other row and no recorded byte |
| ExportRows.ExpireJobOk | src/services/exportWorker.ts:685-698 | cleanup keeps the invariants and cannot touch a queued or running job |
| ExportDurable.NeededFilesExist | src/routes/exportJobs.ts:277-283 | a file named by a row exists and carries the lease of a dispatch that wrote it |
| ExportDurable.TornIsDurable | src/services/exportWorker.ts:608-678 | if rows and files agree after every effect of a stretch, they agree after a crash at any point of it, even inside a removal |
| ExportDurable.PlayIsDurable | src/services/exportWorker.ts:608-678 | and after the whole stretch |
| ExportSteps.ClaimSafe | src/services/exportWorker.ts:408-416 | rows and files agree after the claim and after its sweep, which spares the retained archive and the snapshots |
| ExportFlights.SucceedSaves | src/services/exportWorker.ts:545-549 | rename then record: rows and files agree in between and afterwards |
| ExportFlights.CrashedPool | src/services/exportWorker.ts:553-557 | a failed attempt gives back exactly what it reserved; the clamp does not act |
| ExportPublish.PublishSaves | src/services/exportWorker.ts:642-665 | the archive is in place before the row names it |
| ExportPublish.LoserUnneeded | src/services/exportWorker.ts:666-670 | the archive removed after publication is the one no row names |
| ExportRuns.NextOk | src/services/exportWorker.ts:379-679 | every stretch of every dispatch, route and cleanup keeps the joint invariant of rows, files and all live dispatches |
| ExportRuns.CrashOk | src/services/exportWorker.ts:379-679 | so does a crash after any effect of any stretch |
| ExportTheorems.RunOk | src/services/exportWorker.ts:379-716 | the joint invariant holds after every run of steps and crashes |
| ExportTheorems.FilesAgree | src/services/exportWorker.ts:612-678 | in every run a recorded archive exists with its recorded size, and unless the job is cancelled or expired every succeeded service has its snapshot with the recorded bytes and digest |
| ExportTheorems.LedgerAgrees | src/services/exportWorker.ts:203-262 | in every run attempts are numbered 1..n, only the newest may be running and does so exactly when the service is, each is closed with its end, its error or its size and digest, and a success equals its newest attempt |
| ExportTheorems.ColumnsAgree | src/services/exportWorker.ts:660-665 | in every run: expiry is null exactly for queued and running jobs, completed means every service succeeded with an archive, partial has an archive, failed, cancelled and expired have none, so no cleanup time expires an active job |
| ExportTheorems.FencedStep | src/services/exportWorker.ts:190-201 | a step of a dispatch that has lost its lease changes no row, and the lease stays lost |
| ExportTheorems.FencedForever | src/services/exportWorker.ts:155-262 | a lost lease stays lost in every continuation |
| ExportTheorems.StaleDispatchIsInert | src/services/exportWorker.ts:660-670 | after any continuation no further step of a fenced dispatch changes a job, service or attempt row |
| ExportTheorems.LeaseIsLost | src/services/exportWorker.ts:179-185 | a claim by another dispatch, a cancel, retry, expiry or owner deletion, and a publication, each take the job from the lease |
| ExportTheorems.PublishesOnce | src/services/exportWorker.ts:660-665 | no claim publishes a second time in any continuation |
| ExportTheorems.SucceededForever | src/services/exportWorker.ts:206-209 | in every run a succeeded service row never changes again, the start of the job is set once, attempts are only added and once closed never change, owner and services are fixed and expired is final |
| ExportArchive.PublicationStores | src/services/exportWorker.ts:596-665 | whatever ends a dispatch, an error leaves the archive columns of the row before, with partial if it named one and failed otherwise; no error stores the status the rows deserve and, if anything succeeded, the new archive with the size of its stream; either way it ends at its time and expires after the time to live |
| ExportArchive.ArchiveStays | src/services/exportWorker.ts:601-670 | any event but a publication without an error, a cancel, an expiry or the owner's deletion leaves a served archive named and served, byte by byte |
| ExportArchive.ArchiveServed | src/services/exportWorker.ts:601-670 | so in every run an archive stays downloadable by its owner until one of those four |
| ExportArchive.PublishedIsStream | src/services/exportWorker.ts:641-645 | after a publication without an error the owner downloads exactly what passed the limiter |
| ExportArchive.NoLeftovers | src/services/exportWorker.ts:646-670 | however a zip ends its temporary file is gone, its archive stays only if the row names it, and an archive it replaced is gone |
| ExportLease.LeaseStep | src/services/exportWorker.ts:196-201 | only a renewal of its own moves the end of a lease that is still held, at any event or crash |
| ExportLease.ClaimEnabled | src/services/exportWorker.ts:157-163 | a queued job can be claimed at any time, a running one exactly from the end of its lease on, any other never |
| ExportLease.LeaseHolds | src/services/exportWorker.ts:179-201 | in every continuation in which the holder still owns the job its lease ends where its last renewal put it |
| ExportLease.LeaseExcludes | src/services/exportWorker.ts:155-201 | from a claim on, for as long as the claimer owns the job, nobody else can claim it before the end of the lease, and from then on anybody can |
| ExportLease.NobodyElseClaims | src/services/exportWorker.ts:155-201 | a lease taken or renewed to t and never renewed to less keeps every other dispatch off the job until t |
| ExportExpiry.KeptTill | src/services/exportWorker.ts:681-716 | until its expiry time a finished job keeps its row and its archive in every continuation without retry or owner deletion, whatever cleanups run |
| ExportExpiry.ExpiresFrom | src/services/exportWorker.ts:685-698 | a cleanup from that time on expires the job, takes its archive columns and makes the download gone; an earlier one changes nothing |
| ExportExpiry.PublishedIsKept | src/services/exportWorker.ts:599 | a publication at t is kept, row and archive, through every cleanup before t plus the time to live, and may be expired from then on |
| ExportExpiry.CancelStops | src/routes/exportJobs.ts:193-219 | a cancel is possible exactly while the job is queued or running; it closes the job, its open services and their attempts, drops the archive columns, and empties the directory at once if the job was queued |
| ExportExpiry.CancelledIsKept | src/routes/exportJobs.ts:196-203 | a cancelled job is kept for the time to live from its cancel |
| ExportExpiry.CancelledWiped | src/services/exportWorker.ts:672-678 | a dispatch of a cancelled job that returns leaves the directory empty |
| ExportExpiry.BareForever | src/services/exportWorker.ts:672-678 | and once the last one has returned no file comes back in any continuation |
| ExportEffects.ClaimTakes | src/services/exportWorker.ts:155-188 | the claimed row column by column: running under the lease, started once, no end, no error, archive kept, running services interrupted; of the files the snapshots and the named archive stay |
| ExportEffects.RetryRequeues | src/routes/exportJobs.ts:223-253 | possible exactly for a partial or failed job with a failed service or an error; then it is queued with its archive kept and its failed services clean but for their attempts |
| ExportEffects.AttemptStarts | src/services/exportWorker.ts:203-225 | a runner with the lease and a service left starts the next attempt over a clean row, renews the lease and drops a stale temporary file |
| ExportEffects.NothingStarts | src/services/exportWorker.ts:434-440 | and in no other case does it |
| ExportEffects.AttemptSucceeds | src/services/exportWorker.ts:545-549 | the recorded name, size and digest are those of the file that was written; only this row and its newest attempt change |
| ExportEffects.AttemptFails | src/services/exportWorker.ts:553-561 | both files of the attempt go; row and newest attempt fail with the error exactly while the lease is held |
| ExportEffects.ChunkDecides | src/services/exportWorker.ts:451-457 | a chunk is counted and appended exactly when it keeps the response, aggregate, quota and free-space limits; otherwise nothing is |
| ExportEffects.ZipBlockDecides | src/services/exportWorker.ts:345-353 | a block of the archive is admitted exactly when it keeps quota and reserve |
| ExportEffects.FinishCloses | src/services/exportWorker.ts:592-620 | with no service succeeded, or no room under the retained limit, the quota or the reserve, in this order, the job is closed with that reason |
| ExportEffects.FinishZips | src/services/exportWorker.ts:598-620 | otherwise the zip begins, with the status the rows deserve and a renewed lease |
| ExportStreams.SnapshotIsStream | src/services/exportWorker.ts:506-549 | from the start of an attempt to its success, whatever runs in between, the recorded snapshot is the concatenation of the chunks the attempt took |
| ExportStreams.ArchiveIsStream | src/services/exportWorker.ts:341-376 | from the start of the zip to its publication, whatever runs in between, the owner downloads the concatenation of the blocks it admitted |
| ExportPool.BytesConserved | src/services/exportWorker.ts:426-457 | at any interleaving of runners the aggregate counter is the recorded bytes plus the bytes in flight, within both limits, and equals the recorded sum when nothing is in flight |
| ExportPool.PoolBounded | src/services/exportWorker.ts:582-590 | never more than the configured number of attempts is in flight |
| ExportPool.NeverStuck | src/services/exportWorker.ts:573-678 | whatever happened to its lease, files and job, a live dispatch has a step of its own that moves it on, the failure of what it awaits counted as one |
| ExportPool.StepsBounded | src/services/exportWorker.ts:582-671 | in every run a dispatch makes at most three steps per service, one per runner and two more, streaming aside, before it returns |
| ExportPool.CanFinish | src/services/exportWorker.ts:573-678 | from every state a dispatch can be alive in, its own steps alone lead it to its end, in no more steps than lie ahead of it |
| ExportPool.CanPublish | src/services/exportWorker.ts:592-665 | and while nobody takes its lease away they lead it to its publication |
| ExportPool.PoolCompletes | src/services/exportWorker.ts:574-590 | when the pool has drained, every listed service that no runner passed over on the signal was attempted exactly once since the claim and has succeeded or failed; every other row is as claimed |
| ExportPool.StillCovers | src/services/exportWorker.ts:574-582 | the work list still covers every unfinished row after any continuation |
| ExportRetry.PublishedResult | src/services/exportWorker.ts:598-659 | a publication leaves the service rows as they are and stores an archive error, or none and the status the rows deserve, which of the two known before it |
| ExportRetry.StuckExactly | src/routes/exportJobs.ts:236-240 | a published partial or failed job is refused by retry exactly when its archive step is one that stores no error and no service row had failed before it |
| ExportRetry.StuckFromClaim | src/routes/exportJobs.ts:236-240 | seen from the claim: refused exactly when, besides, every service attempted since succeeded and every unfinished one that was passed over on the signal or is missing from the registry had not failed |
| ExportRetry.RetryIsPossible | src/routes/exportJobs.ts:230-248 | with a registry that serves every row and no service passed over, whatever is published short of complete passes the retry check |
| ExportRetry.StuckForever | src/routes/exportJobs.ts:230-248 | a refused job keeps its very row in every continuation, until it expires or its owner is deleted, and is refused throughout |
| ExportRetry.StuckAfterShutdown | src/services/exportWorker.ts:435 | a concrete run with a shutdown signal ends in such a job |
| ExportPool.DownloadNeverMisses | src/routes/exportJobs.ts:266-289 | in every run the route serves an archive exactly when the row names one to its owner, with the recorded number of bytes, and never takes the missing-file branch |
| ExportWitness.ExportCompletes | src/services/exportWorker.ts:379-679 | a concrete run claims, fetches, archives and publishes a job whose archive the download route then streams, so the states the theorems speak of occur |
| ExportOwners.EventDelta | src/services/exportWorker.ts:606-665 | only retry activates a job, and only a publication may store new archive bytes, those of the file it renamed |
| ExportOwners.AtOneActive | src/routes/exportJobs.ts:231-235 | an event on one job keeps at most one active job per owner and the spacing of creations |
| ExportOwners.AtRoomyOther | src/services/exportWorker.ts:607-617 | while a dispatch is zipping, no event on another job of the owner uses up the room its retained check found |
| ExportOwners.AtBytes | src/services/exportWorker.ts:615-617 | an event keeps the sum of an owner's retained archives within the cap |
| ExportOwners.CreateOk | src/routes/exportJobs.ts:91-128 | a creation past all refusals keeps the per-owner invariants |
| ExportOwners.SiteRunOk | src/routes/exportJobs.ts:91-143 | the per-owner invariants hold after every run over all jobs |
| ExportOwners.OwnerLimits | src/db/schema.ts:200-202 | in every run an owner has at most one active job, creations are a cooldown apart, retained jobs stay within their limit and, if zips fit their bound, retained bytes within the cap |
| ExportStorage.BurdenCovers | src/services/exportWorker.ts:279-311 | the bytes on disk are at most settled files plus reservations |
| ExportStorage.SucceedCovers | src/services/exportWorker.ts:545-549 | a recorded snapshot moves its bytes from the reservation to the settled files |
| ExportStorage.ActorCovers | src/services/exportWorker.ts:289-311 | no step of a dispatch shrinks the distance between its usage and what the disk holds or may come to hold, nor raises usage past the quota |
| ExportStorage.CrashBytes | src/services/exportWorker.ts:341-376 | a crash inside a stretch leaves no more bytes than its beginning or its end |
| ExportQuota.EventCharge | src/services/exportWorker.ts:289-311 | the writing dispatch stays charged for everything on disk across its own steps and all routes and cleanup |
| ExportQuota.QuotaHolds | src/services/exportWorker.ts:731-739 | with one active dispatch at a time a directory that starts within quota stays within it at every instant of every run, and usage never falls below the bytes really there |
| ExportQuota.ClampNeverActs | src/services/exportWorker.ts:307-309 | in every run, with any number of dispatches, every release, also that of an archive refused before it was begun, is at most what is reserved and still counted |
| ExportDatabase.RetryAfterIsExact | src/routes/exportJobs.ts:105-109 | the Retry-After seconds cover the remaining cooldown and exceed it by less than a second |
| ExportDatabase.Database.SelectNext | src/services/exportWorker.ts:157-163 | finds the claimable job with the least creation time and id, or shows there is none |
| ExportDatabase.Database.SelectLatest | src/routes/exportJobs.ts:102-104 | finds the owner's latest creation time |
| ExportDatabase.Database.SelectRetained | src/routes/exportJobs.ts:111-114 | counts the owner's unexpired jobs and sums their archive bytes |
| ExportDatabase.Database.SelectOthersBytes | src/services/exportWorker.ts:607-610 | sums the archive bytes of the owner's other unexpired jobs |
| ExportDatabase.Database.ClaimNextJob | src/services/exportWorker.ts:155-188 | claims the oldest queued job or running job whose lease is over, by creation time and id, puts it under the lease until now plus the lease time and changes no other; a job under a live lease is never handed out |
| ExportDatabase.Database.RenewLease | src/services/exportWorker.ts:196-201 | moves the lease only of the job the lease owns |
| ExportDatabase.Database.StartServiceAttempt | src/services/exportWorker.ts:203-225 | starts exactly when the lease is owned and the service has not succeeded, with the row and the attempt the transaction writes |
| ExportDatabase.Database.FinishServiceAttempt | src/services/exportWorker.ts:227-262 | reports whether the lease was owned and, only then, settles row and attempt |
| ExportDatabase.Database.Finalize | src/services/exportWorker.ts:660-665 | one changed row exactly when the lease is owned, with every published column |
| ExportDatabase.Database.CreateOrGetActiveJob | src/routes/exportJobs.ts:86-144 | creates exactly when no job is active, the cooldown has passed and both retained limits leave room; returns the active job otherwise, or a wait that ends the cooldown while a second less would not |
| ExportDatabase.Database.Cancel | src/routes/exportJobs.ts:187-221 | cancels exactly the caller's queued or running job, and asks for the directory's removal exactly when it was queued |
| ExportDatabase.Database.Retry | src/routes/exportJobs.ts:223-264 | requeues exactly the caller's job that has something to retry while no other job of the caller is active |
| ExportDatabase.Database.ExpireJobs | src/services/exportWorker.ts:685-698 | expires exactly the unexpired jobs whose expiry time has come, taking their archive columns, and changes no other |
| ExportDisk.Disk.DirectoryBytes | src/services/exportWorker.ts:279-287 | the recursive scan returns the sum of all file sizes |
| ExportDisk.CleanupExpiredExports | src/services/exportWorker.ts:681-716 | afterwards a job is expired exactly if it was or its time has come, every other job keeps its row and folder, and the directory holds no other folder |
| ExportDispatch.StorageBudget.Check | src/services/exportWorker.ts:296-300 | refuses on the quota first, then on the free-space reserve, and exactly then |
| ExportDispatch.StorageBudget.Reserve | src/services/exportWorker.ts:303-306 | counts the bytes exactly when both checks pass |
| ExportDispatch.SweepDirectory | src/services/exportWorker.ts:410-416 | removes every export and temporary file but the retained archive, and nothing else |
| ExportDispatch.RecordedBytes | src/services/exportWorker.ts:426-429 | sums the bytes of the succeeded services |
| ExportDispatch.ListWork | src/services/exportWorker.ts:574-581 | lists each unfinished service of the registry exactly once |
| ExportDispatch.Dispatch.constructor | src/services/exportWorker.ts:408-429 | after the sweep, the scan and the queries the batch starts from the state the step model's claim gives it |
| ExportDispatch.Begin | src/services/exportWorker.ts:401-429 | a batch claims the first claimable job and then is the step model's claim, effects in order, or finds none and changes nothing |
| ExportDispatch.Dispatch.DidIsNext | src/services/exportWorker.ts:434-671 | a method that did a step's effects and left its variables has reached the step model's next state |
| ExportDispatch.Dispatch.AttemptService | src/services/exportWorker.ts:434-442 | the fence, the renewal, the attempt and the stale file, in this order, up to the first await |
| ExportDispatch.Dispatch.Take | src/services/exportWorker.ts:584-586 | one turn of a runner's loop is the step that takes the next service |
| ExportDispatch.Dispatch.Return | src/services/exportWorker.ts:587 | a runner goes on exactly when the lease is still owned |
| ExportDispatch.Dispatch.Reserve | src/services/exportWorker.ts:451-457 | reserves on all three counters exactly when every limit allows it, and otherwise on none |
| ExportDispatch.Dispatch.Open | src/services/exportWorker.ts:513 | is the step that creates the temporary file |
| ExportDispatch.Dispatch.Chunk | src/services/exportWorker.ts:516-526 | is the step of one chunk: reserved before it is written, refused without a trace |
| ExportDispatch.Dispatch.Succeed | src/services/exportWorker.ts:545-552 | is the step that renames and then records; the branch for a lost lease there is dead |
| ExportDispatch.Dispatch.Fail | src/services/exportWorker.ts:553-561 | is the step that removes both files, gives the bytes back and records the failure |
| ExportDispatch.Dispatch.Heartbeat | src/services/exportWorker.ts:431 | is the renewal step |
| ExportDispatch.CountDecides | src/services/exportWorker.ts:596-598 | counting succeeded rows decides the final status by all, some or none |
| ExportDispatch.Dispatch.CheckArchive | src/services/exportWorker.ts:615-618 | refuses the archive by the retained limit, the quota, then the reserve |
| ExportDispatch.Dispatch.Finish | src/services/exportWorker.ts:592-620 | is the step after the runners: exit when fenced, finish without an archive, give up, or start zipping, with the retained bytes read from the tables |
| ExportDispatch.Dispatch.GiveUp | src/services/exportWorker.ts:646-665 | removes both archive files, publishes what was published before with the error, and runs the final block |
| ExportDispatch.Dispatch.ZipReserve | src/services/exportWorker.ts:345-353 | is the limiter step in front of the archive file |
| ExportDispatch.Dispatch.ZipFlush | src/services/exportWorker.ts:373 | is the step in which reserved bytes reach the disk, in the order of the stream |
| ExportDispatch.Dispatch.PublishArchive | src/services/exportWorker.ts:642-670 | rename, fenced update, removal of whichever archive lost, final block, in this order |
| ExportDispatch.Dispatch.ZipDone | src/services/exportWorker.ts:641-671 | is the publishing step |
| ExportDispatch.Dispatch.ZipFail | src/services/exportWorker.ts:646-665 | is the giving-up step |
| ExportDispatch.Dispatch.Leave | src/services/exportWorker.ts:672-678 | wipes the directory exactly when the job is cancelled |
| ExportTables.CreationMatches | src/routes/exportJobs.ts:92-116 | the creation transaction inserts exactly when the step model lets a job appear |
| ExportTables.OthersMatch | src/services/exportWorker.ts:607-610 | the finalizer's query is the bound the step model checks |
| ExportTables.RetryMatches | src/routes/exportJobs.ts:231-235 | the retry route's query is the step model's guard |
| ExportTables.ScanMatches | src/services/exportWorker.ts:279-287 | the directory scan returns the total that the storage theorems bound |
| ExportTables.StartMatches | src/services/exportWorker.ts:410-424 | a batch that scans the disk right after its sweep starts with the usage the storage theorems require of the claim |
| LeasedQueue.DoOk | src/services/outboxDispatcher.ts:96-106 | every event keeps attempts below the maximum while an item is open and within it when closed, lease columns set exactly in flight, and each holder's count current while it holds |
| LeasedQueue.ClaimsExact | src/services/outboxDispatcher.ts:41-73 | in every run the claims of an item are its settled attempts plus its takeovers plus one if in flight |
| LeasedQueue.UntouchedExactly | src/services/deletionSaga.ts:61-75 | an item was never claimed exactly when it is pending without an attempt |
| LeasedQueue.TerminalForever | src/services/deletionSaga.ts:157-160 | delivered and permanent items never change in any continuation |
| LeasedQueue.TakeoverFences | src/services/outboxDispatcher.ts:64-68 | a later claim or the settle itself takes the item from the lease |
| LeasedQueue.LateSettleIsInert | src/services/deletionSaga.ts:92-96 | once taken over, the late settle of the old lease changes no item in any continuation |
| LeasedQueue.DeliveredBySuccess | src/services/outboxDispatcher.ts:193-203 | an item is delivered by exactly one settle, whose verdict was success and whose lease was still held |
| LeasedQueue.SettleDecides | src/services/outboxDispatcher.ts:193-260 | a settle that holds its lease delivers on success, closes on refusal or when the attempts are used up, and otherwise leaves the item pending until the verdict's time, one attempt spent |
| LeasedQueue.LateSettle | src/services/outboxDispatcher.ts:96-106 | a settle that does not find its lease changes no item |
| LeasedQueue.EnqueueMakes | src/services/deletionSaga.ts:27-48 | a new item waits without an attempt for the time it was given |
| LeasedQueue.WaitsForItsTime | src/services/outboxDispatcher.ts:41-53 | a waiting item keeps its row until its next claim, which is possible from its due time on and at no time before |
| LeasedQueue.RetryWaits | src/services/outboxDispatcher.ts:218-228 | so a retry verdict with attempts left means one attempt more and the next claim exactly from its time on, in any continuation |
| LeasedQueue.LeaseKeepsOut | src/services/outboxDispatcher.ts:41-73 | after a claim, while the item is in flight, no other dispatch can take it before the lease runs out, and from then on any can |
| LeasedQueue.PermanentBecause | src/services/outboxDispatcher.ts:204-260 | in every run a permanent item was closed by a settle that was refused or used up its last attempt |
| LeasedQueue.TurnIsTwoEvents | src/services/outboxDispatcher.ts:124-260 | a dispatch nobody disturbs is one claim and one settle of the step model |
| QueueTable.Table.SelectEligible | src/services/deletionSaga.ts:63-65 | finds an eligible item no eligible item precedes, or shows there is none |
| QueueTable.Table.Claim | src/services/outboxDispatcher.ts:54-73 | puts the first eligible item in flight under the lease and reads its attempts |
| QueueTable.Table.Update | src/services/outboxDispatcher.ts:96-106 | writes only an item that is in flight under this very lease |
| QueueTable.Table.SettleAttempt | src/services/outboxDispatcher.ts:193-260 | the branches after an attempt deliver, retry at the given time or close the item the lease holds, as the protocol's settle does, and touch no other |
| DeletionSaga.DelayBounds | src/services/deletionSaga.ts:105-107 | a delay is non-negative, within the doubled base and strictly below the maximum |
| DeletionSaga.CapDoubles | src/services/deletionSaga.ts:105-107 | the cap is the base, doubled by every further attempt, up to the maximum |
| DeletionSaga.DelayIsFraction | src/services/deletionSaga.ts:105-107 | the delay is the drawn fraction of the cap, rounded down |
| DeletionSaga.VerdictMeans | src/services/deletionSaga.ts:125-175 | success is reported exactly for a 2xx answer of a configured service, a retry exactly for a broken request, 408, 429 or 5xx, due exactly the delay after its completion and within the maximum |
| DeletionSaga.SettledFold | src/services/deletionSaga.ts:77-99 | a settle, current or late, leaves the job on the fold of its targets |
| DeletionSaga.SagaIsQueue | src/services/deletionSaga.ts:61-99 | the saga's targets run as a leased queue, so every queue theorem holds of them |
| DeletionSaga.StatusIsFold | src/services/deletionSaga.ts:35-46 | in every run a job is completed iff all targets are delivered, failed iff all are closed with one permanent, pending iff it has targets and none was ever claimed |
| DeletionSaga.EnqueueCovers | src/services/deletionSaga.ts:27-48 | from its transaction on, in every run, a deletion job has exactly one target per service it was created for |
| DeletionSaga.EnqueuedAreDue | src/services/deletionSaga.ts:36-44 | each of its targets can be claimed from the time of the transaction on |
| DeletionSaga.DeliveredByAnswer | src/services/deletionSaga.ts:125-160 | in every run whose settles decide by the answers they got, a delivered target's service was configured and answered 2xx |
| DeletionSaga.GivenUpByAnswer | src/services/deletionSaga.ts:117-175 | in every such run a permanent target was closed because its service was not configured, answered neither 2xx nor anything worth a retry, or had its last attempt |
| DeletionSaga.StartedOnce | src/services/deletionSaga.ts:70-73 | in every run the start of a job never moves |
| DeletionSaga.FirstClaimStarts | src/services/deletionSaga.ts:70-73 | the first claim of one of its targets starts a job |
| DeletionSaga.LastSettleEnds | src/services/deletionSaga.ts:77-84 | the settle that closes the last open target ends the job at its time |
| AccountRemoval.RemovalKeepsTargets | src/services/deletionSaga.ts:27-48 | once a removal has committed, in every run of handlers and workers its job has exactly one target per service enabled at that moment |
| AccountRemoval.EveryRemovalFollowed | src/routes/admin.ts:217-230 | everybody who ever registered is still there, or some event removed them and its job has exactly one target per service enabled then |
| AccountRemoval.CompletedByAnswers | src/services/deletionSaga.ts:77-84 | when a removed user's job is completed, every service enabled at the removal has answered 2xx to a deletion request of that job |
| SagaWorker.SettleSpends | src/services/deletionSaga.ts:86-99 | a settle that finds its lease spends at least one of the remaining attempts, a late one none |
| SagaWorker.FirstPrecedes | src/services/deletionSaga.ts:63-65 | the claimed target precedes every other eligible one: no due time first, then the earlier, the smaller job, the service first in the alphabet |
| SagaWorker.TurnSpends | src/services/deletionSaga.ts:117-182 | every dispatch that finds work shrinks the remaining attempts, whatever it is answered |
| SagaWorker.DispatchIsTwoEvents | src/services/deletionSaga.ts:117-182 | one dispatch on the tables is the step model's claim followed by its settle |
| SagaWorker.Worker.EnqueueDeletionJob | src/services/deletionSaga.ts:27-48 | inserts the job and one due target per service, or a completed job when there is none |
| SagaWorker.Worker.Claim | src/services/deletionSaga.ts:61-75 | claims the first target by due time with nulls first, job and service, and marks its job running |
| SagaWorker.Worker.UpdateJob | src/services/deletionSaga.ts:77-84 | closes the job exactly when all its targets are closed |
| SagaWorker.Worker.Settle | src/services/deletionSaga.ts:86-99 | the fenced update and the job update together |
| SagaWorker.Worker.DispatchDeletionTarget | src/services/deletionSaga.ts:117-182 | either nothing is eligible and nothing changes, or the first eligible target has had one attempt |
| SagaWorker.Worker.Drain | src/services/deletionSaga.ts:190-194 | at a fixed clock the loop ends whatever is answered, even with zero delays, after at most as many dispatches as attempts were left, and nothing is eligible then |
| Outbox.OutboxVerdictMeans | src/services/outboxDispatcher.ts:193-256 | delivered exactly on success of a valid event, retried exactly after a transient answer or a thrown request; a retry is never early and always at a representable time, within the maximum delay without a Retry-After and exactly then, or at the last representable time, with one |
| Outbox.TimesAlwaysFit | src/services/outboxDispatcher.ts:219-256 | in every run, whatever is answered or thrown, every time stored in the outbox is a safe integer |
| Outbox.DeliveredByResponse | src/services/outboxDispatcher.ts:193-203 | in every run whose settles decide by their own attempts, a delivered event was valid and got a success response |
| Outbox.GivenUpByResponse | src/services/outboxDispatcher.ts:204-260 | in every such run a permanent event was invalid, rejected, or had its last attempt |
| Outbox.Dispatcher.DispatchOutboxBatch | src/services/outboxDispatcher.ts:108-269 | throws for an invalid configuration before anything is claimed; otherwise either nothing is eligible and nothing changes, or the oldest eligible event has had one attempt with that verdict |
| Sessions.StepOk | src/routes/auth.ts:176-239 | every stretch keeps ownership, conservation and the removal record |
| Sessions.OwnershipHolds | src/routes/auth.ts:397-410 | at any interleaving a stored token's subject is its row's user, a code's session was created for the code's user, and so is every session a request has read |
| Sessions.RefreshRevokes | src/routes/auth.ts:482-512 | the revocation in a refresh ends the session it read and writes the notice to its owner |
| Sessions.RotationKeepsSession | src/routes/auth.ts:483-487 | a live row is what was created but for its hash |
| Sessions.BornForever | src/routes/auth.ts:176-197 | a session, whether established or created by a password change, that is still live after any continuation has the owner and the expiry it was created with |
| Sessions.BornByStep | src/routes/auth.ts:558-582 | every session of a run was created by one of its steps, with that step's user, time and lifetime |
| Sessions.BornOnce | src/routes/auth.ts:176-197 | and by no later one |
| Sessions.RefreshBound | src/routes/auth.ts:446-448 | in every run, a refresh that is accepted lies within the shorter of the preference and seven days after the step that created its session, by establishing or by password change, however often it was rotated, and its token belongs to that step's user |
| Sessions.SessionsConserved | src/routes/auth.ts:806-832 | every session ever created is live, has a committed notice to its owner, or was swept after its expiry |
| SessionEffects.PasswordEnds | src/routes/auth.ts:563-592 | after a password change the user's sessions are exactly the new one, each earlier one is gone and announced, and nobody else's changes |
| SessionEffects.ForceLogoutEnds | src/routes/admin.ts:190-195 | after a forced logout the target has no session, each is announced, and nobody else's changes |
| SessionEffects.RemovalEnds | src/routes/admin.ts:217-230 | a removal takes the user, all sessions with their notices and all codes, and nothing of anybody else |
| SessionEffects.RevokeEnds | src/routes/auth.ts:821-832 | a revocation ends exactly the listed sessions of its user, each announced |
| SessionEffects.SweepEnds | src/routes/auth.ts:742-754 | a sweep ends exactly its user's sessions whose last second is over |
| SessionEffects.EstablishOpens | src/routes/auth.ts:176-197 | an established session is live with its token and the shorter of the preference and seven days |
| SessionEffects.RotateChanges | src/routes/auth.ts:482-487 | a rotation changes the one token hash and nothing else |
| SessionEffects.CodesChange | src/routes/auth.ts:229-239 | a code names its user and session for a minute, until it is dropped or swept |
| SessionEffects.EndedForever | src/routes/auth.ts:446-448 | after a password change, a forced logout or a removal no token of an earlier session of that user is accepted in any continuation |
| SessionEffects.RevokedForever | src/routes/auth.ts:446-448 | nor is a token of a revoked session |
| SessionEffects.TokenIsLatest | src/routes/auth.ts:482-487 | in every run a live session holds the token it was created with or last rotated to |
| SessionEffects.RefreshExactly | src/routes/auth.ts:441-448 | a refresh of a live session is accepted exactly for that token and exactly until the lifetime given at its creation is over |
| Sessions.RemovalsFollowed | src/routes/admin.ts:217-230 | everybody who ever registered is still there or has a deletion job |
| Sessions.AdminKeptExactly | src/routes/auth.ts:616-632 | a step loses the last admin exactly when it is a self-deletion with a stale member role by the only admin |
| Sessions.AdminRemains | src/routes/admin.ts:159-168 | without such a step there is an admin in every run from the first registration on |
| Sessions.RefusesExactly | src/routes/admin.ts:159-168 | the guard refuses an admin exactly when nobody else is one |
| Sessions.LastAdminCanGo | src/routes/auth.ts:616-620 | a concrete run in which the last admin goes |
| AuthStore.Store.InsertSessionCleanup | src/routes/auth.ts:806-819 | one notice per id, in order |
| AuthStore.Store.RevokeSessions | src/routes/auth.ts:821-832 | removes the listed sessions of this user only and writes a notice for each id; nothing for an empty list |
| AuthStore.Store.EstablishSession | src/routes/auth.ts:176-197 | inserts the session with the capped lifetime, or nothing when the user is gone |
| AuthStore.Store.Login | src/routes/auth.ts:358-369 | a trusted login establishes one session and binds the code to it, an untrusted one establishes none: the trace grows by just these stretches |
| AuthStore.Store.TakeCode | src/routes/auth.ts:375-384 | drops what has expired, then takes the code exactly when it is stored and unexpired, so that a second redemption finds nothing |
| AuthStore.Store.ResumeSession | src/routes/auth.ts:397-410 | rotates the session the code is bound to while it lives, or establishes one |
| AuthStore.Store.RedeemCode | src/routes/auth.ts:372-426 | grants exactly for an unexpired stored code with its verifier, and grows the trace by the handler's stretches |
| AuthStore.Store.SpendToken | src/routes/auth.ts:482-512 | a trusted origin rotates the token in place, for others it works once: the session ends with its notice |
| AuthStore.Store.Refresh | src/routes/auth.ts:428-515 | accepts exactly an unexpired stored token of an existing user, legacy only when trusted, and grows the trace by the read, the rotation or revocation, and the code bound to the same session |
| AuthStore.Store.Logout | src/routes/auth.ts:517-526 | ends exactly the session the token unlocks |
| AuthStore.Store.ChangePassword | src/routes/auth.ts:563-592 | the user's sessions are exactly the new one, each earlier one gone with its notice, other users' untouched; or nothing happens for a user who is gone |
| AuthStore.Store.ListSessions | src/routes/auth.ts:742-754 | sweeps exactly the caller's expired sessions and lists the rest |
| AuthStore.Store.DeleteSession | src/routes/auth.ts:769-785 | ends exactly a session of the caller |
| AuthStore.Store.DeleteAllSessions | src/routes/auth.ts:790-800 | ends all sessions of the caller with their notices |
| AuthStore.Store.RemoveUser | src/routes/admin.ts:224-228 | notices for all sessions, a deletion job, and the user gone with sessions and codes |
| AuthStore.Store.DeleteAccount | src/routes/auth.ts:598-639 | refuses exactly the last admin by the role read at authentication |
| AuthStore.Store.DeleteUser | src/routes/admin.ts:203-236 | refuses exactly the last admin by the role in the transaction |
| AuthStore.Store.SetRole | src/routes/admin.ts:159-168 | refuses exactly to demote the last admin |
| AuthStore.Store.ForceLogout | src/routes/admin.ts:190-195 | the target's sessions are none, each with its notice, and other users' are untouched |
| AuthStore.Store.InsertUser | src/routes/auth.ts:303-319 | the transaction inserts with the role decided before it, and only the first user without an invite |
| AuthStore.Store.Register | src/routes/auth.ts:270-319 | registers the first user as admin and later ones exactly with an invite |
| LoginLimiter.Limiter.IsLoginRateLimited | src/utils/rateLimit.ts:27-35 | answers as a fold over the whole history does; its eviction changes no later answer |
| LoginLimiter.Limiter.RecordLoginFailure | src/utils/rateLimit.ts:37-45 | extends the history by one failure and keeps the map in agreement with it |
| LoginLimiter.Limiter.RecordLoginSuccess | src/utils/rateLimit.ts:47-49 | extends the history by a success and keeps the map in agreement with it |
| LoginLimiter.RunIsFold | src/routes/auth.ts:336-346 | requests that check and later record see the bucket the history folds to |
| LoginLimiter.FewFailuresPass | src/utils/rateLimit.ts:27-45 | nobody is limited with fewer than twenty failures since the last success |
| LoginLimiter.SuccessClears | src/utils/rateLimit.ts:47-49 | after a success only what fails afterwards counts |
| LoginLimiter.BlockedExactly | src/utils/rateLimit.ts:23-45 | within one window the key is blocked exactly from the twentieth failure until the window's fifteen minutes are over |
| LoginLimiter.IntervalBound | src/utils/rateLimit.ts:23-45 | any closed fifteen minutes without a success hold at most 2 (19 + c) - 1 recorded failures with c requests at once past the check: 39 for one |
| LoginLimiter.BoundIsReached | src/utils/rateLimit.ts:23-45 | for every c some history reaches that bound |
| AdminStats.CountsAddUp | src/routes/admin.ts:126-141 | the per-user counts of active sessions add up to the total |
| AdminStats.ActiveForCounts | src/routes/admin.ts:126-131 | a user's count is the number of sessions of that user that have not expired |
| AdminStats.EveryDayCounts | src/routes/admin.ts:297-305 | the day buckets are the numbers of registrations within each day |
| AdminStats.CountSessions | src/routes/admin.ts:127-131 | the loop's map holds every user's number of unexpired sessions |
| AdminStats.ListUsers | src/routes/admin.ts:133-142 | the column of the users page sums to the total of the stats page |
| AdminStats.BucketsWithin | src/routes/admin.ts:297-305 | the thirty day buckets hold at most the thirty-day count, which is at most all users |
| AdminStats.Stats | src/routes/admin.ts:293-312 | thirty consecutive distinct days ending today with their counts, within the thirty-day count, within all users |

## Left out

- The HTTP layer, schemas, CORS, cookies, OpenAPI and the frontend: plumbing.
- Cryptography and encodings: SHA-256 is an injective constructor, ids and tokens are fresh, bcrypt and PKCE comparisons are an arbitrary outcome.
- `@zudar107/schloss-server-kit` is not part of this model: the response class, the Retry-After value, the backoff and the envelope check are arbitrary arguments of the outbox dispatch; of the backoff only that it is at most the maximum delay it is given is used, in `OutboxVerdictMeans` and `TimesAlwaysFit`.
- ZIP format and streams: the archive is written in arbitrary chunks, each reserved first. That the finished file is at most the snapshots plus one mebibyte is an assumption of the retained-bytes limit only (`ExportOwners.ZipFits`).
- `rm` succeeds, and `chmod` and `stat` on the renamed archive do not fail; database statements do not fail except by the foreign keys that are modelled.
- The existence of a job's directory: the model keeps its files, so a write after the directory was wiped appears as a write of a new file or, under an open descriptor, as no file at all.
- Timers, heartbeat scheduling and the start and stop of workers: heartbeats, deaths and lease expiries happen at arbitrary times, so no theorem rests on timing. No fairness is assumed either: progress is stated as `CanFinish`, `CanPublish`, `StepsBounded` and the end of the saga's drain loop.
- `startExportWorker`'s guard against a second active dispatch is used only for the storage quota (`ExportQuota.StartsAlone`); every other export theorem allows any number of concurrent dispatches.
- Deletion of files by anybody else.
- `export_job_events` (the audit table), progress pages and the listing routes: they only read or append.
- Invites beyond whether one was redeemed, profile fields, the theme preference and connected accounts.
- A deletion job's `completedAt` and how often it is written; one cleanup notice per session is promised, not exactly one.
- The HMAC credentials that a dispatch demands before anything else.
- The maximum number of attempts is one number per run of a queue; every other setting may differ by dispatch.
- Job and event ids are naturals, and their order stands for the text order of the ids.
- AuthStore.Store.RedeemCode: does not promise that a code is granted once when two redemptions interleave at their awaits, because the handlers of the store run one at a time; who owns what at any interleaving is in `Sessions`.
