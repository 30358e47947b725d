# Verification of the Shopify mirror runtime

A Dafny model of the platform's hardest behaviour, with proofs:

- **The sync protocol.** API, outbox publishers, broker and any number of workers act on one database. Every
  database transaction is one atomic step; publishes may be confirmed, refused or ambiguous, acknowledgements may get
  lost, messages are redelivered, workers crash, leases expire and are taken over. `SyncDatabase` holds the
  transactions as functions, `Postgres`, `Queue`, `Worker` and `Outbox` the same code as programs with loops and
  assignments proved against them, `SyncProtocol` the steps, and `SyncInvariants`, `SyncProtocolInvariants`,
  `SyncService` and `SyncSafety` what holds over every execution. `SyncBindings` ties the protocol's causes, hand-off
  and publisher steps to the programs; `SyncBurial` says what becomes of the run of a dead-lettered job, and
  `SyncWitness` exhibits the exceptional states. `SyncLaws` states each transaction in columns and constants, apart
  from the functions that the programs share with it, and `SyncProgress` the ways forward.
- **The mirror.** `Decoder` (bulk lines to resources), `MirrorBatch` (newest-wins normalisation), `MirrorTables`
  (upserts, deletions and the foreign-key cascade) refine "the store's mirror is this batch"; `MirrorHistory` says
  what the tables show after any sequence of transactions, and `MirrorExecution` after any execution of the protocol.
  `MirrorInput` relates the normal form to the batch as it was read, `MirrorColumns` the tables to it.
- **The console's navigation.** `Navigation` builds the tree through a map, mutable child lists and a recursive
  in-place sort; `NavigationCycles` says when that sort ends, `NavigationColumns` who sees what and in
  which order, and `MenuPage` holds the menu page's depth recursion.
- **Token rotation** under the row lock (`TokenRotation`), after section 6 of RFC 6749, and the scope checks (`Scopes`).
- **Role management and Casbin** (`Rbac`, `RoleAdmin`, `RbacLaws`): the permission list that SQL joins compute and the decision of
  the loaded policy.

`dafny verify dfyconfig.toml` checks everything.

How to read the protocol: `history` in a database is what the tables forget (the serial order of the transactions,
when each run last took its lease, the accepted change events, the committed mirrors); no transaction reads it.
`Reachable(s)` means that some sequence of actions leads from an initial system to `s`. In `Worker`, a `Script` holds
what the program does not decide, and `others(k)` are the actions that everybody else takes before statement `k`.

What the proofs brought to light, each stated as a lemma below, with the input or the reachable state that shows it:

- A commit needs ownership of the lease only; an expired lease that nobody took over still commits
  (`CommitNeedsOwnershipOnly`, `ExpiredLeaseCommits`).
- `StartSyncRun` is two statements. If the live lease it met ends in between, the job is dead-lettered on its first
  attempt, although an "already running" answer would have kept it (`RejectedStartIsBuried`,
  `RejectedStartCanBeBuried`).
- If the answer to the UPDATE of `StartSyncRun` is lost, nothing gives the lease up: `Sync` returns an error and the
  run stays running under a lease that nobody knows (`Worker.Sync`, `LostStartLeavesRunning`).
- A job can be dead-lettered while its run is still queued or running, exactly when no failure was written: the
  delivery did not decode, the job store or `StartSyncRun` failed, or the deferred `FailSyncRun` was not written under
  the run's lease (`BuriedJobsRun`, `FailedStartLeavesQueued`, `LostStartLeavesRunning`, `UnwrittenFailLeavesRunning`).
  The plan in docs/superpowers/plans/2026-08-13-shopify-mirror-runtime.md:497 wants the run marked failed first. If
  no other copy of the message is left, that run blocks its store until somebody empties the dead queue by hand: no run
  can be created or started and no mirror of the store is committed again (`BuriedLiveRunBlocksItsStore`).
- A mirror is rolled back whole when a follow-up is owed to a store that is no longer connected
  (`FlaggedAndDisconnectedRollsBack`).
- A rotation whose commit is lost leaves the old refresh token in place, and the next call presents it again
  (`LostRotationIsRepeated`).
- `sameScopes` refuses a padded scope that `normalizeScopes` accepts (`PaddedScopeIsRefused`).
- The decoder accepts a variant whose id is only spaces; the normaliser refuses that batch (`DecodedIsAcceptable`,
  `BlankVariantIdIsRefused`).
- A role assigned across organisations would make the permission list claim what Casbin refuses. The schema does not
  prevent such a row; only the role-management code does. They agree exactly if foreign roles grant nothing that home
  roles do not (`AgreementIsHome`, `ForeignAssignmentsDisagree`).
- The tree sort ends exactly if no node reachable from the roots is below itself; unique ids, which the primary key of
  menus gives, suffice, and records that repeat an id can break it (`SortEndsWithoutCycles`, `RepeatedIdsCanLoop`).
- The menu page indents one step too far below a root that names itself as its parent (`DepthIsTreeDepth`,
  `SelfParentIsIndented`).

## Model

| member | source | states |
|---|---|---|
| `SyncSafety.NoOrphanRun` | backend/internal/platform/postgres/shopify_mirror.go:159-204 | In every reachable state each run has an outbox row, and it is completed, or the row is not yet published, or a copy of its envelope is in the main, retry or dead queue or unacknowledged at a consumer; under lost acknowledgements, ambiguous publishes, duplicates, takeovers and crashes. |
| `SyncSafety.MirrorCommitsAreSerial` | backend/internal/platform/postgres/shopify_mirror.go:282-312 | Of any two mirrors committed for one store, the earlier was committed before the lease of the later was taken, so an older read never overwrites a newer one; and no run commits twice. |
| `SyncSafety.NoEventForgotten` | backend/internal/platform/postgres/shopify_webhook.go:79-101 | A change event accepted for a connected store is covered by a mirror read after it, or the store has an unfinished run whose job is unpublished or somewhere in the broker. |
| `SyncSafety.UnflaggedEventsArePursued` | backend/internal/platform/postgres/shopify_mirror.go:300-307 | If no follow-up is flagged, an uncovered event is pursued by a run that is queued or failed, or running under a lease taken after the event. |
| `SyncSafety.ProcessedMeansCompleted` | backend/internal/platform/postgres/jobs.go:16-24 | A job id is recorded as processed only if the one run it names is completed, over all interleavings. |
| `SyncSafety.NilMeansCompleted` | backend/cmd/worker/main.go:136-147 | Whenever a worker is about to record a job, the run is completed, whatever the other workers did. |
| `SyncSafety.PublishedMeansConfirmed` | backend/internal/platform/postgres/outbox.go:36-44 | A row is published only if a publish of that run's envelope was confirmed, also with overlapping claimers. |
| `SyncSafety.PublishedStays` | backend/internal/platform/postgres/outbox.go:91-97 | No transaction takes a row out of `published` or removes it. |
| `SyncSafety.AttemptsStayBounded` | backend/internal/platform/queue/queue.go:339-356 | Every message anywhere in the broker carries an attempt between 1 and maxAttempts and names an existing run with its job id. |
| `SyncSafety.OneLiveRunPerStore` | backend/migrations/000003_shopify_mirror_runtime.up.sql:23-25 | At most one queued or running run per store, and a lease owner exactly while running. |
| `SyncSafety.LostLeaseStaysLost` | backend/internal/platform/postgres/shopify_mirror.go:109-115 | A lease that no run shows any more is never granted again, after any transactions. |
| `SyncSafety.SupersededLeaseIsHarmless` | backend/internal/platform/postgres/shopify_mirror.go:287-299 | After any transactions of anybody, a superseded lease can neither renew, fail nor complete the run, nor touch the follow-up flag: the database stays as it is. |
| `SyncSafety.TakeoverSupersedes` | backend/internal/platform/postgres/shopify_mirror.go:109-115 | A takeover happens only after expiry and supersedes the lease it replaces at once. |
| `SyncSafety.UnexpiredLeaseIsExclusive` | backend/internal/platform/postgres/shopify_mirror.go:109-115 | Until it expires, a lease survives every sequence of transactions that does not present it. |
| `SyncSafety.CompletedStays` | backend/internal/platform/postgres/shopify_mirror.go:376-386 | Completed is absorbing under all transactions. |
| `SyncSafety.CommitNeedsOwnershipOnly` | backend/internal/platform/postgres/shopify_mirror.go:282-307 | The mirror commits if and only if the lease owns the run and a flagged store is still connected; otherwise everything is rolled back. Expiry plays no part. |
| `SyncSafety.RejectedStartIsBuried` | backend/internal/platform/postgres/shopify_mirror.go:117-138 | A start whose UPDATE matched no row ends in the dead queue exactly when the SELECT finds the run failed, in the retry queue exactly when it finds it running, and counts as done exactly when it finds it completed; it never finds it queued. |
| `SyncWitness.RejectedStartCanBeBuried` | backend/internal/platform/postgres/shopify_mirror.go:117-138 | A reachable state in which a refused start finds the run failed, so that a job on its first attempt goes to the dead queue. |
| `SyncWitness.ExpiredLeaseCommits` | backend/internal/platform/postgres/shopify_mirror.go:287-299 | A reachable state in which a lease has expired and its mirror still commits. |
| `SyncWitness.FlaggedAndDisconnectedRollsBack` | backend/internal/platform/postgres/shopify_mirror.go:300-307 | A reachable state in which the owner's mirror is rolled back because a change is flagged and the store was disconnected. |
| `SyncBurial.BuriedJobsRun` | backend/cmd/worker/main.go:121-141 | When a worker decides to dead-letter its job, the run stays queued or running if and only if the delivery did not decode or a lookup or start failed with the run live or just leased, or FailSyncRun was not written under the lease the run shows; refused starts and failed bookkeeping never leave it so. |
| `SyncBurial.BuryingSilences` | backend/internal/platform/queue/queue.go:317-326 | Dead-lettering the last message of a run leaves nobody who could act for it, and the run as live as it was. |
| `SyncBurial.BuriedLiveRunBlocksItsStore` | backend/internal/platform/postgres/shopify_mirror.go:104-204 | From then on, whatever happens, such a live run stays as it is, no run of its store can be created or take a lease, and no mirror of the store is committed. |
| `SyncWitness.FailedStartLeavesQueued` | backend/internal/shopifysync/service.go:91-100 | A reachable state of that kind with the run queued: StartSyncRun failed without an effect. |
| `SyncWitness.LostStartLeavesRunning` | backend/internal/shopifysync/service.go:91-100 | A reachable state of that kind with the run running under a lease that no worker holds: the answer of StartSyncRun was lost. |
| `SyncWitness.UnwrittenFailLeavesRunning` | backend/internal/shopifysync/service.go:102-111 | A reachable state of that kind with the run running: the deferred FailSyncRun was not written. |
| `SyncSafety.BackoffIsCappedDoubling` | backend/internal/platform/postgres/outbox.go:116-125 | The delay after the n-th failure is min(2^(n-1), 300) seconds for every n, despite the cap on the shift. |
| `SyncLaws.StartIsAnswered` | backend/internal/platform/postgres/shopify_mirror.go:109-121 | Who is leased, in columns: a queued run, a failed one of a store without a live run, a running one without an unexpired lease; a failed run of a store with a live run conflicts; any other gets no row. |
| `SyncLaws.StartedColumns` | backend/internal/platform/postgres/shopify_mirror.go:109-121 | Every column of the leased run, a lease nobody had, and no other row touched. |
| `SyncLaws.LeaseHoldsTwoMinutes` | backend/internal/platform/postgres/shopify_mirror.go:109-157 | After a start or the owner's heartbeat, the run can be leased again exactly when more than 120 seconds have passed. |
| `SyncLaws.HeartbeatColumns` | backend/internal/platform/postgres/shopify_mirror.go:141-157 | A heartbeat writes the two lease times of its owner's running run and nothing else. |
| `SyncLaws.FailedColumns` | backend/internal/platform/postgres/shopify_mirror.go:376-386 | Every column of the failed run; it can be leased again at once. |
| `SyncLaws.CommittedColumns` | backend/internal/platform/postgres/shopify_mirror.go:282-312 | Every column of the completed run, the lowered flag, and, exactly if it was raised, the queued full follow-up with its outbox row due at once. |
| `SyncLaws.CreationIsAnswered` | backend/internal/platform/postgres/shopify_mirror.go:159-204 | The three refusals in their order, and otherwise every column of the queued run and of its outbox row. |
| `SyncLaws.OtherEventIsAnswered` | backend/internal/platform/postgres/shopify_webhook.go:30-62 | Uninstalling disconnects the store; an event of another topic, or of a store that is not connected, is only recorded. |
| `SyncLaws.ChangeDuringARunIsFlagged` | backend/internal/platform/postgres/shopify_webhook.go:79-101 | A change of one of the seven topics raises the flag of a connected store while a run is live, and does nothing else. |
| `SyncLaws.ChangeOtherwiseStartsARun` | backend/internal/platform/postgres/shopify_webhook.go:79-101 | Otherwise it lowers the flag and queues a full run of that webhook with its outbox row. |
| `SyncLaws.FailedRowIsDue` | backend/internal/platform/postgres/outbox.go:99-125 | A row whose publish failed is claimed when its backoff is over, and not before. |
| `SyncLaws.StaleClaimIsDue` | backend/internal/platform/postgres/outbox.go:55-63 | A claim that was never settled is up again after more than five minutes, and not before. |
| `SyncLaws.ClaimColumns` | backend/internal/platform/postgres/outbox.go:55-66 | Which of the given rows a claim takes, in columns, and what it writes. |
| `SyncLaws.SettlingColumns` | backend/internal/platform/postgres/outbox.go:91-114 | What completing and retrying write, and that both touch only a row that is being published. |
| `SyncProgress.FailedSyncRunsAgain` | backend/cmd/worker/main.go:121-141 | From every reachable state in which a worker is about to fail its run for a retryable cause: once that is written, handed to the retry queue and delivered again, the run is leased and syncs again. |
| `SyncProgress.DeliveredRunWaits` | backend/internal/platform/postgres/shopify_mirror.go:109-138 | A failed run delivered while another run of the store is live comes back later with its attempt unchanged, and nothing changes. |
| `SyncProgress.UnpublishedCanBePublished` | backend/internal/platform/postgres/outbox.go:22-47 | From every reachable state, waiting, claiming, publishing and settling bring any unpublished row to published and its envelope to the main queue on its first attempt. |
| `SyncProgress.QueuedRunCanBeCompleted` | backend/cmd/worker/main.go:121-153 | From every reachable state, a queued run of a connected store whose row is unpublished can be published, delivered, leased, completed with its counts and closed. |
| `SyncInvariants.ApplyKeepsSound` | backend/internal/platform/postgres/shopify_mirror.go:104-386 | Every transaction keeps the fencing, uniqueness, serial-commit and owed-event invariants. |
| `SyncInvariants.EveryRunIsSound` | backend/internal/platform/postgres/shopify_mirror.go:104-386 | So does every sequence of transactions from a database without runs. |
| `SyncInvariants.CommitMirrorResult` | backend/internal/platform/postgres/shopify_mirror.go:282-312 | What a commit leaves behind in each case: nothing changed, the run completed, or the run completed and one queued follow-up with its outbox row. |
| `SyncProtocolInvariants.StepKeepsInv` | backend/cmd/worker/main.go:121-153 | Every step of a worker, publisher, queue or API call keeps the protocol invariant. |
| `SyncProtocolInvariants.EveryExecutionKeepsInv` | backend/cmd/worker/main.go:121-153 | Hence every execution does. |
| `SyncService.ForeignExecution` | backend/internal/shopifysync/service.go:91-111 | Whatever everybody else does, a worker's lease is spent by nobody else, its place in the code stays, and completed runs stay completed. |
| `Postgres.Client.CreateSyncRun` | backend/internal/platform/postgres/shopify_mirror.go:159-204 | Inserts the queued run and its pending outbox row together, or refuses: unknown mode, store not connected, a live run. |
| `Postgres.Client.TakeLease` | backend/internal/platform/postgres/shopify_mirror.go:109-121 | The UPDATE of StartSyncRun: a fresh lease for a queued, failed or expired run, a conflict with the one-active-run index, or no row. |
| `Postgres.Client.HeartbeatSyncRun` | backend/internal/platform/postgres/shopify_mirror.go:141-157 | Extends the owner's lease only; answers yes to the owner or if the run is already completed. |
| `Postgres.Client.FailSyncRun` | backend/internal/platform/postgres/shopify_mirror.go:376-386 | Fails the owner's run and nothing else; the follow-up flag stays. |
| `Postgres.Client.EnqueueSyncRun` | backend/internal/platform/postgres/shopify_mirror.go:314-351 | Inserts run and outbox row, or nothing if a live run or the job id exists; an error if the store is not connected. |
| `Postgres.Client.CommitMirror` | backend/internal/platform/postgres/shopify_mirror.go:282-312 | The bookkeeping of ReplaceMirror with its rollback. |
| `Postgres.Client.EnqueueWebhookSync` | backend/internal/platform/postgres/shopify_webhook.go:79-101 | Coalesces into the follow-up flag while a run is live, otherwise clears the flag and enqueues. |
| `Postgres.Client.RecordShopifyEventAndOutbox` | backend/internal/platform/postgres/shopify_webhook.go:30-77 | Records each webhook once; a repeated id changes nothing; uninstalling disconnects the store and its integration account and clears that account's credentials, and no other's; mirror topics enqueue. |
| `Postgres.UninstalledAccount` | backend/internal/platform/postgres/shopify_webhook.go:64-77 | The store's account, and no other, is disconnected and without credentials. |
| `Postgres.Client.ClaimOutbox` | backend/internal/platform/postgres/outbox.go:49-89 | Claims unlocked due rows only (pending or failed and available, or publishing for more than 300 seconds), oldest first, at most the bound and all of them if the bound allows; a row among them whose envelope does not decode rolls the claim back. |
| `Postgres.Client.CompleteOutbox` | backend/internal/platform/postgres/outbox.go:91-97 | Publishing rows only become published. |
| `Postgres.Client.RetryOutbox` | backend/internal/platform/postgres/outbox.go:99-114 | Publishing rows only become failed, with the attempt and the delay. |
| `Postgres.Client.MarkJobProcessed` | backend/internal/platform/postgres/jobs.go:16-24 | Records it, once. |
| `Outbox.PublishOutboxBatch` | backend/internal/platform/postgres/outbox.go:22-47 | Each claimed row ends published exactly if its publish was confirmed, else failed with its delay; the broker got one copy per message that was not refused; other rows and tables are untouched; if settling a row fails, the rest stays claimed; if an envelope does not decode, nothing changes. |
| `Outbox.CountIsOfConfirmed` | backend/internal/platform/postgres/outbox.go:33-46 | The number returned is the number of rows whose publish was confirmed. |
| `Queue.Client.Publish` | backend/internal/platform/queue/queue.go:213-238 | Confirmed and ambiguous publishes store the message, refused ones do not; only a confirmation is a success. |
| `Queue.Client.Ack` | backend/internal/platform/queue/queue.go:284 | Removes the message, or, when the acknowledgement is lost, puts it back into the main queue. |
| `Queue.Delivery.Retry` | backend/internal/platform/queue/queue.go:286-306 | Exactly one copy with the right header goes to the retry or dead queue, and the original is acknowledged only after a confirmed publish. |
| `Queue.Delivery.DeadLetter` | backend/internal/platform/queue/queue.go:317-326 | The same for the dead queue; the attempt is kept. |
| `Queue.AttemptsAreCounted` | backend/internal/platform/queue/queue.go:286-326 | Along any chain of retryable failures the header is one plus the consuming failures, and the job is buried exactly at its maxAttempts-th consuming failure. |
| `Queue.BusyStoresNeverBury` | backend/internal/platform/queue/queue.go:308-315 | Failures that preserve the attempt never bury a job, whatever its header says. |
| `Queue.AttemptColumns` | backend/internal/platform/queue/queue.go:339-356 | A header that is a number above one, of whatever type, is the attempt; anything else is the first. |
| `Queue.CopyColumns` | backend/internal/platform/queue/queue.go:286-337 | Envelope, attempt, preserve mark and cut cause of a retried and of a dead-lettered copy. |
| `Queue.HandOffMoves` | backend/internal/platform/queue/queue.go:286-326 | A confirmed and acknowledged hand-off replaces the message by its copy, a lost acknowledgement or an ambiguous publish leaves both, and a refused publish puts the message back. |
| `Handler.FailedSyncGoes` | backend/internal/shopifysync/handler.go:61-79 | Which errors of Sync, by what they wrap, send the job to the retry queue, and which to the dead queue. |
| `Handler.AttemptIsKept` | backend/internal/shopifysync/handler.go:66-69 | The attempt is kept exactly for a sync error saying that another run is active, with no provider error wrapped. |
| `Handler.BusyComesBack` | backend/internal/shopifysync/handler.go:61-74 | A busy store sends the job to the retry queue with its attempt unchanged, on every attempt. |
| `Handler.UnusableJobsAreBuried` | backend/internal/shopifysync/handler.go:36-59 | Jobs of another type, without a usable payload, or without a syncer go to the dead queue at once. |
| `SyncBindings.BusyIsTheHandlersCause` | backend/internal/shopifysync/handler.go:66-69 | The busy cause of the protocol is what the handler's classification makes of an active run. |
| `SyncBindings.OtherErrorsAreBroken` | backend/internal/shopifysync/handler.go:61-74 | Every other error, and a panic, is a failure that consumes the attempt, retryable as the handler says. |
| `SyncBindings.BareErrorsAreRetried` | backend/cmd/worker/main.go:127-146 | An error of the job store goes to Retry without the handler: target and copy are those of a retryable failure. |
| `SyncBindings.PassOn` | backend/cmd/worker/main.go:133-141 | The choice between Retry and DeadLetter, called on the broker's client, leaves the queues the protocol's hand-off describes. |
| `SyncBindings.HandOffStepsAreTheCall` | backend/internal/platform/queue/queue.go:286-326 | The protocol's publish and acknowledgement steps together do to the broker what one such call does. |
| `SyncBindings.BatchIsItsSteps` | backend/internal/platform/postgres/outbox.go:22-47 | What PublishOutboxBatch promises of its end is exactly the state that its claim, publish and settle steps of the protocol lead to. |
| `Worker.WaitForBulk` | backend/internal/shopifysync/service.go:230-259 | The first answer that settles the operation decides the result, and nothing after it is asked for. |
| `Worker.BulkEnds` | backend/internal/shopifysync/service.go:240-250 | A completed operation with a URL is ready; only a failed one, or a retryable polling error, may be tried again. |
| `Worker.Sync` | backend/internal/shopifysync/service.go:81-179 | The lease is the one that the UPDATE of StartSyncRun granted, whether or not its answer arrived. After an error whose FailSyncRun is written, the run is still running under it if and only if that answer was lost; a start that fails before its effect grants none. Nil implies the run is completed; a mirror is stored under the lease only if the start was answered and every fetch, the final heartbeat and ReplaceMirror up to its bookkeeping succeeded; a stored mirror's run stays completed. The first of the reads, fetches and heartbeat that breaks is the error returned. |
| `Worker.SyncUnderLease` | backend/internal/shopifysync/service.go:143-178 | The same from the lease on. |
| `Worker.FinalHeartbeat` | backend/internal/shopifysync/service.go:169-171 | The worker goes on exactly if the UPDATE still found it the owner, or the second statement found the run completed; otherwise the sync fails, with the heartbeat's error if it had one. |
| `Worker.FailSyncRun` | backend/internal/shopifysync/service.go:102-111 | After the deferred write the run is not running under this lease, and a completed run is still completed. |
| `Worker.ProcessDelivery` | backend/cmd/worker/main.go:121-153 | A delivery is closed for good only when its run is completed. Where it ends follows exactly: the dead queue if its body does not decode, a retry if the lookup fails, closed if it was processed before, and otherwise by the answer of Sync and the record. |
| `Worker.HandleAndMark` | backend/cmd/worker/main.go:133-147 | The same from the handler on; an error, or a record that fails, hands the delivery on. |
| `Decoder.DecodeProducts` | backend/internal/shopifysync/decoder.go:45-91 | Succeeds exactly if every line is readable, the input ends properly and every variant's parent occurs somewhere; then it returns the products and variants in order. The first unreadable line decides the error. |
| `Decoder.DecodeCollections` | backend/internal/shopifysync/decoder.go:93-117 | Succeeds exactly if every line is readable and the stream ends well; then every collection line in order; otherwise the error of the first unreadable line, or of the ending. |
| `Decoder.LinesAreSplit` | backend/internal/shopifysync/decoder.go:54-82 | Every line is a product, a variant or ignored, and never two of these. |
| `Decoder.SplitInOrder` | backend/internal/shopifysync/decoder.go:119-147 | The split distributes over concatenation, so order is kept. |
| `Decoder.ProductLineColumns` | backend/internal/shopifysync/decoder.go:54-83 | A line with a product's id and no parent is the next product, column by column, with the line as its payload. |
| `Decoder.VariantLineColumns` | backend/internal/shopifysync/decoder.go:54-73 | A line with a variant's id, or with a parent, is the next variant of that parent, column by column. |
| `Decoder.CollectionLineColumns` | backend/internal/shopifysync/decoder.go:94-116 | A line with a collection's id is the next collection, column by column. |
| `Decoder.OtherLinesAddNothing` | backend/internal/shopifysync/decoder.go:54-147 | Blank lines, lines without an id and lines of other resources add nothing. |
| `Decoder.RefusedLines` | backend/internal/shopifysync/decoder.go:86-175 | Which files are refused: a line of invalid JSON, a malformed time, or a variant's line without a product's line for its parent. |
| `Decoder.DecodedIsAcceptable` | backend/internal/shopifysync/decoder.go:86-90 | What the decoder accepts the normaliser accepts for products and variants, exactly if no variant id is blank. |
| `Decoder.BlankVariantIdIsRefused` | backend/internal/shopifysync/decoder.go:59-90 | Two lines, a product and a variant with an id of one space, that the decoder accepts and the normaliser refuses. |
| `MirrorBatch.NormalizeMirrorBatch` | backend/internal/platform/postgres/shopify_mirror.go:18-88 | Fails exactly when a GID is blank or a variant's parent is absent, even of a variant that would lose; otherwise returns the normal form. |
| `MirrorInput.NormalFormIsTheInputs` | backend/internal/platform/postgres/shopify_mirror.go:18-88 | Against the batch as read: each output item is the survivor of its group of trimmed GIDs by the input's own timestamps, with that item's columns, its payload kept if valid and not empty and else {}; every GID is there once, in ascending order. |
| `MirrorInput.AcceptableMeans` | backend/internal/platform/postgres/shopify_mirror.go:18-68 | A batch is accepted exactly if no GID is blank and every variant names a product of the batch, as read. |
| `MirrorBatch.DedupeProducts` | backend/internal/platform/postgres/shopify_mirror.go:22-32 | The deduplication loop over products. |
| `MirrorBatch.DedupeVariants` | backend/internal/platform/postgres/shopify_mirror.go:33-47 | The deduplication loop over variants, with the parent check. |
| `MirrorBatch.DedupeCollections` | backend/internal/platform/postgres/shopify_mirror.go:48-58 | The deduplication loop over collections. |
| `MirrorBatch.DedupeThemes` | backend/internal/platform/postgres/shopify_mirror.go:59-68 | The deduplication loop over themes. |
| `MirrorBatch.WinnersAreKept` | backend/internal/platform/postgres/shopify_mirror.go:90-95 | The loops keep, per GID, the first item with the greatest timestamp if any has one, else the last item. |
| `MirrorBatch.WinnerIsUnique` | backend/internal/platform/postgres/shopify_mirror.go:90-95 | There is one such item per GID. |
| `MirrorBatch.Listing` | backend/internal/platform/postgres/shopify_mirror.go:70-86 | Ranging over the map in any order and sorting lists each kept item once, in strict GID order. |
| `MirrorBatch.NormalFormIsUnique` | backend/internal/platform/postgres/shopify_mirror.go:70-87 | The result does not depend on map iteration order. |
| `MirrorBatch.ListingHoldsWinners` | backend/internal/platform/postgres/shopify_mirror.go:22-87 | Every item of the output is its group's winner. |
| `MirrorBatch.ListingHoldsGroups` | backend/internal/platform/postgres/shopify_mirror.go:22-87 | Every GID of the input is in the output. |
| `MirrorBatch.VariantsKeepTheirParents` | backend/internal/platform/postgres/shopify_mirror.go:40-42 | The output is closed under variant parents. |
| `MirrorBatch.NormalisingTwice` | backend/internal/platform/postgres/shopify_mirror.go:18-88 | Normalising a normalised batch is accepted and changes nothing. |
| `MirrorTables.Client.ReplaceMirror` | backend/internal/platform/postgres/shopify_mirror.go:206-312 | Succeeds exactly if the batch is acceptable, its values are storable and the bookkeeping commits; then the tables are replaced and the run completed together; otherwise nothing changes. |
| `MirrorTables.Client.WriteTables` | backend/internal/platform/postgres/shopify_mirror.go:220-281 | The upserts and deletions leave exactly the plain replacement: the batch's rows, surviving GIDs under their old row ids, other tenants untouched, variants pointing at the rows of their parents. |
| `MirrorTables.Client.UpsertProducts` | backend/internal/platform/postgres/shopify_mirror.go:220-235 | The product upserts and the map of their row ids. |
| `MirrorTables.Client.UpsertVariants` | backend/internal/platform/postgres/shopify_mirror.go:236-249 | The variant upserts with resolved parents; fails exactly on a price that is not a number. |
| `MirrorTables.Client.UpsertCollections` | backend/internal/platform/postgres/shopify_mirror.go:250-262 | The collection upserts; fail exactly on a negative count. |
| `MirrorTables.Client.UpsertThemes` | backend/internal/platform/postgres/shopify_mirror.go:263-276 | The theme upserts; fail exactly on an unknown role. |
| `MirrorTables.Client.RemoveMissing` | backend/internal/platform/postgres/shopify_mirror.go:353-374 | The four deletions, with the cascade from products to variants. |
| `MirrorTables.CascadeFindsNothing` | backend/internal/platform/postgres/shopify_mirror.go:364-365 | If each variant's parent survives, the cascade of the product deletion deletes no variant. |
| `MirrorColumns.CascadeColumns` | backend/internal/platform/postgres/shopify_mirror.go:364-365 | Deleting product rows deletes exactly the variants below them. |
| `MirrorTables.ParentsSurvive` | backend/internal/platform/postgres/shopify_mirror.go:236-249 | After the upserts each remaining variant's parent survives, also of a variant moved from a product that vanished. |
| `MirrorTables.DeletionsReplaceMirror` | backend/internal/platform/postgres/shopify_mirror.go:353-374 | Upserts followed by the deletions are a full replacement. |
| `MirrorTables.UpsertsReplaceMirror` | backend/internal/platform/postgres/shopify_mirror.go:220-276 | The upserts alone are an incremental replacement. |
| `MirrorTables.FullMirrorIsTheBatch` | backend/internal/platform/postgres/shopify_mirror.go:277-281 | After a full replacement the tenant has a row for a GID exactly if the batch has it. |
| `MirrorTables.ReplacementIsDetermined` | backend/internal/platform/postgres/shopify_mirror.go:220-281 | The specification leaves only the identifiers of new rows open. |
| `MirrorColumns.ProductColumns` | backend/internal/platform/postgres/shopify_mirror.go:220-235 | Every column of a stored product. |
| `MirrorColumns.VariantRowColumns` | backend/internal/platform/postgres/shopify_mirror.go:236-249 | Every column of a stored variant, below the row of its product; an empty price is NULL. |
| `MirrorColumns.CollectionColumns` | backend/internal/platform/postgres/shopify_mirror.go:250-262 | Every column of a stored collection. |
| `MirrorColumns.ThemeColumns` | backend/internal/platform/postgres/shopify_mirror.go:263-276 | Every column of a stored theme. |
| `MirrorColumns.UnnamedRows` | backend/internal/platform/postgres/shopify_mirror.go:353-374 | Rows that the batch does not name: those of other stores stay, those of the store stay exactly if the sync is incremental. |
| `MirrorColumns.StorableMeans` | backend/internal/platform/postgres/shopify_mirror.go:236-276 | Which prices, counts and theme roles the tables accept. |
| `MirrorColumns.StoredCounts` | backend/internal/platform/postgres/shopify_mirror.go:287-294 | The completed run counts the stored items of each kind. |
| `MirrorHistory.TablesShowTheLog` | backend/internal/platform/postgres/shopify_mirror.go:206-312 | After any transactions each table shows, for every tenant and GID, its committed mirrors in commit order: the last full one overlaid by the incremental ones since; variants point at the present rows of their parents. |
| `MirrorHistory.LastFullMirrorIsShown` | backend/internal/platform/postgres/shopify_mirror.go:206-312 | If a tenant's last committed mirror was full, its four tables are exactly that batch, and its lease was taken after every earlier mirror of the tenant had committed. |
| `MirrorHistory.SuccessIsAStep` | backend/internal/platform/postgres/shopify_mirror.go:206-312 | A ReplaceMirror that succeeds is one step of that history, with the normal form of its input. |
| `MirrorExecution.EveryExecutionShowsTheLog` | backend/internal/platform/postgres/shopify_mirror.go:206-312 | In every execution of the protocol with the tables, the system is reachable, the tables show the committed mirrors in commit order, and each was stored in the mode of its job's run. |
| `MirrorExecution.EveryExecutionShowsTheLastFullRun` | backend/internal/platform/postgres/shopify_mirror.go:206-312 | If the run that committed last for a store is a full one, the store's four tables are exactly its batch, read after every earlier mirror of the store was committed. |
| `MirrorExecution.ExecutionIsARun` | backend/internal/platform/postgres/shopify_mirror.go:206-312 | Every such execution is a history of database transactions in the sense of MirrorHistory. |
| `Navigation.BuildNavigationTree` | apps/web/src/lib/navigation.ts:37-67 | For unique ids and any parent links it ends, and the lists that hang from the returned roots are the forest of the records, each reachable list sorted. |
| `Navigation.SortTree` | apps/web/src/lib/navigation.ts:61-64 | Sorts the given list and every list below it, and spoils no sorted list; the depth below the roots bounds the recursion. |
| `Navigation.Sort` | apps/web/src/lib/navigation.ts:34-35 | A stable sort by byOrder: the same nodes, strictly ordered by order, name and record place. |
| `Navigation.Link` | apps/web/src/lib/navigation.ts:52-59 | The linking loop gives every node exactly its children, in record order, and the roots to the caller. |
| `Navigation.MakeNodes` | apps/web/src/lib/navigation.ts:38-50 | One node per record, found through the map by id. |
| `Navigation.GroundedAppear` | apps/web/src/lib/navigation.ts:53-59 | A record is in the forest if and only if its parent chain ends; records in or below a longer cycle are nowhere. |
| `Navigation.OnePlace` | apps/web/src/lib/navigation.ts:53-59 | And it is there once: two paths to it are the same path. |
| `Navigation.PathLengthIsDepth` | apps/web/src/lib/navigation.ts:53-59 | As deep as its parent chain is long. |
| `Navigation.DepthIsBounded` | apps/web/src/lib/navigation.ts:61-64 | A chain that ends is shorter than the list of records (the measure of the sort). |
| `Navigation.ForestIsUnique` | apps/web/src/lib/navigation.ts:61-66 | Roots and every reachable sibling list are determined by the records. |
| `NavigationCycles.SortEndsWithoutCycles` | apps/web/src/lib/navigation.ts:52-65 | For any records, repeated ids too, the nested calls of the sort stay bounded if and only if no node reachable from the roots is below itself. |
| `NavigationCycles.UniqueIdsEnd` | apps/web/src/lib/navigation.ts:52-65 | With unique ids it always ends, whatever the parent links. |
| `NavigationCycles.RepeatedIdsCanLoop` | apps/web/src/lib/navigation.ts:52-65 | Three records, two of one id, on which the sort does not end: a root's node lies below its own child. |
| `Navigation.GetNavigation` | apps/web/src/lib/navigation.ts:69-79 | The permitted menus form their own forest. |
| `Navigation.ClearingChangesNothing` | apps/web/src/lib/navigation.ts:74-78 | Clearing a parent that is not permitted does not change the tree. |
| `NavigationColumns.ParentColumns` | apps/web/src/lib/navigation.ts:52-59 | With unique ids the parent is the record named by a non-empty id that is not its own. |
| `NavigationColumns.SiblingColumns` | apps/web/src/lib/navigation.ts:34-35 | Siblings go by sort order, then name, then place. |
| `NavigationColumns.NodeColumns` | apps/web/src/lib/navigation.ts:40-50 | What a node shows of its record. |
| `NavigationColumns.PermittedMenus` | apps/web/src/lib/navigation.ts:69-73 | The permitted menus are those that ask for nothing, for a code of the user, or for anything if the user has `*`. |
| `NavigationColumns.ParentAmongPermitted` | apps/web/src/lib/navigation.ts:69-79 | A permitted menu hangs below its parent exactly if that is permitted too. |
| `MenuPage.DepthIsTreeDepth` | apps/web/src/app/(console)/system/menus/page.tsx:25-35 | The page's depth of a menu equals its depth in the navigation forest if and only if the root of its chain is not its own parent. |
| `MenuPage.SelfParentIsIndented` | apps/web/src/app/(console)/system/menus/page.tsx:28-32 | A menu that names itself as its parent is a root of the tree and has page depth one. |
| `MenuPage.DepthAlongChain` | apps/web/src/app/(console)/system/menus/page.tsx:28-32 | Along a chain of n parents the recursion returns n, one more if the root names itself. |
| `MenuPage.DepthIsAtMostTheMenus` | apps/web/src/app/(console)/system/menus/page.tsx:28-32 | However the links run, the depth is at most the number of menus not yet on the trail. |
| `MenuPage.DepthById` | apps/web/src/app/(console)/system/menus/page.tsx:25-35 | The map of depths: each id with the depth of the menu the page's map holds for it. |
| `TokenRotation.TokenManager.AccessToken` | backend/internal/shopifysync/token_manager.go:37-101 | The call with its commit and rollback rules has exactly the specified effect and answer. |
| `TokenRotation.TokenManager.Callback` | backend/internal/shopifysync/token_manager.go:46-96 | The decision made under the lock, and whether it contacted the provider. |
| `TokenRotation.RotationStoresTheAnswer` | backend/internal/shopifysync/token_manager.go:72-96 | After a committed rotation the row holds the new pair, and both expiries are the call's time plus their lifetimes, if positive. |
| `TokenRotation.UnrefreshedTokensHaveTimeLeft` | backend/internal/shopifysync/token_manager.go:55-61 | Over any run: a rotated token of positive lifetime that is handed out without contacting the provider has more than 300 seconds of that lifetime left. |
| `TokenRotation.ReauthorizationIsAsked` | backend/internal/shopifysync/token_manager.go:47-77 | Reauthorisation is asked exactly without the two scopes, or when due with a refresh token that is blank or refused. |
| `TokenRotation.OtherCallsKeepTheRow` | backend/internal/shopifysync/token_manager.go:47-81 | A token that is not due, missing client credentials or a provider failure change no column, and what the caller gets. |
| `TokenRotation.LostUpdatesAreReported` | backend/internal/platform/postgres/shopify_credentials.go:45-67 | If the updates are not written or committed, the row stays and the caller gets an error. |
| `TokenRotation.DisconnectedGivesNothing` | backend/internal/platform/postgres/shopify_webhook.go:64-77 | After a disconnection no call hands out or sends a token. |
| `TokenRotation.AuthorizedGivesItsToken` | backend/internal/shopifysync/token_manager.go:47-61 | An authorisation replaces every column, and its token is handed out until it is due. |
| `TokenRotation.FreshTokensAreLeftAlone` | backend/internal/shopifysync/token_manager.go:55-61 | A token with more than five minutes left, or without an expiry, is not refreshed and not changed. |
| `TokenRotation.ReauthorizationKeepsCredentials` | backend/internal/platform/postgres/shopify_credentials.go:40-67 | A reauthorisation failure is committed and changes statuses and error only, never credentials or expiry. |
| `TokenRotation.SuccessReturnsTheStoredToken` | backend/internal/shopifysync/token_manager.go:86-100 | The token handed out is the stored one when the call returns, under exactly the required scopes. |
| `TokenRotation.ConnectedMeansNewCredentials` | backend/internal/platform/postgres/shopify_credentials.go:45-60 | The account becomes connected only together with new credentials; so does the store, unless an operator sets its status. |
| `TokenRotation.PresentedTokensAreDue` | backend/internal/shopifysync/token_manager.go:55-72 | Over any run, every refresh token presented is the one stored last, at most five minutes before it expires. |
| `TokenRotation.ReplacedTokensAreNotPresented` | backend/internal/shopifysync/token_manager.go:86-96 | If no refresh token is issued twice, one that was replaced by durable credentials is never presented again. |
| `TokenRotation.LostRotationIsRepeated` | backend/internal/platform/postgres/shopify_credentials.go:61-67 | After the provider has rotated, the old refresh token is presented again by the next call that is due exactly if the rotation was not committed. |
| `Scopes.ExactScopeSet` | backend/internal/shopifysync/token_manager.go:103-117 | The loops over a map decide the check by counting. |
| `Scopes.ExactScopesArePermutations` | backend/internal/shopifysync/token_manager.go:103-117 | For a duplicate-free, trimmed, non-blank required list, the check accepts exactly the lists that trim to a permutation of it. |
| `Scopes.NormalizeScopes` | backend/internal/httpapi/integration_handlers.go:499-510 | Every non-blank scope once, trimmed, in order of first occurrence. |
| `Scopes.ScopeListContains` | backend/internal/httpapi/integration_handlers.go:514-525 | Whether every required scope occurs. |
| `Scopes.SameScopes` | backend/internal/httpapi/integration_handlers.go:526-528 | Accepts exactly if the normalised granted set equals the required one and each required scope also occurs unpadded. |
| `Scopes.PaddedScopeIsRefused` | backend/internal/httpapi/integration_handlers.go:514-528 | A list with equal normalised scopes that is refused because one is padded. |
| `Rbac.EveryReachableStateAgrees` | backend/internal/platform/postgres/admin.go:17-47 | After any role-management steps the policy loads, and the Casbin decision equals membership of the permission, or of `*`, in the permission list. |
| `Rbac.FreshAnswerIsTheList` | backend/internal/rbac/rbac.go:107-123 | For an active member, what Allowed answers with the policy loaded from a sound state is membership of a named permission, or of `*`, in the principal's list. |
| `Rbac.EveryReachableStateAnswers` | backend/internal/rbac/rbac.go:86-123 | So it is after any role-management steps. |
| `Rbac.RepositoryAnswers` | backend/migrations/000002_core_admin.up.sql:73-114 | And so it is from the rows that the migrations insert (with the codes of 000001 and 000003), whatever role management does afterwards. |
| `Rbac.ListAndCasbinAgree` | backend/internal/rbac/rbac.go:53-67 | The same for any state in which roles stay in their organisation. |
| `Rbac.LinksCollapse` | backend/internal/rbac/rbac.go:153-154 | Users and roles have disjoint names, so following grouping links to any depth finds exactly the direct assignments. |
| `Rbac.EnforcesIsDirect` | backend/internal/rbac/rbac.go:53-67 | The matcher accepts exactly if a directly assigned role of the organisation has the permission or `*`. |
| `Rbac.StepKeepsSound` | backend/internal/platform/postgres/admin.go:117-221 | Every role-management step keeps the keys, and each user_roles row within its role's organisation. |
| `Rbac.RunKeepsSound` | backend/internal/platform/postgres/admin.go:82-221 | So does every sequence of steps. |
| `Rbac.ForeignAssignmentsDisagree` | backend/internal/platform/postgres/rbac.go:29-32 | A user whose one assignment crosses organisations has a permission in the list that Casbin refuses. |
| `Rbac.AgreementIsHome` | backend/internal/platform/postgres/rbac.go:29-32 | Within the schema's keys alone, list and Casbin agree on every permission if and only if each permission of a foreign role is also one of a home role, or a home role has `*`. |
| `Rbac.NewEngine` | backend/internal/rbac/rbac.go:125-151 | The engine holds exactly the policies and groupings of the snapshot; a blank field refuses it. |
| `RoleAdmin.AdminClient.SetUserRoles` | backend/internal/platform/postgres/admin.go:117-135 | Succeeds exactly for a member and distinct roles of the organisation; then the user's roles are these; otherwise nothing changes. |
| `RoleAdmin.AdminClient.SetRolePermissions` | backend/internal/platform/postgres/admin.go:186-221 | Succeeds exactly for a role of the organisation and distinct known codes; then the role's permissions are these. |
| `RoleAdmin.AdminClient.DeleteRole` | backend/internal/platform/postgres/admin.go:178-184 | Deletes a role of the organisation that is no system role, with its permissions and assignments. |
| `RoleAdmin.AdminClient.UpsertDingTalkIdentity` | backend/internal/platform/postgres/admin.go:363-401 | Finds, links or creates the account; a new one joins the organisation and gets its Viewer role. A failing profile update, a user who is no member, or an identity that somebody else inserted after the lookup is an error and changes nothing. |
| `RbacLaws.NewcomerRows` | backend/internal/platform/postgres/admin.go:385-400 | A first login creates an active member whose role rows are exactly those of the organisation's roles named Viewer; nobody else's rows change. |
| `RbacLaws.NewcomersAreViewers` | backend/internal/platform/postgres/admin.go:385-400 | From the migrations' rows, a newcomer's permission list is the five viewer codes, without `*`. |
| `RbacLaws.AssignedRows` | backend/internal/platform/postgres/admin.go:117-135 | Row by row: the user's roles in the organisation become the given ones, all other rows stay, and when it is refused. |
| `RbacLaws.GrantedRows` | backend/internal/platform/postgres/admin.go:186-221 | Row by row: the role's permissions become the given ones, all others stay, and when it is refused. |
| `RbacLaws.DeletedRows` | backend/internal/platform/postgres/admin.go:178-184 | A non-system role of the organisation goes with its grants and assignments, and nothing else. |
| `RbacLaws.CreatedRoleRows` | backend/internal/platform/postgres/admin.go:158-166 | A name free in the organisation makes a role that is no system role. |
| `RbacLaws.RenamedRoleRows` | backend/internal/platform/postgres/admin.go:168-176 | A role takes a name that no other role of the organisation has. |
| `RbacLaws.CreatedUserRows` | backend/internal/platform/postgres/admin.go:82-103 | A new account is an active member without a permission. |
| `RbacLaws.StatusDecides` | backend/internal/platform/postgres/admin.go:105-115 | A disabled account resolves nowhere, an active one where it is a member. |
| `RoleAdmin.AdminClient.ResolvePrincipal` | backend/internal/platform/postgres/admin.go:17-47 | Resolves exactly active members, with the joined permission list. |
| `RoleAdmin.Authorizer.Reload` | backend/internal/rbac/rbac.go:86-105 | Installs the policy of the store, or leaves no policy at all. |
| `RoleAdmin.Authorizer.Allowed` | backend/internal/rbac/rbac.go:107-123 | Refuses blank requests, fails without a policy, and otherwise answers what the policy enforces; the answer the reachability results speak of. |
| `RbacLaws.BlankRequestsAreRefused` | backend/internal/rbac/rbac.go:107-117 | A blank field is refused with or without a policy; any other request fails exactly without one. |
| `RoleAdmin.LoadAndAsk` | backend/internal/rbac/rbac.go:86-123 | Load the policy, resolve the principal and ask: for one that resolves, the answer is membership in the list it was given. |
| `RoleAdmin.Enforce` | backend/internal/rbac/rbac.go:53-67 | A search over policies and links decides the matcher's existential. |

## Left out

- Worker.Sync: a fetch is one answer of the script, so the polling of WaitForBulk is proved on its own, and how often the heartbeat goroutine renews the lease is left to the actions of the others.
- Worker.ProcessDelivery: an error of the database or the network is only retryable or not here; Handler and SyncBindings say which errors of Sync are, from the error itself.
- Outbox.PublishOutboxBatch: no other claimer acts between the statements of one call, so a row claimed again after five minutes in mid-batch is outside its contract; the protocol's claim, publish and settle steps, tied to the call by SyncBindings.BatchIsItsSteps, interleave freely.
- Navigation.BuildNavigationTree: requires unique ids, which the menus table's primary key gives; for repeated ids NavigationCycles says when the sort ends, and not what it leaves.
- Navigation.SortTree: a node's children are a sequence that is reassigned and stored back once the lists below it are sorted; aliasing of JavaScript's array objects is not modelled.
- TokenRotation.ReplacedTokensAreNotPresented: assumes that no refresh token is issued twice; without that, PresentedTokensAreDue still says that only the one stored last is presented.
- Interleavings inside one database transaction: row locks and the one-active-run index make each transaction one step; only the two statements of StartSyncRun and of the worker's last heartbeat are kept apart.
- gen_random_uuid() is an identifier that was never issued before, also across rollbacks.
- request.Validate and envelope validation: identifiers in the model are present.
- last_synced_at and the other columns that no property reads (error messages, requested_by, payload object keys); worker clocks may be skewed, so nothing is claimed about the order of last_synced_at.
- JSON and time parsing, and bufio scanning: lines arrive parsed with an optional timestamp, and the prices that the numeric cast accepts are a parameter; rounding to NUMERIC(20,4) and the width of integer columns are not modelled.
- The encoding of strings: text is a sequence of Unicode scalar values, so the cut of a long error text counts characters where the program counts bytes.
- The attempt header's 32 bits: maxAttempts is assumed to fit.
- RabbitMQ connections, channels and quality of service; the queues are multisets, so nothing is claimed about order.
- Casbin itself: the role manager is reachability along grouping links up to its depth limit, and the matcher an existential over the policies.
- Concurrent reloads of the authorizer, and role_menus: reloads happen one at a time, and menus of roles have no part in the decision.
- The overflow of a token lifetime in nanoseconds: expiry is the call's time plus the lifetime.
- AES-GCM, HMAC and base64: encryption is an inverse pair, with a value for blobs that do not decrypt.
- localeCompare: each name has its place in the zh-CN order.
- The legacy direct-publish path without a run id, HTTP handlers, sessions, object storage, configuration and migrations.
