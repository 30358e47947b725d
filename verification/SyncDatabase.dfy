/**
 The PostgreSQL side of the Shopify mirror runtime, as a value: stores, sync runs,
 the transactional outbox, recorded webhooks and processed jobs.

 Every function below is one transaction (or one autocommitted statement). A
 transaction that fails returns the database unchanged. `history` holds what the
 tables forget and the properties need: the serial order of the transactions, the
 moment each run last took a lease, the accepted change events and the committed
 mirrors. No branch of any transaction reads it.
 */
module SyncDatabase {
  import opened Common

  type RunId = nat
  type LeaseId = nat

  datatype Tenant = Tenant(organization: string, store: string)

  /** gen_random_uuid() is modelled as an identifier that was never issued before. */
  datatype JobId = GeneratedJob(id: nat) | WebhookJob(webhook: string)

  datatype SyncMode = Full | Incremental

  datatype RunStatus = Queued | Running | Completed | Failed

  datatype StoreStatus = Pending | Connected | ActionRequired | Disconnected

  datatype Counts = Counts(products: nat, variants: nat, collections: nat, themes: nat)

  datatype Run = Run(
    tenant: Tenant, job: JobId, mode: SyncMode, status: RunStatus,
    leaseOwner: Option<LeaseId>, leaseExpiresAt: Option<nat>, heartbeatAt: Option<nat>,
    startedAt: Option<nat>, completedAt: Option<nat>, errorCode: Option<string>, counts: Counts)
  {
    /** The predicate of the partial unique index shopify_sync_runs_one_active_idx. */
    predicate Active() {
      status == Queued || status == Running
    }
  }

  datatype Store = Store(status: StoreStatus, resyncRequested: bool)

  datatype Envelope = Envelope(job: JobId, tenant: Tenant, run: RunId, mode: SyncMode)

  datatype OutboxStatus = RowPending | RowPublishing | RowPublished | RowFailed

  datatype OutboxRow = OutboxRow(
    envelope: Envelope, status: OutboxStatus, attempts: nat, availableAt: nat, createdAt: nat, updatedAt: nat)

  /** A change event accepted for a connected store by transaction number `at`. */
  datatype Event = Event(tenant: Tenant, at: nat)

  /** A committed mirror: the lease it was read under and the transaction that stored it. */
  datatype Commit = Commit(tenant: Tenant, run: RunId, leaseTaken: nat, at: nat)

  datatype History = History(
    tick: nat, leaseTaken: map<RunId, nat>, accepted: set<Event>, commits: seq<Commit>)
  {
    function LeaseTick(run: RunId): nat {
      if run in leaseTaken then leaseTaken[run] else 0
    }
  }

  datatype Database = Database(
    now: nat, nextId: nat,
    stores: map<Tenant, Store>, runs: map<RunId, Run>, outbox: map<RunId, OutboxRow>,
    processed: set<JobId>, webhooks: set<string>,
    history: History)
  {
    predicate HasActive(tenant: Tenant) {
      exists r :: r in runs && runs[r].tenant == tenant && runs[r].Active()
    }

    predicate HasJob(job: JobId) {
      exists r :: r in runs && runs[r].job == job
    }

    predicate IsConnected(tenant: Tenant) {
      tenant in stores && stores[tenant].status == Connected
    }

    /** WHERE organization_id=$1 AND store_id=$2 AND id=$3 */
    predicate Matches(tenant: Tenant, run: RunId) {
      run in runs && runs[run].tenant == tenant
    }

    /** ... AND status='running' AND lease_owner=$4 */
    predicate Owns(tenant: Tenant, run: RunId, lease: LeaseId) {
      Matches(tenant, run) && runs[run].status == Running && runs[run].leaseOwner == Some(lease)
    }
  }

  /** A transaction's effect: the database it leaves and what it reports to its caller. */
  datatype Tx<+R> = Tx(db: Database, result: R)

  datatype SyncError = AlreadyRunning | NotConnected | LeaseLost | UnsupportedMode | UnknownStore

  const LEASE_SECONDS: nat := 120
  const CLAIM_SECONDS: nat := 300

  function Tick(h: History): History {
    h.(tick := h.tick + 1)
  }

  // ---- Sync runs (shopify_mirror.go) ---------------------------------------------

  function ParseMode(mode: string): Option<SyncMode> {
    if mode == "" || mode == "full" then Some(Full)
    else if mode == "incremental" then Some(Incremental)
    else None
  }

  function NewRun(tenant: Tenant, job: JobId, mode: SyncMode): Run {
    Run(tenant, job, mode, Queued, None, None, None, None, None, None, Counts(0, 0, 0, 0))
  }

  function EnvelopeOf(run: Run, id: RunId): Envelope {
    Envelope(run.job, run.tenant, id, run.mode)
  }

  /** The run row and its outbox row, inserted by one transaction. The run takes `nextId`. */
  function InsertRun(db: Database, tenant: Tenant, job: JobId, mode: SyncMode): Database {
    var run := NewRun(tenant, job, mode);
    db.(nextId := db.nextId + 1,
        runs := db.runs[db.nextId := run],
        outbox := db.outbox[db.nextId := OutboxRow(EnvelopeOf(run, db.nextId), RowPending, 0, db.now, db.now, db.now)])
  }

  function CreateSyncRun(db: Database, tenant: Tenant, mode: string): Tx<Result<RunId, SyncError>> {
    match ParseMode(mode)
    case None => Tx(db, Failure(UnsupportedMode))
    case Some(m) =>
      if !db.IsConnected(tenant) then Tx(db, Failure(NotConnected))
      else if db.HasActive(tenant) then Tx(db, Failure(AlreadyRunning))
      else Tx(InsertRun(db, tenant, GeneratedJob(db.nextId), m).(history := Tick(db.history)), Success(db.nextId))
  }

  /** What the UPDATE of StartSyncRun answers: a new lease, a unique violation, or no row. */
  datatype StartAnswer = Leased(lease: LeaseId) | ActiveConflict | NoRow

  predicate LeaseAvailable(run: Run, now: nat) {
    || run.status == Queued
    || run.status == Failed
    || (run.status == Running && (run.leaseExpiresAt.None? || run.leaseExpiresAt.value < now))
  }

  function TakeLease(db: Database, tenant: Tenant, run: RunId): Tx<StartAnswer> {
    if !db.Matches(tenant, run) || !LeaseAvailable(db.runs[run], db.now) then Tx(db, NoRow)
    else if db.runs[run].status == Failed && db.HasActive(tenant) then Tx(db, ActiveConflict)
    else
      var before := db.runs[run];
      var after := before.(
                   status := Running,
                   startedAt := if before.startedAt.Some? then before.startedAt else Some(db.now),
                   completedAt := None, errorCode := None,
                   leaseOwner := Some(db.nextId), heartbeatAt := Some(db.now),
                   leaseExpiresAt := Some(db.now + LEASE_SECONDS));
      Tx(db.(nextId := db.nextId + 1,
             runs := db.runs[run := after],
             history := Tick(db.history).(leaseTaken := db.history.leaseTaken[run := db.history.tick])),
         Leased(db.nextId))
  }

  function HeartbeatSyncRun(db: Database, tenant: Tenant, run: RunId, lease: LeaseId): Tx<bool> {
    if !db.Owns(tenant, run, lease) then Tx(db, false)
    else
      var after := db.runs[run].(heartbeatAt := Some(db.now), leaseExpiresAt := Some(db.now + LEASE_SECONDS));
      Tx(db.(runs := db.runs[run := after], history := Tick(db.history)), true)
  }

  function FailSyncRun(db: Database, tenant: Tenant, run: RunId, lease: LeaseId, code: string): Database {
    if !db.Owns(tenant, run, lease) then db
    else
      var after := db.runs[run].(status := Failed, errorCode := Some(code), completedAt := Some(db.now),
                                 leaseOwner := None, leaseExpiresAt := None, heartbeatAt := None);
      db.(runs := db.runs[run := after], history := Tick(db.history))
  }

  /** enqueueSyncRunTx: an insert that a live run of the store, or a known job id, turns into nothing. */
  function EnqueueRun(db: Database, tenant: Tenant, job: JobId, mode: SyncMode): Result<Database, SyncError> {
    if !db.IsConnected(tenant) then Failure(NotConnected)
    else if db.HasActive(tenant) || db.HasJob(job) then Success(db)
    else Success(InsertRun(db, tenant, job, mode))
  }

  function CompleteRun(db: Database, run: RunId, counts: Counts): Database
    requires run in db.runs
  {
    var after := db.runs[run].(status := Completed, counts := counts, errorCode := None, completedAt := Some(db.now),
                               leaseOwner := None, leaseExpiresAt := None, heartbeatAt := None);
    db.(runs := db.runs[run := after])
  }

  /** The bookkeeping half of ReplaceMirror: everything that follows the mirror tables in its transaction. */
  function CommitMirror(db: Database, tenant: Tenant, run: RunId, lease: LeaseId, counts: Counts)
    : Tx<Result<(), SyncError>>
  {
    if tenant !in db.stores then Tx(db, Failure(UnknownStore))
    else if !db.Owns(tenant, run, lease) then Tx(db, Failure(LeaseLost))
    else
      var commit := Commit(tenant, run, db.history.LeaseTick(run), db.history.tick);
      var history := Tick(db.history).(commits := db.history.commits + [commit]);
      var completed := CompleteRun(db, run, counts);
      if !db.stores[tenant].resyncRequested then Tx(completed.(history := history), Success(()))
      else
        var cleared := completed.(stores := db.stores[tenant := db.stores[tenant].(resyncRequested := false)]);
        match EnqueueRun(cleared, tenant, GeneratedJob(cleared.nextId), Full)
        case Failure(e) => Tx(db, Failure(e))
        case Success(enqueued) => Tx(enqueued.(history := history), Success(()))
  }

  // ---- Webhooks (shopify_webhook.go) ---------------------------------------------

  predicate TopicTriggersMirror(topic: string) {
    topic in {"products/create", "products/update", "products/delete",
              "collections/create", "collections/update", "collections/delete", "themes/publish"}
  }

  function SetStore(db: Database, tenant: Tenant, store: Store): Database {
    db.(stores := db.stores[tenant := store])
  }

  function EnqueueWebhookSync(db: Database, tenant: Tenant, webhook: string): Result<Database, SyncError>
    requires tenant in db.stores
  {
    if db.stores[tenant].status != Connected then Success(db)
    else if db.HasActive(tenant) then Success(SetStore(db, tenant, db.stores[tenant].(resyncRequested := true)))
    else
      var cleared := SetStore(db, tenant, db.stores[tenant].(resyncRequested := false));
      EnqueueRun(cleared, tenant, WebhookJob(webhook), Full)
  }

  /** True when the webhook was already recorded; webhook_events references an existing store. */
  function RecordEvent(db: Database, tenant: Tenant, webhook: string, topic: string): Tx<Result<bool, SyncError>> {
    if webhook in db.webhooks then Tx(db, Success(true))
    else if tenant !in db.stores then Tx(db, Failure(UnknownStore))
    else
      var recorded := db.(webhooks := db.webhooks + {webhook}, history := Tick(db.history));
      if topic == "app/uninstalled" then
        Tx(SetStore(recorded, tenant, db.stores[tenant].(status := Disconnected)), Success(false))
      else if !TopicTriggersMirror(topic) then
        Tx(recorded, Success(false))
      else
        match EnqueueWebhookSync(recorded, tenant, webhook)
        case Failure(e) => Tx(db, Failure(e))
        case Success(enqueued) =>
          var accepted := if db.IsConnected(tenant) then {Event(tenant, db.history.tick)} else {};
          Tx(enqueued.(history := enqueued.history.(accepted := db.history.accepted + accepted)), Success(false))
  }

  /** Every other writer of shopify_stores.status: authorization, token rotation, the store pages. */
  function PutStoreStatus(db: Database, tenant: Tenant, status: StoreStatus): Database {
    var store := if tenant in db.stores then db.stores[tenant].(status := status) else Store(status, false);
    SetStore(db, tenant, store).(history := Tick(db.history))
  }

  // ---- Outbox and processed jobs (outbox.go, jobs.go) ------------------------------

  predicate Claimable(row: OutboxRow, now: nat) {
    || ((row.status == RowPending || row.status == RowFailed) && row.availableAt <= now)
    || (row.status == RowPublishing && row.updatedAt + CLAIM_SECONDS < now)
  }

  function ClaimRows(db: Database, runs: set<RunId>): Database {
    db.(outbox := map r | r in db.outbox ::
          if r in runs && Claimable(db.outbox[r], db.now)
          then db.outbox[r].(status := RowPublishing, updatedAt := db.now)
          else db.outbox[r])
  }

  function CompleteOutbox(db: Database, run: RunId): Database {
    if run in db.outbox && db.outbox[run].status == RowPublishing
    then db.(outbox := db.outbox[run := db.outbox[run].(status := RowPublished, updatedAt := db.now)])
    else db
  }

  /** One second doubled per earlier failure; the shift stops at nine and the delay at five minutes. */
  function OutboxBackoff(attempt: int): nat {
    var n := if attempt < 1 then 1 else attempt;
    var delay := Shift(1, if n - 1 < 9 then n - 1 else 9);
    if delay > 300 then 300 else delay
  }

  function Shift(value: nat, bits: nat): nat {
    if bits == 0 then value else 2 * Shift(value, bits - 1)
  }

  function RetryOutbox(db: Database, run: RunId, attempts: nat): Database {
    if run in db.outbox && db.outbox[run].status == RowPublishing
    then db.(outbox := db.outbox[run := db.outbox[run].(
               status := RowFailed, attempts := attempts,
               availableAt := db.now + OutboxBackoff(attempts), updatedAt := db.now)])
    else db
  }

  function MarkProcessed(db: Database, job: JobId): Database {
    db.(processed := db.processed + {job})
  }

  // ---- Any transaction ---------------------------------------------------------------

  datatype Transaction =
    | DoCreate(tenant: Tenant, mode: string)
    | DoTakeLease(tenant: Tenant, run: RunId)
    | DoHeartbeat(tenant: Tenant, run: RunId, lease: LeaseId)
    | DoCommit(tenant: Tenant, run: RunId, lease: LeaseId, counts: Counts)
    | DoFail(tenant: Tenant, run: RunId, lease: LeaseId, code: string)
    | DoRecord(tenant: Tenant, webhook: string, topic: string)
    | DoPutStatus(tenant: Tenant, status: StoreStatus)
    | DoClaim(runs: set<RunId>)
    | DoComplete(run: RunId)
    | DoRetry(run: RunId, attempts: nat)
    | DoMark(job: JobId)
    | DoWait(seconds: nat)

  function Apply(db: Database, t: Transaction): Database {
    match t
    case DoCreate(tenant, mode) => CreateSyncRun(db, tenant, mode).db
    case DoTakeLease(tenant, run) => TakeLease(db, tenant, run).db
    case DoHeartbeat(tenant, run, lease) => HeartbeatSyncRun(db, tenant, run, lease).db
    case DoCommit(tenant, run, lease, counts) => CommitMirror(db, tenant, run, lease, counts).db
    case DoFail(tenant, run, lease, code) => FailSyncRun(db, tenant, run, lease, code)
    case DoRecord(tenant, webhook, topic) => RecordEvent(db, tenant, webhook, topic).db
    case DoPutStatus(tenant, status) => PutStoreStatus(db, tenant, status)
    case DoClaim(runs) => ClaimRows(db, runs)
    case DoComplete(run) => CompleteOutbox(db, run)
    case DoRetry(run, attempts) => RetryOutbox(db, run, attempts)
    case DoMark(job) => MarkProcessed(db, job)
    case DoWait(seconds) => db.(now := db.now + seconds)
  }

  function ApplyAll(db: Database, ts: seq<Transaction>): Database
    decreases |ts|
  {
    if ts == [] then db else ApplyAll(Apply(db, ts[0]), ts[1..])
  }
}
