/**
 What the transactions do to the columns, in the program's own constants: when a run is
 leased and for how long, what a commit or an event leaves, and when an outbox row is due.
 */
module SyncLaws {
  import opened Common
  import opened SyncDatabase
  import opened SyncInvariants

  // ---- StartSyncRun --------------------------------------------------------------------------

  ghost predicate SomeLiveRun(db: Database, tenant: Tenant) {
    exists r ::
      r in db.runs && db.runs[r].tenant == tenant && (db.runs[r].status == Queued || db.runs[r].status == Running)
  }

  /** Who gets a lease: queued runs, failed ones of a store without a live run, and running ones that expired. */
  lemma StartIsAnswered(db: Database, tenant: Tenant, run: RunId)
    ensures var answer := TakeLease(db, tenant, run).result;
            if run !in db.runs || db.runs[run].tenant != tenant then answer.NoRow?
            else
              match db.runs[run].status
              case Queued => answer.Leased?
              case Failed => if SomeLiveRun(db, tenant) then answer.ActiveConflict? else answer.Leased?
              case Running =>
                var expires := db.runs[run].leaseExpiresAt;
                if expires.None? || expires.value < db.now then answer.Leased? else answer.NoRow?
              case Completed => answer.NoRow?
    ensures !TakeLease(db, tenant, run).result.Leased? ==> TakeLease(db, tenant, run).db == db
  {
    assert SomeLiveRun(db, tenant) <==> db.HasActive(tenant);
  }

  /** The row of a run that was leased, and nothing else changes. */
  lemma StartedColumns(db: Database, tenant: Tenant, run: RunId)
    requires Tabled(db) && TakeLease(db, tenant, run).result.Leased?
    ensures var after, lease := TakeLease(db, tenant, run).db, TakeLease(db, tenant, run).result.lease;
            && after.runs.Keys == db.runs.Keys && run in db.runs
            && (forall r :: r in db.runs && r != run ==> after.runs[r] == db.runs[r])
            && (forall r :: r in db.runs ==> db.runs[r].leaseOwner != Some(lease))
            && (after.stores, after.outbox, after.processed, after.webhooks, after.now)
               == (db.stores, db.outbox, db.processed, db.webhooks, db.now)
            && var row, was := after.runs[run], db.runs[run];
            && row.status == Running && row.leaseOwner == Some(lease)
            && row.leaseExpiresAt == Some(db.now + 120) && row.heartbeatAt == Some(db.now)
            && row.startedAt == (if was.startedAt.Some? then was.startedAt else Some(db.now))
            && row.completedAt.None? && row.errorCode.None?
            && (row.tenant, row.job, row.mode, row.counts) == (was.tenant, was.job, was.mode, was.counts)
  {
    assert forall r :: r in db.runs ==> Issued(db.runs[r], r, db.nextId, db.stores.Keys, db.webhooks);
  }

  function Later(db: Database, seconds: nat): Database {
    Apply(db, DoWait(seconds))
  }

  /** A lease holds for two minutes, counted from its start or from its owner's last heartbeat. */
  lemma LeaseHoldsTwoMinutes(db: Database, tenant: Tenant, run: RunId, lease: LeaseId, seconds: nat)
    ensures TakeLease(db, tenant, run).result.Leased? ==>
              (TakeLease(Later(TakeLease(db, tenant, run).db, seconds), tenant, run).result.Leased? <==> seconds > 120)
    ensures db.Owns(tenant, run, lease) ==>
              (TakeLease(Later(HeartbeatSyncRun(db, tenant, run, lease).db, seconds), tenant, run).result.Leased?
               <==> seconds > 120)
  {
    if TakeLease(db, tenant, run).result.Leased? {
      StartIsAnswered(Later(TakeLease(db, tenant, run).db, seconds), tenant, run);
    }
    if db.Owns(tenant, run, lease) {
      StartIsAnswered(Later(HeartbeatSyncRun(db, tenant, run, lease).db, seconds), tenant, run);
    }
  }

  /** A heartbeat writes the two lease times of its owner's run and nothing else. */
  lemma HeartbeatColumns(db: Database, tenant: Tenant, run: RunId, lease: LeaseId)
    ensures var after := HeartbeatSyncRun(db, tenant, run, lease);
            && after.db.(history := db.history, runs := db.runs) == db
            && (after.result <==>
                  && run in db.runs && db.runs[run].tenant == tenant && db.runs[run].status == Running
                  && db.runs[run].leaseOwner == Some(lease))
            && after.db.runs ==
               if !after.result then db.runs
               else db.runs[run := db.runs[run].(heartbeatAt := Some(db.now), leaseExpiresAt := Some(db.now + 120))]
  {
  }

  // ---- FailSyncRun and ReplaceMirror's bookkeeping --------------------------------------------------

  /** The owner's running run becomes failed, without a lease, and can be leased again at once. */
  lemma FailedColumns(db: Database, tenant: Tenant, run: RunId, lease: LeaseId, code: string)
    requires OneActive(db.runs) && db.Owns(tenant, run, lease)
    ensures var after := FailSyncRun(db, tenant, run, lease, code);
            && after.(history := db.history, runs := db.runs) == db && after.runs.Keys == db.runs.Keys
            && (forall r :: r in db.runs && r != run ==> after.runs[r] == db.runs[r])
            && var row, was := after.runs[run], db.runs[run];
            && row.status == Failed && row.errorCode == Some(code) && row.completedAt == Some(db.now)
            && row.leaseOwner.None? && row.leaseExpiresAt.None? && row.heartbeatAt.None?
            && (row.tenant, row.job, row.mode, row.startedAt, row.counts)
               == (was.tenant, was.job, was.mode, was.startedAt, was.counts)
            && TakeLease(after, tenant, run).result.Leased?
  {
    var after := FailSyncRun(db, tenant, run, lease, code);
    forall r | r in after.runs && after.runs[r].tenant == tenant
      ensures after.runs[r].status != Queued && after.runs[r].status != Running
    {
      assert ActiveIn(db.runs, run) && (ActiveIn(db.runs, r) ==> r == run);
    }
    StartIsAnswered(after, tenant, run);
  }

  /** A new run's row and its outbox row, due at once. */
  ghost predicate NewlyQueued(before: Database, after: Database, tenant: Tenant, job: JobId, mode: SyncMode) {
    var id := before.nextId;
    && id in after.runs && id in after.outbox
    && after.runs[id] == Run(tenant, job, mode, Queued, None, None, None, None, None, None, Counts(0, 0, 0, 0))
    && after.outbox[id] ==
       OutboxRow(Envelope(job, tenant, id, mode), RowPending, 0, before.now, before.now, before.now)
    && after.runs.Keys == before.runs.Keys + {id} && after.outbox.Keys == before.outbox.Keys + {id}
    && (forall r :: r in before.outbox && r != id ==> after.outbox[r] == before.outbox[r])
  }

  ghost predicate CompletedRow(was: Run, row: Run, counts: Counts, now: nat) {
    && row.status == Completed && row.counts == counts && row.completedAt == Some(now)
    && row.errorCode.None? && row.leaseOwner.None? && row.leaseExpiresAt.None? && row.heartbeatAt.None?
    && (row.tenant, row.job, row.mode, row.startedAt) == (was.tenant, was.job, was.mode, was.startedAt)
  }

  lemma CompletionColumns(db: Database, run: RunId, counts: Counts)
    requires run in db.runs
    ensures var after := Committed(db, run, counts);
            && after.(runs := db.runs, history := db.history) == db && after.runs.Keys == db.runs.Keys
            && CompletedRow(db.runs[run], after.runs[run], counts, db.now)
            && (forall r :: r in db.runs && r != run ==> after.runs[r] == db.runs[r])
  {
  }

  lemma FollowUpColumns(db: Database, tenant: Tenant)
    requires tenant in db.stores && db.nextId !in db.runs
    ensures var after := FollowUp(db, tenant);
            && after.processed == db.processed && after.now == db.now && after.webhooks == db.webhooks
            && after.stores == db.stores[tenant := Store(db.stores[tenant].status, false)]
            && NewlyQueued(db, after, tenant, GeneratedJob(db.nextId), Full)
            && (forall r :: r in db.runs ==> after.runs[r] == db.runs[r])
  {
  }

  lemma NextIdIsNew(db: Database)
    requires Tabled(db)
    ensures db.nextId !in db.runs
  {
    assert db.nextId in db.runs ==> Issued(db.runs[db.nextId], db.nextId, db.nextId, db.stores.Keys, db.webhooks);
  }

  /** What a commit leaves: the completed run, a lowered flag, and the follow-up if one was owed. */
  lemma CommittedColumns(db: Database, tenant: Tenant, run: RunId, lease: LeaseId, counts: Counts)
    requires Tabled(db) && CommitMirror(db, tenant, run, lease, counts).result.Success?
    ensures var after := CommitMirror(db, tenant, run, lease, counts).db;
            && run in db.runs && run in after.runs && tenant in db.stores
            && (after.processed, after.webhooks, after.now) == (db.processed, db.webhooks, db.now)
            && after.stores == db.stores[tenant := Store(db.stores[tenant].status, false)]
            && CompletedRow(db.runs[run], after.runs[run], counts, db.now)
            && (forall r :: r in db.runs && r != run ==> r in after.runs && after.runs[r] == db.runs[r])
            && (if db.stores[tenant].resyncRequested
                then NewlyQueued(db, after, tenant, GeneratedJob(db.nextId), Full)
                else after.runs.Keys == db.runs.Keys && after.outbox == db.outbox)
  {
    CommitMirrorResult(db, tenant, run, lease, counts);
    NextIdIsNew(db);
    CompletionColumns(db, run, counts);
    if db.stores[tenant].resyncRequested {
      FollowUpColumns(Committed(db, run, counts), tenant);
    }
  }

  // ---- CreateSyncRun and the webhooks -----------------------------------------------------------------

  /** Creation is refused for an unknown mode, a store that is not connected, or a live run, in this order. */
  lemma CreationIsAnswered(db: Database, tenant: Tenant, mode: string)
    ensures var tx := CreateSyncRun(db, tenant, mode);
            if mode != "" && mode != "full" && mode != "incremental" then tx == Tx(db, Failure(UnsupportedMode))
            else if tenant !in db.stores || db.stores[tenant].status != Connected then
              tx == Tx(db, Failure(NotConnected))
            else if SomeLiveRun(db, tenant) then tx == Tx(db, Failure(AlreadyRunning))
            else
              && tx.result == Success(db.nextId) && tx.db.stores == db.stores
              && NewlyQueued(db, tx.db, tenant, GeneratedJob(db.nextId),
                             if mode == "incremental" then Incremental else Full)
              && (forall r :: r in db.runs && r != db.nextId ==> tx.db.runs[r] == db.runs[r])
  {
    assert SomeLiveRun(db, tenant) <==> db.HasActive(tenant);
  }

  /** The topics of products, collections and themes that the program acts on. */
  ghost predicate ChangesTheMirror(topic: string) {
    || topic == "products/create" || topic == "products/update" || topic == "products/delete"
    || topic == "collections/create" || topic == "collections/update" || topic == "collections/delete"
    || topic == "themes/publish"
  }

  lemma TopicsAreThese(topic: string)
    ensures TopicTriggersMirror(topic) <==> ChangesTheMirror(topic)
    ensures ChangesTheMirror(topic) ==> topic != "app/uninstalled"
  {
    assert "app/uninstalled"[0] == 'a';
  }

  /** Uninstalling disconnects the store, and an event of no interest is only recorded. */
  lemma OtherEventIsAnswered(db: Database, tenant: Tenant, webhook: string, topic: string)
    requires webhook !in db.webhooks && tenant in db.stores
    requires !ChangesTheMirror(topic) || db.stores[tenant].status != Connected
    ensures RecordEvent(db, tenant, webhook, topic) ==
            Tx(db.(webhooks := db.webhooks + {webhook}, history := db.history.(tick := db.history.tick + 1),
                   stores := if topic == "app/uninstalled"
                             then db.stores[tenant := Store(Disconnected, db.stores[tenant].resyncRequested)]
                             else db.stores),
               Success(false))
  {
    TopicsAreThese(topic);
  }

  /** The history after an accepted change. */
  function Accepted(h: History, tenant: Tenant): History {
    h.(tick := h.tick + 1, accepted := h.accepted + {Event(tenant, h.tick)})
  }

  /** A change of a connected store raises its flag while a run is live. */
  lemma ChangeDuringARunIsFlagged(db: Database, tenant: Tenant, webhook: string, topic: string)
    requires webhook !in db.webhooks && tenant in db.stores
    requires ChangesTheMirror(topic) && db.stores[tenant].status == Connected && SomeLiveRun(db, tenant)
    ensures RecordEvent(db, tenant, webhook, topic) ==
            Tx(db.(webhooks := db.webhooks + {webhook}, history := Accepted(db.history, tenant),
                   stores := db.stores[tenant := Store(Connected, true)]),
               Success(false))
  {
    assert db.HasActive(tenant);
    TopicsAreThese(topic);
  }

  /** Otherwise it lowers the flag and starts a full run. */
  lemma ChangeOtherwiseStartsARun(db: Database, tenant: Tenant, webhook: string, topic: string)
    requires Tabled(db) && webhook !in db.webhooks && tenant in db.stores
    requires ChangesTheMirror(topic) && db.stores[tenant].status == Connected && !SomeLiveRun(db, tenant)
    ensures var tx := RecordEvent(db, tenant, webhook, topic);
            && tx.result == Success(false) && NewlyQueued(db, tx.db, tenant, WebhookJob(webhook), Full)
            && (forall r :: r in db.runs ==> tx.db.runs[r] == db.runs[r])
            && tx.db.(nextId := db.nextId, runs := db.runs, outbox := db.outbox) ==
               db.(webhooks := db.webhooks + {webhook}, history := Accepted(db.history, tenant),
                   stores := db.stores[tenant := Store(Connected, false)])
  {
    assert !db.HasActive(tenant);
    TopicsAreThese(topic);
    NextIdIsNew(db);
    InsertedAfterEvent(db, tenant, webhook, topic);
  }

  lemma InsertedAfterEvent(db: Database, tenant: Tenant, webhook: string, topic: string)
    requires Tabled(db) && webhook !in db.webhooks && tenant in db.stores
    requires TopicTriggersMirror(topic) && topic != "app/uninstalled"
    requires db.stores[tenant].status == Connected && !db.HasActive(tenant)
    ensures RecordEvent(db, tenant, webhook, topic) ==
            Tx(InsertRun(db.(webhooks := db.webhooks + {webhook},
                             stores := db.stores[tenant := Store(Connected, false)]), tenant, WebhookJob(webhook), Full)
                 .(history := Accepted(db.history, tenant)), Success(false))
  {
    assert !db.HasJob(WebhookJob(webhook)) by {
      assert forall r :: r in db.runs ==> Issued(db.runs[r], r, db.nextId, db.stores.Keys, db.webhooks);
    }
  }

  /** A webhook that was recorded before changes nothing. */
  lemma RepeatedEventIsIgnored(db: Database, tenant: Tenant, webhook: string, topic: string)
    requires webhook in db.webhooks
    ensures RecordEvent(db, tenant, webhook, topic) == Tx(db, Success(true))
  {
  }

  /** The other writers of a store's status keep its flag; a store they create owes nothing. */
  lemma StatusIsPut(db: Database, tenant: Tenant, status: StoreStatus)
    ensures var after := PutStoreStatus(db, tenant, status);
            && after.(stores := db.stores, history := db.history) == db
            && after.stores ==
               db.stores[tenant := Store(status, tenant in db.stores && db.stores[tenant].resyncRequested)]
  {
  }

  // ---- The outbox ---------------------------------------------------------------------------------------

  /** The row is taken by a claim that is made this much later. */
  predicate ClaimedAfter(db: Database, r: RunId, seconds: nat) {
    var claimed := ClaimRows(Later(db, seconds), {r});
    r in claimed.outbox && claimed.outbox[r].status == RowPublishing && claimed.outbox[r].updatedAt == db.now + seconds
  }

  /** A row whose publish failed is claimed once its delay is over, and not before. */
  lemma FailedRowIsDue(db: Database, r: RunId, attempts: nat, seconds: nat)
    requires r in db.outbox && db.outbox[r].status == RowPublishing
    ensures ClaimedAfter(RetryOutbox(db, r, attempts), r, seconds) <==> seconds >= OutboxBackoff(attempts)
    ensures RetryOutbox(db, r, attempts).outbox[r].attempts == attempts
  {
  }

  /** A claim that was never settled is up for claiming after five minutes. */
  lemma StaleClaimIsDue(db: Database, r: RunId, seconds: nat)
    requires ClaimedAfter(db, r, 0)
    ensures seconds > 0 ==> (ClaimedAfter(ClaimRows(db, {r}), r, seconds) <==> seconds > 300)
  {
  }

  /** A new run's row is claimed at once, and a published row never. */
  lemma OtherRowsAreDue(db: Database, r: RunId, seconds: nat)
    requires r in db.outbox
    ensures db.outbox[r].status == RowPending && db.outbox[r].availableAt <= db.now ==> ClaimedAfter(db, r, seconds)
    ensures db.outbox[r].status == RowPublished ==> !ClaimedAfter(db, r, seconds)
    ensures db.outbox[r].status == RowPublishing ==> !ClaimedAfter(CompleteOutbox(db, r), r, seconds)
  {
  }

  /** A claim marks the due rows among the given ones and touches nothing else. */
  lemma ClaimColumns(db: Database, runs: set<RunId>, r: RunId)
    requires r in db.outbox
    ensures var after, row := ClaimRows(db, runs), db.outbox[r];
            && after.(outbox := db.outbox) == db && after.outbox.Keys == db.outbox.Keys
            && after.outbox[r] ==
               if r in runs
                  && (((row.status == RowPending || row.status == RowFailed) && row.availableAt <= db.now)
                      || (row.status == RowPublishing && row.updatedAt + 300 < db.now))
               then OutboxRow(row.envelope, RowPublishing, row.attempts, row.availableAt, row.createdAt, db.now)
               else row
  {
  }

  /** Settling writes only a row that is being published. */
  lemma SettlingColumns(db: Database, r: RunId, attempts: nat)
    requires r in db.outbox
    ensures var row, done, again := db.outbox[r], CompleteOutbox(db, r), RetryOutbox(db, r, attempts);
            if row.status != RowPublishing then done == db && again == db
            else
              && done == db.(outbox := db.outbox[r := OutboxRow(
                   row.envelope, RowPublished, row.attempts, row.availableAt, row.createdAt, db.now)])
              && again == db.(outbox := db.outbox[r := OutboxRow(
                   row.envelope, RowFailed, attempts, db.now + OutboxBackoff(attempts), row.createdAt, db.now)])
  {
  }
}
