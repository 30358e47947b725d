/**
 The repository's database client: the statements of each transaction, in the order
 the program runs them. Every method is proved to have exactly the effect of its
 transaction in SyncDatabase; a method that fails rolls back to where it began.
 */
module Postgres {
  import opened Common
  import opened SyncDatabase

  datatype Snapshot = Snapshot(
    stores: map<Tenant, Store>, runs: map<RunId, Run>, outbox: map<RunId, OutboxRow>, webhooks: set<string>,
    nextId: nat)

  /** A row of integration_accounts, as far as disconnecting changes it. */
  datatype Account = Account(status: StoreStatus, credentials: Option<string>)

  type AccountId = (string, string)

  /** integration_accounts, by organisation and id, and shopify_stores.integration_account_id. */
  class Accounts {
    var rows: map<AccountId, Account>
    const accountOf: map<Tenant, string>

    constructor (rows: map<AccountId, Account>, accountOf: map<Tenant, string>)
      ensures this.rows == rows && this.accountOf == accountOf
    {
      this.rows, this.accountOf := rows, accountOf;
    }

    /** The second UPDATE of disconnectWebhookStore. */
    method Disconnect(tenant: Tenant)
      modifies this
      ensures rows == WithoutCredentials(old(rows), accountOf, tenant)
    {
      if tenant in accountOf {
        var id := (tenant.organization, accountOf[tenant]);
        if id in rows {
          rows := rows[id := Account(Disconnected, None)];
        }
      }
    }
  }

  /** The store's account, if it has one, loses its credentials; all others stay as they are. */
  function WithoutCredentials(rows: map<AccountId, Account>, accountOf: map<Tenant, string>,
                              tenant: Tenant): map<AccountId, Account> {
    map id | id in rows ::
      if tenant in accountOf && id == (tenant.organization, accountOf[tenant]) then Account(Disconnected, None)
      else rows[id]
  }

  /** Uninstalling leaves the store's account without credentials, and every other account as it was. */
  lemma UninstalledAccount(rows: map<AccountId, Account>, accountOf: map<Tenant, string>, tenant: Tenant, id: AccountId)
    requires id in rows
    ensures var after := WithoutCredentials(rows, accountOf, tenant);
            && after.Keys == rows.Keys
            && (tenant in accountOf && id.0 == tenant.organization && id.1 == accountOf[tenant] ==>
                  after[id].credentials.None? && after[id].status == Disconnected)
            && (tenant !in accountOf || id.0 != tenant.organization || id.1 != accountOf[tenant] ==>
                  after[id] == rows[id])
  {
  }

  /** No unclaimed candidate is older than a claimed one. */
  ghost predicate OldestFirst(rows: map<RunId, OutboxRow>, candidates: set<RunId>, claimed: set<RunId>)
  {
    forall a, b :: a in claimed && b in candidates && b !in claimed && a in rows && b in rows ==>
      rows[a].createdAt <= rows[b].createdAt
  }

  /** The oldest claimable rows that nobody has locked, as many as the limit allows. */
  ghost predicate Picked(rows: map<RunId, OutboxRow>, now: nat, limit: int, locked: set<RunId>, claimed: set<RunId>) {
    var candidates := set r | r in rows && Claimable(rows[r], now) && r !in locked;
    var bound := if limit <= 0 || limit > 100 then 50 else limit;
    && claimed <= candidates && |claimed| <= bound
    && (|claimed| < bound ==> claimed == candidates)
    && OldestFirst(rows, candidates, claimed)
  }

  /** The WHERE clause of the claim, column by column; FOR UPDATE SKIP LOCKED leaves out what others hold. */
  ghost function DueRows(rows: map<RunId, OutboxRow>, now: nat, locked: set<RunId>): set<RunId> {
    set r |
      r in rows && r !in locked
      && (|| (rows[r].status == RowPending && rows[r].availableAt <= now)
          || (rows[r].status == RowFailed && rows[r].availableAt <= now)
          || (rows[r].status == RowPublishing && now - rows[r].updatedAt > 300))
  }

  /** Due rows only, the oldest first, and all of them if the limit allows. */
  ghost predicate TakesTheDue(rows: map<RunId, OutboxRow>, due: set<RunId>, limit: int, claimed: set<RunId>) {
    && claimed <= due && |claimed| <= (if 1 <= limit <= 100 then limit else 50)
    && (forall a, b :: a in claimed && b in due && b !in claimed && a in rows && b in rows ==>
          rows[a].createdAt <= rows[b].createdAt)
    && (1 <= limit <= 100 && |due| <= limit ==> claimed == due)
    && ((limit < 1 || limit > 100) && |due| <= 50 ==> claimed == due)
  }

  lemma PickedAreDue(rows: map<RunId, OutboxRow>, now: nat, limit: int, locked: set<RunId>, claimed: set<RunId>)
    requires Picked(rows, now, limit, locked, claimed)
    ensures TakesTheDue(rows, DueRows(rows, now, locked), limit, claimed)
  {
    var candidates := set r | r in rows && Claimable(rows[r], now) && r !in locked;
    assert candidates == DueRows(rows, now, locked);
    if claimed < candidates {
      SmallerSubset(claimed, candidates);
    }
  }

  lemma SmallerSubset(a: set<RunId>, b: set<RunId>)
    requires a < b
    ensures |a| < |b|
  {
    var x :| x in b && x !in a;
    assert a <= b - {x};
    SubsetIsNoLarger(a, b - {x});
  }

  lemma {:induction false} SubsetIsNoLarger(a: set<RunId>, b: set<RunId>)
    requires a <= b
    ensures |a| <= |b|
    decreases a
  {
    if x :| x in a {
      SubsetIsNoLarger(a - {x}, b - {x});
    }
  }

  class Client {
    var now: nat
    var nextId: nat
    var stores: map<Tenant, Store>
    var runs: map<RunId, Run>
    var outbox: map<RunId, OutboxRow>
    var processed: set<JobId>
    var webhooks: set<string>
    ghost var history: History

    ghost function View(): Database
      reads this
    {
      Database(now, nextId, stores, runs, outbox, processed, webhooks, history)
    }

    constructor (stores: map<Tenant, Store>)
      ensures View() == Database(0, 0, stores, map[], map[], {}, {}, History(0, map[], {}, []))
    {
      now, nextId := 0, 0;
      this.stores, runs, outbox, processed, webhooks := stores, map[], map[], {}, {};
      history := History(0, map[], {}, []);
    }

    function Saved(): Snapshot
      reads this
    {
      Snapshot(stores, runs, outbox, webhooks, nextId)
    }

    method Rollback(saved: Snapshot)
      modifies this
      ensures now == old(now) && processed == old(processed) && history == old(history)
      ensures Saved() == saved
    {
      stores, runs, outbox, webhooks, nextId := saved.stores, saved.runs, saved.outbox, saved.webhooks, saved.nextId;
    }

    predicate HasActive(tenant: Tenant)
      reads this
    {
      exists r :: r in runs && runs[r].tenant == tenant && runs[r].Active()
    }

    predicate HasJob(job: JobId)
      reads this
    {
      exists r :: r in runs && runs[r].job == job
    }

    // ---- shopify_mirror.go -----------------------------------------------------------------

    method InsertRunAndOutbox(tenant: Tenant, job: JobId, mode: SyncMode) returns (id: RunId)
      modifies this
      ensures View() == InsertRun(old(View()), tenant, job, mode) && id == old(nextId)
    {
      id := nextId;
      var run := NewRun(tenant, job, mode);
      nextId := nextId + 1;
      runs := runs[id := run];
      outbox := outbox[id := OutboxRow(EnvelopeOf(run, id), RowPending, 0, now, now, now)];
    }

    method CreateSyncRun(tenant: Tenant, mode: string) returns (result: Result<RunId, SyncError>)
      modifies this
      ensures Tx(View(), result) == SyncDatabase.CreateSyncRun(old(View()), tenant, mode)
    {
      var parsed := Full;
      if mode == "incremental" {
        parsed := Incremental;
      } else if mode != "" && mode != "full" {
        return Failure(UnsupportedMode);
      }
      if tenant !in stores || stores[tenant].status != Connected {
        return Failure(NotConnected);
      }
      if HasActive(tenant) {
        return Failure(AlreadyRunning);
      }
      var id := InsertRunAndOutbox(tenant, GeneratedJob(nextId), parsed);
      history := Tick(history);
      return Success(id);
    }

    /** The UPDATE of StartSyncRun. */
    method TakeLease(tenant: Tenant, run: RunId) returns (answer: StartAnswer)
      modifies this
      ensures Tx(View(), answer) == SyncDatabase.TakeLease(old(View()), tenant, run)
    {
      if run !in runs || runs[run].tenant != tenant {
        return NoRow;
      }
      var row := runs[run];
      if !LeaseAvailable(row, now) {
        return NoRow;
      }
      if row.status == Failed && HasActive(tenant) {
        return ActiveConflict;
      }
      var lease := nextId;
      nextId := nextId + 1;
      if row.startedAt.None? {
        row := row.(startedAt := Some(now));
      }
      row := row.(status := Running, completedAt := None, errorCode := None);
      row := row.(leaseOwner := Some(lease), heartbeatAt := Some(now), leaseExpiresAt := Some(now + LEASE_SECONDS));
      runs := runs[run := row];
      history := Tick(history).(leaseTaken := history.leaseTaken[run := history.tick]);
      return Leased(lease);
    }

    /** The SELECT of StartSyncRun. */
    method RunStatus(tenant: Tenant, run: RunId) returns (status: Option<RunStatus>)
      ensures status == if View().Matches(tenant, run) then Some(View().runs[run].status) else None
    {
      if run !in runs || runs[run].tenant != tenant {
        return None;
      }
      return Some(runs[run].status);
    }

    method HeartbeatSyncRun(tenant: Tenant, run: RunId, lease: LeaseId) returns (ok: bool)
      modifies this
      ensures View() == SyncDatabase.HeartbeatSyncRun(old(View()), tenant, run, lease).db
      ensures ok <==>
                old(View().Owns(tenant, run, lease)) || (View().Matches(tenant, run) && runs[run].status == Completed)
    {
      if
        && run in runs && runs[run].tenant == tenant
        && runs[run].status == Running && runs[run].leaseOwner == Some(lease)
      {
        runs := runs[run := runs[run].(heartbeatAt := Some(now), leaseExpiresAt := Some(now + LEASE_SECONDS))];
        history := Tick(history);
        return true;
      }
      var status := RunStatus(tenant, run);
      return status == Some(Completed);
    }

    method FailSyncRun(tenant: Tenant, run: RunId, lease: LeaseId, code: string)
      modifies this
      ensures View() == SyncDatabase.FailSyncRun(old(View()), tenant, run, lease, code)
    {
      if
        && run in runs && runs[run].tenant == tenant
        && runs[run].status == Running && runs[run].leaseOwner == Some(lease)
      {
        runs := runs[run := runs[run].(status := Failed, errorCode := Some(code), completedAt := Some(now),
                                       leaseOwner := None, leaseExpiresAt := None, heartbeatAt := None)];
        history := Tick(history);
      }
    }

    /** enqueueSyncRunTx; the caller rolls back on an error. */
    method EnqueueSyncRun(tenant: Tenant, job: Option<JobId>, mode: SyncMode) returns (ok: bool)
      modifies this
      ensures var id := if job.Some? then job.value else GeneratedJob(old(nextId));
              match EnqueueRun(old(View()), tenant, id, mode)
              case Success(db) => ok && View() == db
              case Failure(_) => !ok && View() == old(View())
    {
      if tenant !in stores || stores[tenant].status != Connected {
        return false;
      }
      var id := if job.Some? then job.value else GeneratedJob(nextId);
      if !HasActive(tenant) && !HasJob(id) {
        var run := InsertRunAndOutbox(tenant, id, mode);
      }
      return true;
    }

    /** The bookkeeping statements that end the transaction of ReplaceMirror. */
    method CommitMirror(tenant: Tenant, run: RunId, lease: LeaseId, counts: Counts)
      returns (result: Result<(), SyncError>)
      modifies this
      ensures Tx(View(), result) == SyncDatabase.CommitMirror(old(View()), tenant, run, lease, counts)
    {
      var saved := Saved();
      if tenant !in stores {
        return Failure(UnknownStore);
      }
      var resyncRequested := stores[tenant].resyncRequested;
      if
        || run !in runs || runs[run].tenant != tenant
        || runs[run].status != Running || runs[run].leaseOwner != Some(lease)
      {
        return Failure(LeaseLost);
      }
      runs := runs[run := runs[run].(status := Completed, counts := counts, errorCode := None, completedAt := Some(now),
                                     leaseOwner := None, leaseExpiresAt := None, heartbeatAt := None)];
      if resyncRequested {
        stores := stores[tenant := stores[tenant].(resyncRequested := false)];
        var ok := EnqueueSyncRun(tenant, None, Full);
        if !ok {
          Rollback(saved);
          return Failure(NotConnected);
        }
      }
      ghost var commit := Commit(tenant, run, history.LeaseTick(run), history.tick);
      history := Tick(history).(commits := history.commits + [commit]);
      return Success(());
    }

    // ---- shopify_webhook.go ------------------------------------------------------------------

    method EnqueueWebhookSync(tenant: Tenant, webhook: string) returns (ok: bool)
      requires tenant in stores
      modifies this
      ensures match SyncDatabase.EnqueueWebhookSync(old(View()), tenant, webhook)
              case Success(db) => ok && View() == db
              case Failure(_) => !ok
    {
      if stores[tenant].status != Connected {
        return true;
      }
      if HasActive(tenant) {
        stores := stores[tenant := stores[tenant].(resyncRequested := true)];
        return true;
      }
      stores := stores[tenant := stores[tenant].(resyncRequested := false)];
      ok := EnqueueSyncRun(tenant, Some(WebhookJob(webhook)), Full);
    }

    method RecordShopifyEventAndOutbox(tenant: Tenant, webhook: string, topic: string, accounts: Accounts)
      returns (result: Result<bool, SyncError>)
      modifies this, accounts
      ensures Tx(View(), result) == RecordEvent(old(View()), tenant, webhook, topic)
      ensures accounts.rows ==
              if result == Success(false) && topic == "app/uninstalled"
              then WithoutCredentials(old(accounts.rows), accounts.accountOf, tenant) else old(accounts.rows)
    {
      if webhook in webhooks {
        return Success(true);
      }
      if tenant !in stores {
        return Failure(UnknownStore);
      }
      ghost var accepted := if stores[tenant].status == Connected then {Event(tenant, history.tick)} else {};
      webhooks := webhooks + {webhook};
      history := Tick(history);
      if topic == "app/uninstalled" {
        stores := stores[tenant := stores[tenant].(status := Disconnected)];
        accounts.Disconnect(tenant);
      } else if TopicTriggersMirror(topic) {
        var ok := EnqueueWebhookSync(tenant, webhook);
        assert ok;
        history := history.(accepted := history.accepted + accepted);
      }
      return Success(false);
    }

    // ---- outbox.go and jobs.go -----------------------------------------------------------------

    method CompleteOutbox(run: RunId)
      modifies this
      ensures View() == SyncDatabase.CompleteOutbox(old(View()), run)
    {
      if run in outbox && outbox[run].status == RowPublishing {
        outbox := outbox[run := outbox[run].(status := RowPublished, updatedAt := now)];
      }
    }

    method RetryOutbox(run: RunId, attempts: nat)
      modifies this
      ensures View() == SyncDatabase.RetryOutbox(old(View()), run, attempts)
    {
      if run in outbox && outbox[run].status == RowPublishing {
        outbox := outbox[run := outbox[run].(status := RowFailed, attempts := attempts,
                                             availableAt := now + OutboxBackoff(attempts), updatedAt := now)];
      }
    }

    /**
     The oldest claimable rows that nobody else has locked, at most `limit` of them. If one of them
     holds an envelope that does not decode, the claim is rolled back.
     */
    method ClaimOutbox(limit: int, locked: set<RunId>, unreadable: set<RunId>) returns (ok: bool, claimed: set<RunId>)
      modifies this
      ensures View() == if ok then ClaimRows(old(View()), claimed) else old(View())
      ensures ok <==> claimed !! unreadable
      ensures Picked(old(outbox), now, limit, locked, claimed)
      ensures TakesTheDue(old(outbox), DueRows(old(outbox), now, locked), limit, claimed)
    {
      claimed := Pick(limit, locked);
      var saved := outbox;
      outbox := map r | r in outbox ::
        if r in claimed && Claimable(outbox[r], now) then outbox[r].(status := RowPublishing, updatedAt := now)
        else outbox[r];
      ok := Decodes(claimed, unreadable);
      if !ok {
        outbox := saved;
      }
    }

    /** The candidates of the common table expression. */
    method Pick(limit: int, locked: set<RunId>) returns (claimed: set<RunId>)
      ensures Picked(outbox, now, limit, locked, claimed)
      ensures TakesTheDue(outbox, DueRows(outbox, now, locked), limit, claimed)
    {
      var bound := if limit <= 0 || limit > 100 then 50 else limit;
      var candidates := set r | r in outbox && Claimable(outbox[r], now) && r !in locked;
      claimed := {};
      while |claimed| < bound && claimed != candidates
        invariant claimed <= candidates && |claimed| <= bound
        invariant OldestFirst(outbox, candidates, claimed)
        decreases bound - |claimed|
      {
        assert candidates - claimed != {} by {
          assert claimed < candidates;
          var r :| r in candidates && r !in claimed;
          assert r in candidates - claimed;
        }
        var oldest := Oldest(candidates - claimed);
        claimed := claimed + {oldest};
      }
      PickedAreDue(outbox, now, limit, locked, claimed);
    }

    /** The loop over the returned rows. */
    method Decodes(rows: set<RunId>, unreadable: set<RunId>) returns (ok: bool)
      ensures ok <==> rows !! unreadable
    {
      var rest := rows;
      while rest != {}
        invariant rest <= rows && (rows - rest) !! unreadable
        decreases rest
      {
        var r :| r in rest;
        if r in unreadable {
          return false;
        }
        rest := rest - {r};
      }
      return true;
    }

    /** ORDER BY created_at, one row at a time. */
    method Oldest(rows: set<RunId>) returns (oldest: RunId)
      requires rows != {} && rows <= outbox.Keys
      ensures oldest in rows && forall r :: r in rows ==> outbox[oldest].createdAt <= outbox[r].createdAt
    {
      oldest :| oldest in rows;
      var rest := rows - {oldest};
      while rest != {}
        invariant oldest in rows && rest <= rows
        invariant forall r :: r in rows && r !in rest ==> outbox[oldest].createdAt <= outbox[r].createdAt
        decreases rest
      {
        var r :| r in rest;
        if outbox[r].createdAt < outbox[oldest].createdAt {
          oldest := r;
        }
        rest := rest - {r};
      }
    }

    method IsJobProcessed(job: JobId) returns (processed: bool)
      ensures processed <==> job in this.processed
    {
      return job in this.processed;
    }

    method MarkJobProcessed(job: JobId)
      modifies this
      ensures View() == MarkProcessed(old(View()), job)
    {
      processed := processed + {job};
    }
  }
}
