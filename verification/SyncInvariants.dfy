/**
 What every transaction keeps: the shape of a run, one active run per store, the
 serial order of mirror commits, and the debt owed to accepted change events.
 */
module SyncInvariants {
  import opened Common
  import opened SyncDatabase

  // ---- The invariants ------------------------------------------------------------------

  ghost predicate RunShape(run: Run) {
    && (run.leaseOwner.Some? <==> run.status == Running)
    && (run.leaseExpiresAt.Some? <==> run.status == Running)
    && (run.heartbeatAt.Some? <==> run.status == Running)
    && (run.completedAt.Some? <==> run.status == Completed || run.status == Failed)
    && (run.startedAt.Some? <==> run.status != Queued)
    && (run.errorCode.Some? <==> run.status == Failed)
  }

  ghost predicate RunShapes(runs: map<RunId, Run>) {
    forall r :: r in runs ==> RunShape(runs[r])
  }

  ghost predicate ActiveIn(runs: map<RunId, Run>, r: RunId) {
    r in runs && runs[r].Active()
  }

  /** shopify_sync_runs_one_active_idx */
  ghost predicate OneActive(runs: map<RunId, Run>) {
    forall a, b :: ActiveIn(runs, a) && ActiveIn(runs, b) && runs[a].tenant == runs[b].tenant ==> a == b
  }

  ghost predicate UniqueJobs(runs: map<RunId, Run>) {
    forall a, b :: a in runs && b in runs && runs[a].job == runs[b].job ==> a == b
  }

  /** No two runs show the same lease. */
  ghost predicate UniqueLeases(runs: map<RunId, Run>) {
    forall a, b :: a in runs && b in runs && runs[a].leaseOwner.Some? && runs[a].leaseOwner == runs[b].leaseOwner ==>
      a == b
  }

  /** Each run has exactly its outbox row. */
  ghost predicate Rows(runs: map<RunId, Run>, outbox: map<RunId, OutboxRow>) {
    && outbox.Keys == runs.Keys
    && forall r :: r in runs ==> outbox[r].envelope == EnvelopeOf(runs[r], r)
  }

  /** No identifier of the run has been handed out yet. */
  ghost predicate Issued(run: Run, r: RunId, nextId: nat, stores: set<Tenant>, webhooks: set<string>) {
    && r < nextId
    && run.tenant in stores
    && (run.leaseOwner.Some? ==> run.leaseOwner.value < nextId)
    && (run.job.GeneratedJob? ==> run.job.id < nextId)
    && (run.job.WebhookJob? ==> run.job.webhook in webhooks)
  }

  ghost predicate AllIssued(runs: map<RunId, Run>, nextId: nat, stores: set<Tenant>, webhooks: set<string>) {
    forall r :: r in runs ==> Issued(runs[r], r, nextId, stores, webhooks)
  }

  ghost predicate Tabled(db: Database) {
    && RunShapes(db.runs) && OneActive(db.runs) && UniqueJobs(db.runs) && UniqueLeases(db.runs)
    && Rows(db.runs, db.outbox)
    && AllIssued(db.runs, db.nextId, db.stores.Keys, db.webhooks)
  }

  /** A lease stamp comes from an earlier transaction. */
  ghost predicate LeaseStamped(db: Database, r: RunId) {
    && r in db.runs
    && (db.runs[r].status != Queued ==> db.history.LeaseTick(r) < db.history.tick)
  }

  ghost predicate CommitStamped(db: Database, c: Commit) {
    && c.leaseTaken < c.at < db.history.tick
    && db.Matches(c.tenant, c.run)
    && db.runs[c.run].status == Completed
  }

  ghost predicate Stamped(db: Database) {
    && db.history.leaseTaken.Keys <= db.runs.Keys
    && (forall r :: r in db.runs ==> LeaseStamped(db, r))
    && (forall e :: e in db.history.accepted ==> e.at < db.history.tick)
    && (forall i :: 0 <= i < |db.history.commits| ==> CommitStamped(db, db.history.commits[i]))
  }

  /** A live lease is younger than every mirror its store has committed so far. */
  ghost predicate LeasesAfterCommits(db: Database) {
    forall r, i ::
      r in db.runs && 0 <= i < |db.history.commits| && db.runs[r].status == Running
      && db.history.commits[i].tenant == db.runs[r].tenant ==>
        db.history.commits[i].at < db.history.LeaseTick(r)
  }

  /** Read-to-commit intervals of one store are disjoint and in commit order; no run commits twice. */
  ghost predicate SerialCommits(commits: seq<Commit>) {
    forall i, j :: 0 <= i < j < |commits| ==>
      && commits[i].run != commits[j].run
      && (commits[i].tenant == commits[j].tenant ==> commits[i].at < commits[j].leaseTaken)
  }

  ghost predicate Ordered(db: Database) {
    Stamped(db) && LeasesAfterCommits(db) && SerialCommits(db.history.commits)
  }

  /** Some committed mirror was read under a lease taken after the event. */
  ghost predicate Covers(commits: seq<Commit>, i: int, e: Event) {
    0 <= i < |commits| && commits[i].tenant == e.tenant && e.at < commits[i].leaseTaken
  }

  ghost predicate Covered(commits: seq<Commit>, e: Event) {
    exists i :: Covers(commits, i, e)
  }

  /** A run that will read the store after the event, or that read it after the event and may retry. */
  ghost predicate Pursues(db: Database, r: RunId, e: Event) {
    && db.Matches(e.tenant, r)
    && (|| db.runs[r].status == Queued
        || ((db.runs[r].status == Running || db.runs[r].status == Failed) && e.at < db.history.LeaseTick(r)))
  }

  ghost predicate Flagged(stores: map<Tenant, Store>, tenant: Tenant) {
    tenant in stores && stores[tenant].resyncRequested
  }

  ghost predicate Owed(db: Database, e: Event) {
    Flagged(db.stores, e.tenant) || exists r :: Pursues(db, r, e)
  }

  ghost predicate EventsOwed(db: Database) {
    forall e :: e in db.history.accepted ==> Covered(db.history.commits, e) || Owed(db, e)
  }

  ghost predicate Unfinished(runs: map<RunId, Run>, tenant: Tenant, r: RunId) {
    r in runs && runs[r].tenant == tenant && runs[r].status != Completed
  }

  /** The follow-up flag is never raised without a run that will lower it. */
  ghost predicate FlagsOwed(runs: map<RunId, Run>, stores: map<Tenant, Store>) {
    forall t :: Flagged(stores, t) ==> exists r :: Unfinished(runs, t, r)
  }

  ghost predicate Debts(db: Database) {
    EventsOwed(db) && FlagsOwed(db.runs, db.stores)
  }

  ghost predicate Sound(db: Database) {
    Tabled(db) && Ordered(db) && Debts(db)
  }

  /** Stores may exist before the first run; nothing else does. */
  ghost predicate Initial(db: Database) {
    && db.runs == map[] && db.outbox == map[] && db.processed == {} && db.webhooks == {}
    && (forall t :: t in db.stores ==> !db.stores[t].resyncRequested)
    && db.history == History(0, map[], {}, [])
  }

  // ---- Inserting a run -------------------------------------------------------------------

  ghost predicate Insertable(db: Database, tenant: Tenant, job: JobId) {
    && db.IsConnected(tenant) && !db.HasActive(tenant) && !db.HasJob(job)
    && (job.GeneratedJob? ==> job.id <= db.nextId)
    && (job.WebhookJob? ==> job.webhook in db.webhooks)
  }

  lemma InsertKeepsOneActive(db: Database, tenant: Tenant, job: JobId, mode: SyncMode)
    requires OneActive(db.runs) && !db.HasActive(tenant) && db.nextId !in db.runs
    ensures OneActive(InsertRun(db, tenant, job, mode).runs)
  {
    var after := InsertRun(db, tenant, job, mode).runs;
    forall a, b | ActiveIn(after, a) && ActiveIn(after, b) && after[a].tenant == after[b].tenant
      ensures a == b
    {
      assert a in db.runs ==> ActiveIn(db.runs, a);
      assert b in db.runs ==> ActiveIn(db.runs, b);
    }
  }

  lemma InsertKeepsIssued(db: Database, tenant: Tenant, job: JobId, mode: SyncMode)
    requires AllIssued(db.runs, db.nextId, db.stores.Keys, db.webhooks) && Insertable(db, tenant, job)
    ensures var after := InsertRun(db, tenant, job, mode);
            AllIssued(after.runs, after.nextId, after.stores.Keys, after.webhooks)
    ensures db.nextId !in db.runs
  {
    forall r | r in db.runs
      ensures Issued(db.runs[r], r, db.nextId + 1, db.stores.Keys, db.webhooks) && r != db.nextId
    {
      assert Issued(db.runs[r], r, db.nextId, db.stores.Keys, db.webhooks);
    }
    assert Issued(NewRun(tenant, job, mode), db.nextId, db.nextId + 1, db.stores.Keys, db.webhooks);
  }

  lemma InsertKeepsUnique(db: Database, tenant: Tenant, job: JobId, mode: SyncMode)
    requires UniqueJobs(db.runs) && UniqueLeases(db.runs) && !db.HasJob(job)
    ensures var after := InsertRun(db, tenant, job, mode); UniqueJobs(after.runs) && UniqueLeases(after.runs)
  {
  }

  lemma InsertKeepsRows(db: Database, tenant: Tenant, job: JobId, mode: SyncMode)
    requires Rows(db.runs, db.outbox) && RunShapes(db.runs)
    ensures var after := InsertRun(db, tenant, job, mode); Rows(after.runs, after.outbox) && RunShapes(after.runs)
  {
  }

  lemma InsertKeepsTabled(db: Database, tenant: Tenant, job: JobId, mode: SyncMode)
    requires Tabled(db) && Insertable(db, tenant, job)
    ensures Tabled(InsertRun(db, tenant, job, mode)) && db.nextId !in db.runs
  {
    InsertKeepsIssued(db, tenant, job, mode);
    InsertKeepsOneActive(db, tenant, job, mode);
    InsertKeepsUnique(db, tenant, job, mode);
    InsertKeepsRows(db, tenant, job, mode);
  }

  lemma InsertKeepsOrdered(db: Database, tenant: Tenant, job: JobId, mode: SyncMode)
    requires Ordered(db) && db.nextId !in db.runs
    ensures Ordered(InsertRun(db, tenant, job, mode))
  {
    var after := InsertRun(db, tenant, job, mode);
    assert forall r :: r in db.runs && LeaseStamped(db, r) ==> LeaseStamped(after, r);
    assert forall c :: CommitStamped(db, c) ==> CommitStamped(after, c);
  }

  /** Every debt is covered except, perhaps, those of one store. */
  ghost predicate OthersPaid(db: Database, tenant: Tenant) {
    && (forall e :: e in db.history.accepted && e.tenant != tenant ==> Covered(db.history.commits, e) || Owed(db, e))
    && (forall t :: t != tenant && Flagged(db.stores, t) ==> exists r :: Unfinished(db.runs, t, r))
  }

  /** A queued run pays all the debts of its store. */
  lemma InsertPaysDebts(db: Database, tenant: Tenant, job: JobId, mode: SyncMode)
    requires OthersPaid(db, tenant) && db.nextId !in db.runs
    ensures Debts(InsertRun(db, tenant, job, mode))
    ensures forall e: Event :: e.tenant == tenant ==> Owed(InsertRun(db, tenant, job, mode), e)
  {
    var after := InsertRun(db, tenant, job, mode);
    assert forall e, r :: Pursues(db, r, e) ==> Pursues(after, r, e);
    assert forall t, r :: Unfinished(db.runs, t, r) ==> Unfinished(after.runs, t, r);
    assert forall e: Event :: e.tenant == tenant ==> Pursues(after, db.nextId, e);
    assert Unfinished(after.runs, tenant, db.nextId);
  }

  lemma InsertKeepsSound(db: Database, tenant: Tenant, job: JobId, mode: SyncMode)
    requires Tabled(db) && Ordered(db) && OthersPaid(db, tenant) && Insertable(db, tenant, job)
    ensures Sound(InsertRun(db, tenant, job, mode))
    ensures forall e: Event :: e.tenant == tenant ==> Owed(InsertRun(db, tenant, job, mode), e)
  {
    InsertKeepsTabled(db, tenant, job, mode);
    InsertKeepsOrdered(db, tenant, job, mode);
    InsertPaysDebts(db, tenant, job, mode);
  }

  // ---- Updating one run ------------------------------------------------------------------

  /** `after` is `db` with run r rewritten; what identifies the run stays. */
  ghost predicate Rewrites(db: Database, after: Database, r: RunId, run: Run) {
    && r in db.runs
    && after.runs == db.runs[r := run]
    && run.tenant == db.runs[r].tenant && run.job == db.runs[r].job && run.mode == db.runs[r].mode
    && RunShape(run)
    && (run.Active() && !db.runs[r].Active() ==> !db.HasActive(run.tenant))
    && (run.leaseOwner.Some? ==> run.leaseOwner == db.runs[r].leaseOwner || run.leaseOwner == Some(db.nextId))
    && (run.leaseOwner.Some? ==> run.leaseOwner.value < after.nextId)
    && db.nextId <= after.nextId
    && after.outbox == db.outbox && after.webhooks == db.webhooks && after.stores.Keys == db.stores.Keys
  }

  lemma RewriteKeepsOneActive(db: Database, after: Database, r: RunId, run: Run)
    requires OneActive(db.runs) && Rewrites(db, after, r, run)
    ensures OneActive(after.runs)
  {
    forall a, b | ActiveIn(after.runs, a) && ActiveIn(after.runs, b) && after.runs[a].tenant == after.runs[b].tenant
      ensures a == b
    {
      assert a != r ==> ActiveIn(db.runs, a);
      assert b != r ==> ActiveIn(db.runs, b);
      assert db.runs[r].Active() ==> ActiveIn(db.runs, r);
    }
  }

  lemma RewriteKeepsIssued(db: Database, after: Database, r: RunId, run: Run)
    requires AllIssued(db.runs, db.nextId, db.stores.Keys, db.webhooks) && Rewrites(db, after, r, run)
    ensures AllIssued(after.runs, after.nextId, after.stores.Keys, after.webhooks)
  {
    forall q | q in after.runs ensures Issued(after.runs[q], q, after.nextId, after.stores.Keys, after.webhooks) {
      assert Issued(db.runs[q], q, db.nextId, db.stores.Keys, db.webhooks);
    }
  }

  lemma RewriteKeepsUniqueJobs(db: Database, after: Database, r: RunId, run: Run)
    requires UniqueJobs(db.runs) && Rewrites(db, after, r, run)
    ensures UniqueJobs(after.runs)
  {
  }

  lemma RewriteKeepsRows(db: Database, after: Database, r: RunId, run: Run)
    requires Rows(db.runs, db.outbox) && RunShapes(db.runs) && Rewrites(db, after, r, run)
    ensures Rows(after.runs, after.outbox) && RunShapes(after.runs)
  {
    assert after.runs.Keys == db.runs.Keys;
  }

  lemma RewriteKeepsUniqueLeases(db: Database, after: Database, r: RunId, run: Run)
    requires UniqueLeases(db.runs) && AllIssued(db.runs, db.nextId, db.stores.Keys, db.webhooks)
    requires Rewrites(db, after, r, run)
    ensures UniqueLeases(after.runs)
  {
    assert forall q :: q in db.runs ==> Issued(db.runs[q], q, db.nextId, db.stores.Keys, db.webhooks);
  }

  lemma RewriteKeepsTabled(db: Database, after: Database, r: RunId, run: Run)
    requires Tabled(db) && Rewrites(db, after, r, run)
    ensures Tabled(after)
  {
    RewriteKeepsIssued(db, after, r, run);
    RewriteKeepsOneActive(db, after, r, run);
    RewriteKeepsUniqueLeases(db, after, r, run);
    RewriteKeepsUniqueJobs(db, after, r, run);
    RewriteKeepsRows(db, after, r, run);
  }

  // ---- StartSyncRun ------------------------------------------------------------------------

  lemma TakeLeaseKeepsTabled(db: Database, tenant: Tenant, run: RunId)
    requires Tabled(db)
    ensures Tabled(TakeLease(db, tenant, run).db)
  {
    var tx := TakeLease(db, tenant, run);
    if tx.result.Leased? {
      assert RunShape(db.runs[run]);
      RewriteKeepsTabled(db, tx.db, run, tx.db.runs[run]);
    }
  }

  lemma TakeLeaseKeepsOrdered(db: Database, tenant: Tenant, run: RunId)
    requires Ordered(db)
    ensures Ordered(TakeLease(db, tenant, run).db)
  {
    var tx := TakeLease(db, tenant, run);
    if tx.result.Leased? {
      assert tx.db.history.LeaseTick(run) == db.history.tick;
      assert forall r :: r in db.runs && LeaseStamped(db, r) ==> LeaseStamped(tx.db, r);
      assert forall c :: CommitStamped(db, c) ==> CommitStamped(tx.db, c);
    }
  }

  /** The new lease is younger than every accepted event, so the run pursues them all. */
  lemma TakeLeaseKeepsDebts(db: Database, tenant: Tenant, run: RunId)
    requires Debts(db) && Stamped(db)
    ensures Debts(TakeLease(db, tenant, run).db)
  {
    var tx := TakeLease(db, tenant, run);
    if tx.result.Leased? {
      assert tx.db.history.LeaseTick(run) == db.history.tick;
      forall e | e in db.history.accepted ensures Covered(tx.db.history.commits, e) || Owed(tx.db, e) {
        assert forall r :: Pursues(db, r, e) ==> Pursues(tx.db, r, e);
      }
      assert forall t, r :: Unfinished(db.runs, t, r) ==> Unfinished(tx.db.runs, t, r);
    }
  }

  // ---- HeartbeatSyncRun and FailSyncRun -----------------------------------------------------

  /** A live run keeps its lease stamp, or gives it up without completing. */
  ghost predicate Holds(db: Database, after: Database, r: RunId, run: Run) {
    && Rewrites(db, after, r, run)
    && db.runs[r].status == Running && (run.status == Running || run.status == Failed)
    && after.stores == db.stores && after.history == Tick(db.history)
  }

  lemma HoldKeepsOrdered(db: Database, after: Database, r: RunId, run: Run)
    requires Ordered(db) && Holds(db, after, r, run)
    ensures Ordered(after)
  {
    assert forall q :: q in db.runs && LeaseStamped(db, q) ==> LeaseStamped(after, q);
    assert forall c :: CommitStamped(db, c) ==> CommitStamped(after, c);
  }

  lemma HoldKeepsDebts(db: Database, after: Database, r: RunId, run: Run)
    requires Debts(db) && Holds(db, after, r, run)
    ensures Debts(after)
  {
    assert forall e, q :: Pursues(db, q, e) ==> Pursues(after, q, e);
    assert forall t, q :: Unfinished(db.runs, t, q) ==> Unfinished(after.runs, t, q);
  }

  lemma HoldKeepsSound(db: Database, after: Database, r: RunId, run: Run)
    requires Sound(db) && Holds(db, after, r, run)
    ensures Sound(after)
  {
    RewriteKeepsTabled(db, after, r, run);
    HoldKeepsOrdered(db, after, r, run);
    HoldKeepsDebts(db, after, r, run);
  }

  lemma HeartbeatKeepsSound(db: Database, tenant: Tenant, run: RunId, lease: LeaseId)
    requires Sound(db)
    ensures Sound(HeartbeatSyncRun(db, tenant, run, lease).db)
  {
    var tx := HeartbeatSyncRun(db, tenant, run, lease);
    if tx.result {
      assert RunShape(db.runs[run]) && Issued(db.runs[run], run, db.nextId, db.stores.Keys, db.webhooks);
      HoldKeepsSound(db, tx.db, run, tx.db.runs[run]);
    }
  }

  lemma FailKeepsSound(db: Database, tenant: Tenant, run: RunId, lease: LeaseId, code: string)
    requires Sound(db)
    ensures Sound(FailSyncRun(db, tenant, run, lease, code))
  {
    var after := FailSyncRun(db, tenant, run, lease, code);
    if db.Owns(tenant, run, lease) {
      assert RunShape(db.runs[run]);
      HoldKeepsSound(db, after, run, after.runs[run]);
    }
  }

  // ---- CreateSyncRun and StartSyncRun --------------------------------------------------------

  /** One more transaction, or only bookkeeping: runs and their outbox rows stay. */
  ghost predicate SameRuns(db: Database, after: Database) {
    && after.runs == db.runs && after.outbox == db.outbox && db.nextId <= after.nextId
    && db.webhooks <= after.webhooks && db.stores.Keys <= after.stores.Keys
    && (after.history == db.history || after.history == Tick(db.history))
  }

  lemma SameRunsKeepTabled(db: Database, after: Database)
    requires Tabled(db) && SameRuns(db, after)
    ensures Tabled(after)
  {
    forall r | r in after.runs ensures Issued(after.runs[r], r, after.nextId, after.stores.Keys, after.webhooks) {
      assert Issued(db.runs[r], r, db.nextId, db.stores.Keys, db.webhooks);
    }
  }

  lemma SameRunsKeepOrdered(db: Database, after: Database)
    requires Ordered(db) && SameRuns(db, after)
    ensures Ordered(after)
  {
    assert forall r :: r in db.runs && LeaseStamped(db, r) ==> LeaseStamped(after, r);
    assert forall c :: CommitStamped(db, c) ==> CommitStamped(after, c);
  }

  lemma SameRunsKeepOthersPaid(db: Database, after: Database, tenant: Tenant)
    requires OthersPaid(db, tenant) && SameRuns(db, after)
    requires forall t :: t != tenant ==> (Flagged(db.stores, t) <==> Flagged(after.stores, t))
    ensures OthersPaid(after, tenant)
  {
    assert forall e, r :: Pursues(db, r, e) ==> Pursues(after, r, e);
  }

  /** A follow-up flag that stays, or is raised over an unfinished run. */
  ghost predicate FlagsStand(db: Database, after: Database, tenant: Tenant) {
    && (forall t :: t != tenant ==> (Flagged(db.stores, t) <==> Flagged(after.stores, t)))
    && (Flagged(db.stores, tenant) ==> Flagged(after.stores, tenant))
    && (Flagged(after.stores, tenant) ==> Flagged(db.stores, tenant) || exists r :: Unfinished(db.runs, tenant, r))
  }

  lemma SameRunsKeepSound(db: Database, after: Database, tenant: Tenant)
    requires Sound(db) && SameRuns(db, after) && FlagsStand(db, after, tenant)
    ensures Sound(after)
  {
    SameRunsKeepTabled(db, after);
    SameRunsKeepOrdered(db, after);
    assert forall e, r :: Pursues(db, r, e) ==> Pursues(after, r, e);
  }

  lemma CreateKeepsSound(db: Database, tenant: Tenant, mode: string)
    requires Sound(db)
    ensures Sound(CreateSyncRun(db, tenant, mode).db)
  {
    var tx := CreateSyncRun(db, tenant, mode);
    if tx.result.Success? {
      assert !db.HasJob(GeneratedJob(db.nextId)) by {
        assert forall r :: r in db.runs ==> Issued(db.runs[r], r, db.nextId, db.stores.Keys, db.webhooks);
      }
      var created := InsertRun(db, tenant, GeneratedJob(db.nextId), ParseMode(mode).value);
      InsertKeepsSound(db, tenant, GeneratedJob(db.nextId), ParseMode(mode).value);
      SameRunsKeepSound(created, tx.db, tenant);
    }
  }

  lemma TakeLeaseKeepsSound(db: Database, tenant: Tenant, run: RunId)
    requires Sound(db)
    ensures Sound(TakeLease(db, tenant, run).db)
  {
    TakeLeaseKeepsTabled(db, tenant, run);
    TakeLeaseKeepsOrdered(db, tenant, run);
    TakeLeaseKeepsDebts(db, tenant, run);
  }

  // ---- ReplaceMirror -------------------------------------------------------------------------

  /** The run is completed and its mirror logged; the follow-up is still to come. */
  ghost function Committed(db: Database, run: RunId, counts: Counts): Database
    requires run in db.runs
  {
    var commit := Commit(db.runs[run].tenant, run, db.history.LeaseTick(run), db.history.tick);
    CompleteRun(db, run, counts).(history := Tick(db.history).(commits := db.history.commits + [commit]))
  }

  /** The flag lowered and a full run queued. */
  ghost function FollowUp(db: Database, tenant: Tenant): Database
    requires tenant in db.stores
  {
    var cleared := SetStore(db, tenant, db.stores[tenant].(resyncRequested := false));
    InsertRun(cleared, tenant, GeneratedJob(cleared.nextId), Full)
  }

  lemma CommittedIsTabled(db: Database, run: RunId, counts: Counts)
    requires Tabled(db) && run in db.runs && db.runs[run].status == Running
    ensures Tabled(Committed(db, run, counts))
    ensures !Committed(db, run, counts).HasActive(db.runs[run].tenant)
  {
    var after := Committed(db, run, counts);
    assert RunShape(db.runs[run]);
    RewriteKeepsTabled(db, after, run, after.runs[run]);
    forall r | r in after.runs && after.runs[r].tenant == db.runs[run].tenant ensures !after.runs[r].Active() {
      assert ActiveIn(db.runs, run);
      assert r != run && after.runs[r].Active() ==> ActiveIn(db.runs, r);
    }
  }

  lemma CommittedIsStamped(db: Database, run: RunId, counts: Counts)
    requires Stamped(db) && run in db.runs && db.runs[run].status == Running
    ensures Stamped(Committed(db, run, counts))
  {
    var after := Committed(db, run, counts);
    assert LeaseStamped(db, run);
    assert forall r :: r in db.runs && LeaseStamped(db, r) ==> LeaseStamped(after, r);
    forall i | 0 <= i < |after.history.commits| ensures CommitStamped(after, after.history.commits[i]) {
      assert i < |db.history.commits| ==> CommitStamped(db, db.history.commits[i]);
    }
  }

  /** The new interval starts after the last commit of its store, and no other lease of the store is live. */
  lemma CommittedIsSerial(db: Database, run: RunId, counts: Counts)
    requires Ordered(db) && OneActive(db.runs) && run in db.runs && db.runs[run].status == Running
    ensures LeasesAfterCommits(Committed(db, run, counts))
    ensures SerialCommits(Committed(db, run, counts).history.commits)
  {
    var after := Committed(db, run, counts);
    forall r, i | r in after.runs && 0 <= i < |after.history.commits| && after.runs[r].status == Running
      && after.history.commits[i].tenant == after.runs[r].tenant
      ensures after.history.commits[i].at < after.history.LeaseTick(r)
    {
      assert ActiveIn(db.runs, run) && ActiveIn(db.runs, r);
    }
    forall i | 0 <= i < |db.history.commits| ensures db.history.commits[i].run != run {
      assert CommitStamped(db, db.history.commits[i]);
    }
  }

  /** Events the completed run pursued are covered by its commit. */
  lemma CommittedCovers(db: Database, run: RunId, counts: Counts)
    requires Debts(db) && run in db.runs && db.runs[run].status == Running
    ensures EventsOwed(Committed(db, run, counts))
    ensures OthersPaid(Committed(db, run, counts), db.runs[run].tenant)
  {
    var after := Committed(db, run, counts);
    var n := |db.history.commits|;
    forall e | e in after.history.accepted ensures Covered(after.history.commits, e) || Owed(after, e) {
      if r :| Pursues(db, r, e) {
        if r == run {
          assert Covers(after.history.commits, n, e);
        } else {
          assert Pursues(after, r, e);
        }
      } else if i :| Covers(db.history.commits, i, e) {
        assert Covers(after.history.commits, i, e);
      }
    }
    assert forall t, r :: r != run && Unfinished(db.runs, t, r) ==> Unfinished(after.runs, t, r);
  }

  /** Lowering the flag and queueing the follow-up run. */
  lemma FollowUpKeepsSound(mid: Database, tenant: Tenant)
    requires Tabled(mid) && Ordered(mid) && OthersPaid(mid, tenant)
    requires mid.IsConnected(tenant) && !mid.HasActive(tenant)
    ensures Sound(FollowUp(mid, tenant))
  {
    var cleared := SetStore(mid, tenant, mid.stores[tenant].(resyncRequested := false));
    SameRunsKeepTabled(mid, cleared);
    SameRunsKeepOrdered(mid, cleared);
    SameRunsKeepOthersPaid(mid, cleared, tenant);
    assert !cleared.HasActive(tenant);
    assert !cleared.HasJob(GeneratedJob(cleared.nextId)) by {
      assert forall r :: r in cleared.runs
               ==> Issued(cleared.runs[r], r, cleared.nextId, cleared.stores.Keys, cleared.webhooks);
    }
    InsertKeepsSound(cleared, tenant, GeneratedJob(cleared.nextId), Full);
  }

  /** What a successful ReplaceMirror leaves: the committed run and, when the flag was up, its follow-up. */
  lemma CommitMirrorResult(db: Database, tenant: Tenant, run: RunId, lease: LeaseId, counts: Counts)
    requires Tabled(db)
    ensures var tx := CommitMirror(db, tenant, run, lease, counts);
            tx.result.Success? <==>
              && tenant in db.stores && db.Owns(tenant, run, lease)
              && (Flagged(db.stores, tenant) ==> db.IsConnected(tenant))
    ensures var tx := CommitMirror(db, tenant, run, lease, counts);
            tx.result.Failure? ==> tx.db == db
    ensures var tx := CommitMirror(db, tenant, run, lease, counts);
            tx.result.Success? ==>
              tx.db == if Flagged(db.stores, tenant) then FollowUp(Committed(db, run, counts), tenant)
                       else Committed(db, run, counts)
  {
    if tenant in db.stores && db.Owns(tenant, run, lease) {
      var completed := CompleteRun(db, run, counts);
      var cleared := completed.(stores := db.stores[tenant := db.stores[tenant].(resyncRequested := false)]);
      CommittedIsTabled(db, run, counts);
      assert !cleared.HasActive(tenant) by {
        assert cleared.runs == Committed(db, run, counts).runs;
      }
      assert !cleared.HasJob(GeneratedJob(cleared.nextId)) by {
        forall r | r in cleared.runs ensures cleared.runs[r].job != GeneratedJob(cleared.nextId) {
          assert Issued(db.runs[r], r, db.nextId, db.stores.Keys, db.webhooks);
        }
      }
    }
  }

  lemma CommittedIsOrdered(db: Database, run: RunId, counts: Counts)
    requires Ordered(db) && OneActive(db.runs) && run in db.runs && db.runs[run].status == Running
    ensures Ordered(Committed(db, run, counts))
  {
    CommittedIsStamped(db, run, counts);
    CommittedIsSerial(db, run, counts);
  }

  /** Without a flag only other stores can owe a run. */
  lemma UnflaggedIsPaid(db: Database, tenant: Tenant)
    requires EventsOwed(db) && OthersPaid(db, tenant) && !Flagged(db.stores, tenant)
    ensures Debts(db)
  {
  }

  lemma CommittedIsSound(db: Database, run: RunId, counts: Counts)
    requires Sound(db) && run in db.runs && db.runs[run].status == Running
    ensures !Flagged(db.stores, db.runs[run].tenant) ==> Sound(Committed(db, run, counts))
  {
    CommittedIsTabled(db, run, counts);
    CommittedIsOrdered(db, run, counts);
    CommittedCovers(db, run, counts);
    if !Flagged(db.stores, db.runs[run].tenant) {
      UnflaggedIsPaid(Committed(db, run, counts), db.runs[run].tenant);
    }
  }

  lemma FollowedUpIsSound(db: Database, run: RunId, counts: Counts)
    requires Sound(db) && run in db.runs && db.runs[run].status == Running && db.IsConnected(db.runs[run].tenant)
    ensures Sound(FollowUp(Committed(db, run, counts), db.runs[run].tenant))
  {
    CommittedIsTabled(db, run, counts);
    CommittedIsOrdered(db, run, counts);
    CommittedCovers(db, run, counts);
    FollowUpKeepsSound(Committed(db, run, counts), db.runs[run].tenant);
  }

  lemma CommitKeepsSound(db: Database, tenant: Tenant, run: RunId, lease: LeaseId, counts: Counts)
    requires Sound(db)
    ensures Sound(CommitMirror(db, tenant, run, lease, counts).db)
  {
    CommitMirrorResult(db, tenant, run, lease, counts);
    if CommitMirror(db, tenant, run, lease, counts).result.Success? {
      CommittedIsSound(db, run, counts);
      if db.IsConnected(tenant) {
        FollowedUpIsSound(db, run, counts);
      }
    }
  }

  // ---- RecordShopifyEventAndOutbox -------------------------------------------------------------

  ghost function Accept(db: Database, e: Event): Database {
    db.(history := db.history.(accepted := db.history.accepted + {e}))
  }

  lemma AcceptKeepsOrdered(db: Database, e: Event)
    requires Ordered(db) && e.at < db.history.tick
    ensures Ordered(Accept(db, e))
  {
    assert forall r :: r in db.runs && LeaseStamped(db, r) ==> LeaseStamped(Accept(db, e), r);
    assert forall c :: CommitStamped(db, c) ==> CommitStamped(Accept(db, e), c);
  }

  lemma AcceptKeepsDebts(db: Database, e: Event)
    requires Debts(db) && Owed(db, e)
    ensures Debts(Accept(db, e))
  {
    assert forall x, r :: Pursues(db, r, x) ==> Pursues(Accept(db, e), r, x);
  }

  lemma AcceptKeepsSound(db: Database, e: Event)
    requires Sound(db) && e.at < db.history.tick && Owed(db, e)
    ensures Sound(Accept(db, e))
  {
    AcceptKeepsOrdered(db, e);
    AcceptKeepsDebts(db, e);
  }

  /** A webhook id that was never recorded names no job yet. */
  lemma NewWebhookIsNoJob(db: Database, webhook: string)
    requires Tabled(db) && webhook !in db.webhooks
    ensures !db.HasJob(WebhookJob(webhook))
  {
    assert forall r :: r in db.runs ==> Issued(db.runs[r], r, db.nextId, db.stores.Keys, db.webhooks);
  }

  /** The event row is written; nothing has been scheduled yet. */
  ghost function Recorded(db: Database, webhook: string): Database {
    db.(webhooks := db.webhooks + {webhook}, history := Tick(db.history))
  }

  /** A change event meets a live run: the flag goes up. */
  lemma RecordWhileActive(db: Database, tenant: Tenant, webhook: string)
    requires Sound(db) && db.IsConnected(tenant) && db.HasActive(tenant)
    ensures var raised := SetStore(Recorded(db, webhook), tenant, db.stores[tenant].(resyncRequested := true));
            Sound(Accept(raised, Event(tenant, db.history.tick)))
  {
    RaisingKeepsSound(db, tenant, webhook);
    var raised := SetStore(Recorded(db, webhook), tenant, db.stores[tenant].(resyncRequested := true));
    AcceptKeepsSound(raised, Event(tenant, db.history.tick));
  }

  lemma RaisingStands(db: Database, tenant: Tenant, webhook: string)
    requires db.IsConnected(tenant) && db.HasActive(tenant)
    ensures var raised := SetStore(Recorded(db, webhook), tenant, db.stores[tenant].(resyncRequested := true));
            SameRuns(db, raised) && FlagsStand(db, raised, tenant) && Flagged(raised.stores, tenant)
  {
    var r :| r in db.runs && db.runs[r].tenant == tenant && db.runs[r].Active();
    assert Unfinished(db.runs, tenant, r);
  }

  lemma RaisingKeepsSound(db: Database, tenant: Tenant, webhook: string)
    requires Sound(db) && db.IsConnected(tenant) && db.HasActive(tenant)
    ensures var raised := SetStore(Recorded(db, webhook), tenant, db.stores[tenant].(resyncRequested := true));
            Sound(raised) && Owed(raised, Event(tenant, db.history.tick))
  {
    RaisingStands(db, tenant, webhook);
    var raised := SetStore(Recorded(db, webhook), tenant, db.stores[tenant].(resyncRequested := true));
    SameRunsKeepSound(db, raised, tenant);
  }

  /** A change event meets no live run: a run is queued for it. */
  lemma RecordWhileIdle(db: Database, tenant: Tenant, webhook: string)
    requires Sound(db) && db.IsConnected(tenant) && !db.HasActive(tenant) && webhook !in db.webhooks
    ensures var cleared := SetStore(Recorded(db, webhook), tenant, db.stores[tenant].(resyncRequested := false));
            && !cleared.HasActive(tenant) && !cleared.HasJob(WebhookJob(webhook))
            && Sound(Accept(InsertRun(cleared, tenant, WebhookJob(webhook), Full), Event(tenant, db.history.tick)))
  {
    var cleared := SetStore(Recorded(db, webhook), tenant, db.stores[tenant].(resyncRequested := false));
    NewWebhookIsNoJob(db, webhook);
    assert !cleared.HasActive(tenant) && !cleared.HasJob(WebhookJob(webhook));
    SameRunsKeepTabled(db, cleared);
    SameRunsKeepOrdered(db, cleared);
    SameRunsKeepOthersPaid(db, cleared, tenant);
    InsertKeepsSound(cleared, tenant, WebhookJob(webhook), Full);
    AcceptKeepsSound(InsertRun(cleared, tenant, WebhookJob(webhook), Full), Event(tenant, db.history.tick));
  }

  lemma RecordKeepsSound(db: Database, tenant: Tenant, webhook: string, topic: string)
    requires Sound(db)
    ensures Sound(RecordEvent(db, tenant, webhook, topic).db)
  {
    var tx := RecordEvent(db, tenant, webhook, topic);
    if webhook !in db.webhooks && tenant in db.stores {
      if topic != "app/uninstalled" && TopicTriggersMirror(topic) && db.IsConnected(tenant) {
        var e := Event(tenant, db.history.tick);
        if db.HasActive(tenant) {
          RecordWhileActive(db, tenant, webhook);
          assert Recorded(db, webhook).HasActive(tenant);
        } else {
          RecordWhileIdle(db, tenant, webhook);
          assert !Recorded(db, webhook).HasActive(tenant);
        }
      } else {
        assert tx.db.history.accepted == db.history.accepted;
        SameRunsKeepSound(db, tx.db, tenant);
      }
    }
  }

  // ---- The other transactions, and every run of transactions ------------------------------------

  lemma PutStatusKeepsSound(db: Database, tenant: Tenant, status: StoreStatus)
    requires Sound(db)
    ensures Sound(PutStoreStatus(db, tenant, status))
  {
    SameRunsKeepSound(db, PutStoreStatus(db, tenant, status), tenant);
  }

  /** Outbox, job and clock bookkeeping reads and writes none of the invariants. */
  ghost predicate Bookkeeping(db: Database, after: Database) {
    && after.runs == db.runs && after.nextId == db.nextId && after.webhooks == db.webhooks
    && after.stores == db.stores && after.history == db.history
    && after.outbox.Keys == db.outbox.Keys
    && forall r :: r in db.outbox ==> after.outbox[r].envelope == db.outbox[r].envelope
  }

  lemma BookkeepingKeepsOrdered(db: Database, after: Database)
    requires Ordered(db) && Bookkeeping(db, after)
    ensures Ordered(after)
  {
    assert forall r :: r in db.runs && LeaseStamped(db, r) ==> LeaseStamped(after, r);
    assert forall c :: CommitStamped(db, c) ==> CommitStamped(after, c);
  }

  lemma BookkeepingKeepsDebts(db: Database, after: Database)
    requires Debts(db) && Bookkeeping(db, after)
    ensures Debts(after)
  {
    assert forall e, r :: Pursues(db, r, e) ==> Pursues(after, r, e);
  }

  lemma BookkeepingKeepsSound(db: Database, after: Database)
    requires Sound(db) && Bookkeeping(db, after)
    ensures Sound(after)
  {
    BookkeepingKeepsOrdered(db, after);
    BookkeepingKeepsDebts(db, after);
  }

  predicate IsBookkeeping(t: Transaction) {
    t.DoClaim? || t.DoComplete? || t.DoRetry? || t.DoMark? || t.DoWait?
  }

  lemma ApplyIsBookkeeping(db: Database, t: Transaction)
    requires IsBookkeeping(t)
    ensures Bookkeeping(db, Apply(db, t))
  {
  }

  lemma ApplyToRunKeepsSound(db: Database, t: Transaction)
    requires Sound(db)
    requires t.DoCreate? || t.DoTakeLease? || t.DoHeartbeat? || t.DoFail?
    ensures Sound(Apply(db, t))
  {
    match t
    case DoCreate(tenant, mode) => CreateKeepsSound(db, tenant, mode);
    case DoTakeLease(tenant, run) => TakeLeaseKeepsSound(db, tenant, run);
    case DoHeartbeat(tenant, run, lease) => HeartbeatKeepsSound(db, tenant, run, lease);
    case DoFail(tenant, run, lease, code) => FailKeepsSound(db, tenant, run, lease, code);
  }

  lemma ApplyKeepsSound(db: Database, t: Transaction)
    requires Sound(db)
    ensures Sound(Apply(db, t))
  {
    if IsBookkeeping(t) {
      ApplyIsBookkeeping(db, t);
      BookkeepingKeepsSound(db, Apply(db, t));
    } else {
      match t
      case DoCommit(tenant, run, lease, counts) => CommitKeepsSound(db, tenant, run, lease, counts);
      case DoRecord(tenant, webhook, topic) => RecordKeepsSound(db, tenant, webhook, topic);
      case DoPutStatus(tenant, status) => PutStatusKeepsSound(db, tenant, status);
      case _ => ApplyToRunKeepsSound(db, t);
    }
  }

  lemma InitialIsSound(db: Database)
    requires Initial(db)
    ensures Sound(db)
  {
  }

  /** The invariants hold after every sequence of transactions. */
  lemma {:induction false} EveryRunIsSound(db: Database, ts: seq<Transaction>)
    requires Sound(db)
    ensures Sound(ApplyAll(db, ts))
    decreases |ts|
  {
    if ts != [] {
      ApplyKeepsSound(db, ts[0]);
      EveryRunIsSound(Apply(db, ts[0]), ts[1..]);
    }
  }
}
