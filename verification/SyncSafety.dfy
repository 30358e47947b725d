/**
 What the runtime is for, over every execution: mirrors are stored in the order they
 were read, no accepted change is forgotten, no run is orphaned, no job is closed
 early, and a worker that lost its lease is harmless.
 */
module SyncSafety {
  import opened Common
  import opened SyncDatabase
  import opened SyncInvariants
  import opened Queue
  import opened SyncProtocol
  import opened SyncProtocolInvariants

  ghost predicate Reachable(s: System) {
    exists start, actions :: Reaches(start, actions, s)
  }

  ghost predicate Reaches(start: System, actions: seq<Action>, s: System) {
    InitialSystem(start) && Execute(start, actions) == s
  }

  lemma ReachableHolds(s: System)
    requires Reachable(s)
    ensures Inv(s)
  {
    var start, actions :| Reaches(start, actions, s);
    InitialHolds(start);
    EveryExecutionKeepsInv(start, actions);
  }

  // ---- Main results --------------------------------------------------------------------------

  /** A copy of the run's envelope is in the main, retry or dead queue, or unacknowledged at a consumer. */
  ghost predicate HasCopy(q: Queues, r: RunId) {
    InQueues(q, r) || exists w :: w in q.unacked && q.unacked[w].envelope.run == r
  }

  lemma NoOrphanRun(s: System, r: RunId)
    requires Reachable(s) && r in s.db.runs
    ensures r in s.db.outbox
    ensures s.db.runs[r].status == Completed || s.db.outbox[r].status != RowPublished || HasCopy(s.queues, r)
  {
    ReachableHolds(s);
    if s.db.outbox[r].status == RowPublished && s.db.runs[r].status != Completed {
      assert Live(s, r);
      if w :| HeldBy(s, w, r) {
        assert HasCopy(s.queues, r);
      }
    }
  }

  /** The intervals from lease to commit of one store's mirrors are disjoint, and no run commits twice. */
  lemma MirrorCommitsAreSerial(s: System, i: nat, j: nat)
    requires Reachable(s) && i < j < |s.db.history.commits|
    ensures var c, d := s.db.history.commits[i], s.db.history.commits[j];
            && c.run != d.run
            && c.leaseTaken < c.at && d.leaseTaken < d.at
            && (c.tenant == d.tenant ==> c.at < d.leaseTaken)
  {
    ReachableHolds(s);
    assert CommitStamped(s.db, s.db.history.commits[i]) && CommitStamped(s.db, s.db.history.commits[j]);
  }

  /**
   An accepted change event is covered by a mirror read after it, or the store still owes a
   mirror: an unfinished run whose job is waiting somewhere.
   */
  lemma NoEventForgotten(s: System, e: Event)
    requires Reachable(s) && e in s.db.history.accepted
    ensures Covered(s.db.history.commits, e)
         || exists r :: Unfinished(s.db.runs, e.tenant, r)
                        && r in s.db.outbox && (s.db.outbox[r].status != RowPublished || HasCopy(s.queues, r))
  {
    ReachableHolds(s);
    if !Covered(s.db.history.commits, e) {
      var r: RunId;
      if Flagged(s.db.stores, e.tenant) {
        r :| Unfinished(s.db.runs, e.tenant, r);
      } else {
        r :| Pursues(s.db, r, e);
      }
      NoOrphanRun(s, r);
    }
  }

  /** With the flag down, the run that owes the mirror reads the store after the event. */
  lemma UnflaggedEventsArePursued(s: System, e: Event)
    requires Reachable(s) && e in s.db.history.accepted && !Flagged(s.db.stores, e.tenant)
    ensures Covered(s.db.history.commits, e) || exists r :: Pursues(s.db, r, e)
  {
    ReachableHolds(s);
  }

  /** The job id of a closed job belongs to exactly one run, and that run is completed. */
  lemma ProcessedMeansCompleted(s: System, job: JobId)
    requires Reachable(s) && job in s.db.processed
    ensures exists r :: FinishedJob(s.db.runs, r, job)
    ensures forall r :: r in s.db.runs && s.db.runs[r].job == job ==> s.db.runs[r].status == Completed
  {
    ReachableHolds(s);
    var r :| FinishedJob(s.db.runs, r, job);
    assert forall q :: q in s.db.runs && s.db.runs[q].job == job ==> q == r;
  }

  /** A handler that answered nil has a completed run, whatever the other workers did meanwhile. */
  lemma NilMeansCompleted(s: System, w: ConsumerId)
    requires Reachable(s) && s.Of(w).Marking?
    ensures Finished(s.db.runs, s.Of(w).raw.envelope.run)
  {
    ReachableHolds(s);
    assert PhaseFits(s.db.runs, s.maxAttempts, s.queues, w, s.Of(w));
  }

  /** A published row was published with a confirmation, and is never published again. */
  lemma PublishedMeansConfirmed(s: System, r: RunId)
    requires Reachable(s) && r in s.db.outbox && s.db.outbox[r].status == RowPublished
    ensures r in s.confirmed
  {
    ReachableHolds(s);
  }

  ghost predicate KeepsPublished(before: map<RunId, OutboxRow>, after: map<RunId, OutboxRow>) {
    forall r :: r in before && before[r].status == RowPublished ==> r in after && after[r].status == RowPublished
  }

  lemma InsertingKeepsPublished(db: Database, t: Transaction)
    requires db.nextId !in db.outbox && (t.DoRecord? || t.DoCreate?)
    ensures KeepsPublished(db.outbox, Apply(db, t).outbox)
  {
  }

  lemma OtherKeepsPublished(db: Database, t: Transaction)
    requires !t.DoRecord? && !t.DoCreate? && !t.DoCommit?
    ensures KeepsPublished(db.outbox, Apply(db, t).outbox)
  {
  }

  /** `published` is absorbing. */
  lemma PublishedStays(db: Database, t: Transaction)
    requires Tabled(db)
    ensures KeepsPublished(db.outbox, Apply(db, t).outbox)
  {
    NextIdIsFresh(db);
    match t
    case DoCommit(tenant, run, lease, counts) => CommitMirrorResult(db, tenant, run, lease, counts);
    case DoRecord(_, _, _) => InsertingKeepsPublished(db, t);
    case DoCreate(_, _) => InsertingKeepsPublished(db, t);
    case _ => OtherKeepsPublished(db, t);
  }

  /** No message ever carries an attempt above the maximum. */
  lemma AttemptsStayBounded(s: System, m: Message)
    requires Reachable(s) && Waits(s.queues, m)
    ensures 1 <= HeaderAttempt(m.headers) <= s.maxAttempts
    ensures m.envelope.run in s.db.runs && m.envelope.job == s.db.runs[m.envelope.run].job
  {
    ReachableHolds(s);
    assert GoodMessage(s.db.runs, s.maxAttempts, m);
  }

  /** At most one live run per store, a lease exactly while running. */
  lemma OneLiveRunPerStore(s: System, a: RunId, b: RunId)
    requires Reachable(s) && a in s.db.runs && b in s.db.runs && s.db.runs[a].tenant == s.db.runs[b].tenant
    ensures s.db.runs[a].Active() && s.db.runs[b].Active() ==> a == b
    ensures s.db.runs[a].leaseOwner.Some? <==> s.db.runs[a].status == Running
  {
    ReachableHolds(s);
    assert ActiveIn(s.db.runs, a) <==> s.db.runs[a].Active();
    assert ActiveIn(s.db.runs, b) <==> s.db.runs[b].Active();
    assert RunShape(s.db.runs[a]);
  }

  // ---- Fencing ---------------------------------------------------------------------------------

  ghost predicate Superseded(db: Database, lease: LeaseId) {
    lease < db.nextId && forall r :: r in db.runs ==> db.runs[r].leaseOwner != Some(lease)
  }

  lemma SupersededByCommit(db: Database, t: Transaction, lease: LeaseId)
    requires Tabled(db) && t.DoCommit? && Superseded(db, lease)
    ensures Superseded(Apply(db, t), lease)
  {
    CommitMirrorResult(db, t.tenant, t.run, t.lease, t.counts);
  }

  lemma SupersededByRecord(db: Database, t: Transaction, lease: LeaseId)
    requires t.DoRecord? && Superseded(db, lease)
    ensures Superseded(Apply(db, t), lease)
  {
  }

  lemma SupersededByOther(db: Database, t: Transaction, lease: LeaseId)
    requires !t.DoCommit? && !t.DoRecord? && Superseded(db, lease)
    ensures Superseded(Apply(db, t), lease)
  {
  }

  lemma SupersededByApply(db: Database, t: Transaction, lease: LeaseId)
    requires Tabled(db) && Superseded(db, lease)
    ensures Superseded(Apply(db, t), lease)
  {
    match t
    case DoCommit(_, _, _, _) => SupersededByCommit(db, t, lease);
    case DoRecord(_, _, _) => SupersededByRecord(db, t, lease);
    case _ => SupersededByOther(db, t, lease);
  }

  /** A lease that no run shows any more is never granted again. */
  lemma {:induction false} LostLeaseStaysLost(db: Database, ts: seq<Transaction>, lease: LeaseId)
    requires Sound(db) && Superseded(db, lease)
    ensures Superseded(ApplyAll(db, ts), lease)
    decreases |ts|
  {
    if ts != [] {
      ApplyKeepsSound(db, ts[0]);
      SupersededByApply(db, ts[0], lease);
      LostLeaseStaysLost(Apply(db, ts[0]), ts[1..], lease);
    }
  }

  /** After any transactions of anybody, a superseded lease renews, fails and commits nothing. */
  lemma SupersededLeaseIsHarmless(
    db: Database, ts: seq<Transaction>, tenant: Tenant, run: RunId, lease: LeaseId, counts: Counts, code: string)
    requires Sound(db) && Superseded(db, lease)
    ensures var later := ApplyAll(db, ts);
            && CommitMirror(later, tenant, run, lease, counts).db == later
            && CommitMirror(later, tenant, run, lease, counts).result.Failure?
            && FailSyncRun(later, tenant, run, lease, code) == later
            && HeartbeatSyncRun(later, tenant, run, lease) == Tx(later, false)
  {
    LostLeaseStaysLost(db, ts, lease);
  }

  /** A takeover supersedes the lease it replaces, at once. */
  lemma TakeoverSupersedes(db: Database, tenant: Tenant, run: RunId, lease: LeaseId)
    requires Sound(db) && db.Owns(tenant, run, lease) && TakeLease(db, tenant, run).result.Leased?
    ensures Superseded(TakeLease(db, tenant, run).db, lease)
    ensures db.runs[run].leaseExpiresAt.Some? && db.runs[run].leaseExpiresAt.value < db.now
  {
    assert Issued(db.runs[run], run, db.nextId, db.stores.Keys, db.webhooks);
    assert RunShape(db.runs[run]);
  }

  lemma {:induction false} CompletedStays(db: Database, ts: seq<Transaction>, r: RunId)
    requires Sound(db) && Finished(db.runs, r)
    ensures Finished(ApplyAll(db, ts).runs, r)
    decreases |ts|
  {
    if ts != [] {
      ApplyKeepsSound(db, ts[0]);
      ApplyGrows(db, ts[0]);
      FinishedPersists(db.runs, Apply(db, ts[0]).runs, r);
      CompletedStays(Apply(db, ts[0]), ts[1..], r);
    }
  }

  /** The lease's own worker is the only one that can end it before it expires. */
  ghost predicate Presents(t: Transaction, lease: LeaseId) {
    (t.DoFail? || t.DoCommit?) && t.lease == lease
  }

  ghost predicate HoldsUntil(db: Database, tenant: Tenant, run: RunId, lease: LeaseId, until: nat) {
    db.Owns(tenant, run, lease) && db.runs[run].leaseExpiresAt.Some? && until <= db.runs[run].leaseExpiresAt.value
  }

  lemma CommitKeepsOtherLeases(db: Database, t: Transaction, tenant: Tenant, run: RunId, lease: LeaseId, until: nat)
    requires Tabled(db) && t.DoCommit? && HoldsUntil(db, tenant, run, lease, until) && !Presents(t, lease)
    ensures HoldsUntil(Apply(db, t), tenant, run, lease, until)
  {
    CommitMirrorResult(db, t.tenant, t.run, t.lease, t.counts);
    NextIdIsFresh(db);
  }

  lemma RecordKeepsLeases(db: Database, t: Transaction, tenant: Tenant, run: RunId, lease: LeaseId, until: nat)
    requires db.nextId !in db.runs && t.DoRecord? && HoldsUntil(db, tenant, run, lease, until)
    ensures HoldsUntil(Apply(db, t), tenant, run, lease, until)
  {
  }

  lemma UpdateKeepsLease(db: Database, t: Transaction, tenant: Tenant, run: RunId, lease: LeaseId, until: nat)
    requires t.DoTakeLease? || t.DoHeartbeat? || t.DoFail?
    requires HoldsUntil(db, tenant, run, lease, until) && !Presents(t, lease)
    requires db.now <= until && until <= db.now + LEASE_SECONDS
    ensures HoldsUntil(Apply(db, t), tenant, run, lease, until)
  {
  }

  lemma OtherKeepsLease(db: Database, t: Transaction, tenant: Tenant, run: RunId, lease: LeaseId, until: nat)
    requires t.DoCreate? || t.DoPutStatus? || IsBookkeeping(t)
    requires db.nextId !in db.runs && HoldsUntil(db, tenant, run, lease, until)
    ensures HoldsUntil(Apply(db, t), tenant, run, lease, until)
  {
  }

  lemma ApplyKeepsLease(db: Database, t: Transaction, tenant: Tenant, run: RunId, lease: LeaseId, until: nat)
    requires Tabled(db) && HoldsUntil(db, tenant, run, lease, until) && !Presents(t, lease)
    requires db.now <= until && until <= db.now + LEASE_SECONDS
    ensures HoldsUntil(Apply(db, t), tenant, run, lease, until)
  {
    NextIdIsFresh(db);
    if t.DoCommit? {
      CommitKeepsOtherLeases(db, t, tenant, run, lease, until);
    } else if t.DoRecord? {
      RecordKeepsLeases(db, t, tenant, run, lease, until);
    } else if t.DoTakeLease? || t.DoHeartbeat? || t.DoFail? {
      UpdateKeepsLease(db, t, tenant, run, lease, until);
    } else {
      OtherKeepsLease(db, t, tenant, run, lease, until);
    }
  }

  lemma {:induction false} ClockNeverTurnsBack(db: Database, ts: seq<Transaction>)
    requires Sound(db)
    ensures db.now <= ApplyAll(db, ts).now
    decreases |ts|
  {
    if ts != [] {
      ApplyKeepsSound(db, ts[0]);
      ClockNeverTurnsBackOnce(db, ts[0]);
      ClockNeverTurnsBack(Apply(db, ts[0]), ts[1..]);
    }
  }

  lemma ClockNeverTurnsBackOnce(db: Database, t: Transaction)
    requires Tabled(db)
    ensures db.now <= Apply(db, t).now
  {
    if t.DoCommit? {
      CommitMirrorResult(db, t.tenant, t.run, t.lease, t.counts);
    }
  }

  ghost predicate NonePresents(ts: seq<Transaction>, lease: LeaseId) {
    forall i :: 0 <= i < |ts| ==> !Presents(ts[i], lease)
  }

  /** The first of some transactions of others that end before the lease expires. */
  lemma LeaseOutlives(db: Database, ts: seq<Transaction>, tenant: Tenant, run: RunId, lease: LeaseId, until: nat)
    requires Sound(db) && HoldsUntil(db, tenant, run, lease, until) && until <= db.now + LEASE_SECONDS
    requires ts != [] && !Presents(ts[0], lease) && ApplyAll(db, ts).now <= until
    ensures var next := Apply(db, ts[0]);
            Sound(next) && HoldsUntil(next, tenant, run, lease, until) && until <= next.now + LEASE_SECONDS
  {
    ApplyKeepsSound(db, ts[0]);
    ClockNeverTurnsBackOnce(db, ts[0]);
    ClockNeverTurnsBack(Apply(db, ts[0]), ts[1..]);
    ApplyKeepsLease(db, ts[0], tenant, run, lease, until);
  }

  /** A lease that has not expired survives every transaction that does not present it. */
  lemma {:induction false} UnexpiredLeaseIsExclusive(
    db: Database, ts: seq<Transaction>, tenant: Tenant, run: RunId, lease: LeaseId, until: nat)
    requires Sound(db) && HoldsUntil(db, tenant, run, lease, until) && until <= db.now + LEASE_SECONDS
    requires NonePresents(ts, lease) && ApplyAll(db, ts).now <= until
    ensures HoldsUntil(ApplyAll(db, ts), tenant, run, lease, until)
    decreases |ts|
  {
    if ts != [] {
      LeaseOutlives(db, ts, tenant, run, lease, until);
      UnexpiredLeaseIsExclusive(Apply(db, ts[0]), ts[1..], tenant, run, lease, until);
    }
  }

  // ---- When ReplaceMirror commits, and where a rejected start ends -------------------------------

  /** Only ownership counts: an expired lease that nobody took over still commits. */
  lemma CommitNeedsOwnershipOnly(db: Database, tenant: Tenant, run: RunId, lease: LeaseId, counts: Counts)
    requires Sound(db) && tenant in db.stores
    ensures CommitMirror(db, tenant, run, lease, counts).result.Success? <==>
              && db.Owns(tenant, run, lease)
              && (db.stores[tenant].resyncRequested ==> db.stores[tenant].status == Connected)
    ensures CommitMirror(db, tenant, run, lease, counts).result.Failure? ==>
              CommitMirror(db, tenant, run, lease, counts).db == db
  {
    CommitMirrorResult(db, tenant, run, lease, counts);
  }

  /** A start that met a live lease is buried on its first attempt exactly when that lease ended before the SELECT. */
  lemma RejectedStartIsBuried(s: System, w: ConsumerId)
    requires Reachable(s) && s.Of(w).Rejected?
    ensures s.Of(w).raw.envelope.run in s.db.runs
    ensures var next := StepReadStatus(s, w, s.Of(w).raw).Of(w);
            var status := s.db.runs[s.Of(w).raw.envelope.run].status;
            && status != Queued
            && (status == Failed <==>
                  next.HandingOff? && HandOffTarget(next.raw, next.cause, s.maxAttempts) == DeadQueue)
            && (status == Running <==>
                  next.HandingOff? && HandOffTarget(next.raw, next.cause, s.maxAttempts) == RetryQueue)
            && (status == Completed <==> next.Marking?)
  {
    ReachableHolds(s);
    assert PhaseFits(s.db.runs, s.maxAttempts, s.queues, w, s.Of(w));
  }

  // ---- The outbox's delay --------------------------------------------------------------------------

  lemma {:induction false} ShiftIsMonotone(a: nat, b: nat)
    requires a <= b
    ensures Shift(1, a) <= Shift(1, b)
  {
    if a < b {
      ShiftIsMonotone(a, b - 1);
    }
  }

  /** The cap on the shift never shows: the delay is min(2^(n-1), 300) seconds for every n. */
  lemma BackoffIsCappedDoubling(n: nat)
    requires n >= 1
    ensures OutboxBackoff(n) == if Shift(1, n - 1) > 300 then 300 else Shift(1, n - 1)
  {
    if n - 1 >= 9 {
      assert Shift(1, 9) == 512;
      ShiftIsMonotone(9, n - 1);
    }
  }
}
