/**
 What every action of the protocol keeps, beyond the database invariants: messages
 name real runs, a job is marked or acknowledged only when that is harmless, and no
 unfinished run loses its last message.
 */
module SyncProtocolInvariants {
  import opened Common
  import opened SyncDatabase
  import opened SyncInvariants
  import opened Queue
  import opened SyncProtocol

  // ---- What a transaction may do to the runs -----------------------------------------------

  ghost predicate Finished(runs: map<RunId, Run>, r: RunId) {
    r in runs && runs[r].status == Completed
  }

  ghost predicate Begun(runs: map<RunId, Run>, r: RunId) {
    r in runs && runs[r].status != Queued
  }

  /** A run is never removed or renamed, never leaves `completed` and never goes back to `queued`. */
  ghost predicate Persists(before: map<RunId, Run>, after: map<RunId, Run>, r: RunId) {
    r in before ==>
      && r in after
      && EnvelopeOf(after[r], r) == EnvelopeOf(before[r], r)
      && (before[r].status == Completed ==> after[r].status == Completed)
      && (before[r].status != Queued ==> after[r].status != Queued)
  }

  ghost predicate Grows(before: map<RunId, Run>, after: map<RunId, Run>) {
    forall r :: Persists(before, after, r)
  }

  lemma InsertGrows(db: Database, tenant: Tenant, job: JobId, mode: SyncMode)
    requires db.nextId !in db.runs
    ensures Grows(db.runs, InsertRun(db, tenant, job, mode).runs)
  {
  }

  lemma NextIdIsFresh(db: Database)
    requires Tabled(db)
    ensures db.nextId !in db.runs
  {
    assert db.nextId in db.runs ==> Issued(db.runs[db.nextId], db.nextId, db.nextId, db.stores.Keys, db.webhooks);
  }

  lemma CompletionGrows(db: Database, run: RunId, counts: Counts)
    requires run in db.runs
    ensures Grows(db.runs, Committed(db, run, counts).runs) && Finished(Committed(db, run, counts).runs, run)
  {
  }

  lemma FollowUpGrows(db: Database, tenant: Tenant, run: RunId)
    requires tenant in db.stores && db.nextId !in db.runs && Finished(db.runs, run)
    ensures Grows(db.runs, FollowUp(db, tenant).runs) && Finished(FollowUp(db, tenant).runs, run)
  {
  }

  lemma GrowsOn(a: map<RunId, Run>, b: map<RunId, Run>, c: map<RunId, Run>)
    requires Grows(a, b) && Grows(b, c)
    ensures Grows(a, c)
  {
    forall r ensures Persists(a, c, r) {
      assert Persists(a, b, r) && Persists(b, c, r);
    }
  }

  lemma CommitGrows(db: Database, tenant: Tenant, run: RunId, lease: LeaseId, counts: Counts)
    requires Tabled(db)
    ensures Grows(db.runs, CommitMirror(db, tenant, run, lease, counts).db.runs)
    ensures CommitMirror(db, tenant, run, lease, counts).result.Success? ==>
              Finished(CommitMirror(db, tenant, run, lease, counts).db.runs, run)
  {
    CommitMirrorResult(db, tenant, run, lease, counts);
    if CommitMirror(db, tenant, run, lease, counts).result.Success? {
      var committed := Committed(db, run, counts);
      CompletionGrows(db, run, counts);
      NextIdIsFresh(db);
      FollowUpGrows(committed, tenant, run);
      GrowsOn(db.runs, committed.runs, FollowUp(committed, tenant).runs);
    }
  }

  lemma RecordGrows(db: Database, tenant: Tenant, webhook: string, topic: string)
    requires db.nextId !in db.runs
    ensures Grows(db.runs, RecordEvent(db, tenant, webhook, topic).db.runs)
  {
    if webhook !in db.webhooks && tenant in db.stores && topic != "app/uninstalled" && TopicTriggersMirror(topic) {
      var recorded := Recorded(db, webhook);
      var cleared := SetStore(recorded, tenant, recorded.stores[tenant].(resyncRequested := false));
      InsertGrows(cleared, tenant, WebhookJob(webhook), Full);
    }
  }

  lemma RewriteGrows(db: Database, t: Transaction)
    requires t.DoTakeLease? || t.DoHeartbeat? || t.DoFail? || t.DoPutStatus?
    ensures Grows(db.runs, Apply(db, t).runs)
  {
  }

  lemma ApplyGrows(db: Database, t: Transaction)
    requires Tabled(db)
    ensures Grows(db.runs, Apply(db, t).runs)
  {
    NextIdIsFresh(db);
    if IsBookkeeping(t) {
      ApplyIsBookkeeping(db, t);
    } else {
      match t
      case DoCreate(tenant, mode) =>
        if ParseMode(mode).Some? {
          InsertGrows(db, tenant, GeneratedJob(db.nextId), ParseMode(mode).value);
        }
      case DoCommit(tenant, run, lease, counts) => CommitGrows(db, tenant, run, lease, counts);
      case DoRecord(tenant, webhook, topic) => RecordGrows(db, tenant, webhook, topic);
      case _ => RewriteGrows(db, t);
    }
  }

  // ---- The invariants --------------------------------------------------------------------------

  ghost predicate Known(runs: map<RunId, Run>, e: Envelope) {
    e.run in runs && e == EnvelopeOf(runs[e.run], e.run)
  }

  /** The message names a run that exists and carries an attempt between one and the maximum. */
  ghost predicate GoodMessage(runs: map<RunId, Run>, maxAttempts: nat, m: Message) {
    && Known(runs, m.envelope)
    && m.headers.attempt.Some? && m.headers.attempt.value.Int32?
    && 1 <= m.headers.attempt.value.number <= maxAttempts
  }

  ghost predicate Waits(q: Queues, m: Message) {
    m in q.main || m in q.retry || m in q.dead
  }

  ghost predicate QueuesGood(runs: map<RunId, Run>, maxAttempts: nat, q: Queues) {
    && (forall m :: Waits(q, m) ==> GoodMessage(runs, maxAttempts, m))
    && (forall w :: w in q.unacked ==> GoodMessage(runs, maxAttempts, q.unacked[w]))
  }

  /** What a worker's program counter says about the job in its hands. */
  ghost predicate PhaseFits(runs: map<RunId, Run>, maxAttempts: nat, q: Queues, w: ConsumerId, p: Phase) {
    if p.Idle? then w !in q.unacked
    else
      && GoodMessage(runs, maxAttempts, p.raw)
      && (w in q.unacked ==> q.unacked[w] == p.raw)
      && (p.Marking? ==> Finished(runs, p.raw.envelope.run))
      && (p.Rejected? ==> Begun(runs, p.raw.envelope.run))
  }

  ghost predicate PhasesGood(s: System) {
    forall w: ConsumerId :: PhaseFits(s.db.runs, s.maxAttempts, s.queues, w, s.Of(w))
  }

  ghost predicate ClaimGood(runs: map<RunId, Run>, confirmed: set<RunId>, id: ClaimId, c: Claim) {
    && Known(runs, c.envelope)
    && (c.sent == Some(true) ==> c.envelope.run in confirmed)
  }

  ghost predicate ClaimsGood(s: System) {
    forall id :: id in s.claims ==> ClaimGood(s.db.runs, s.confirmed, id, s.claims[id])
  }

  ghost predicate FinishedJob(runs: map<RunId, Run>, r: RunId, job: JobId) {
    Finished(runs, r) && runs[r].job == job
  }

  /** A processed job is the job of a completed run. */
  ghost predicate ProcessedGood(runs: map<RunId, Run>, processed: set<JobId>) {
    forall j :: j in processed ==> exists r :: FinishedJob(runs, r, j)
  }

  /** A published row was published with a confirmation. */
  ghost predicate ConfirmedGood(db: Database, confirmed: set<RunId>) {
    && confirmed <= db.runs.Keys
    && forall r :: r in db.outbox && db.outbox[r].status == RowPublished ==> r in confirmed
  }

  ghost predicate InQueues(q: Queues, r: RunId) {
    exists m :: Waits(q, m) && m.envelope.run == r
  }

  /** An unacknowledged message that its consumer is not about to acknowledge. */
  ghost predicate HeldBy(s: System, w: ConsumerId, r: RunId) {
    w in s.queues.unacked && s.queues.unacked[w].envelope.run == r && !s.Of(w).Acking?
  }

  ghost predicate Live(s: System, r: RunId) {
    InQueues(s.queues, r) || exists w :: HeldBy(s, w, r)
  }

  /** Once its envelope was confirmed, an unfinished run always has a message that nobody will drop. */
  ghost predicate LastCopies(s: System) {
    forall r :: r in s.confirmed ==> Finished(s.db.runs, r) || Live(s, r)
  }

  ghost predicate Held(s: System) {
    && s.maxAttempts > 0
    && QueuesGood(s.db.runs, s.maxAttempts, s.queues) && PhasesGood(s) && ClaimsGood(s)
    && ProcessedGood(s.db.runs, s.db.processed) && ConfirmedGood(s.db, s.confirmed) && LastCopies(s)
  }

  ghost predicate Inv(s: System) {
    Sound(s.db) && Held(s)
  }

  ghost predicate InitialSystem(s: System) {
    && Initial(s.db)
    && s.queues == Queues(multiset{}, multiset{}, multiset{}, map[])
    && s.phases == map[] && s.claims == map[] && s.confirmed == {} && s.maxAttempts > 0
  }

  // ---- Transactions ------------------------------------------------------------------------------

  ghost predicate NothingPublished(before: map<RunId, OutboxRow>, after: map<RunId, OutboxRow>) {
    forall r :: r in after && after[r].status == RowPublished ==> r in before && before[r].status == RowPublished
  }

  lemma CommitPublishesNothing(db: Database, t: Transaction)
    requires t.DoCommit?
    ensures NothingPublished(db.outbox, Apply(db, t).outbox) && Apply(db, t).processed == db.processed
  {
  }

  lemma RecordPublishesNothing(db: Database, t: Transaction)
    requires t.DoRecord?
    ensures NothingPublished(db.outbox, Apply(db, t).outbox) && Apply(db, t).processed == db.processed
  {
  }

  lemma RewritePublishesNothing(db: Database, t: Transaction)
    requires !t.DoRecord? && !t.DoCommit? && !t.DoMark? && !t.DoComplete?
    ensures NothingPublished(db.outbox, Apply(db, t).outbox) && Apply(db, t).processed == db.processed
  {
  }

  /** Only MarkJobProcessed writes processed_jobs; only completeOutbox marks a row published. */
  lemma OnlyTheirOwn(db: Database, t: Transaction)
    requires !t.DoMark? && !t.DoComplete?
    ensures NothingPublished(db.outbox, Apply(db, t).outbox) && Apply(db, t).processed == db.processed
  {
    match t
    case DoCommit(_, _, _, _) => CommitPublishesNothing(db, t);
    case DoRecord(_, _, _) => RecordPublishesNothing(db, t);
    case _ => RewritePublishesNothing(db, t);
  }

  lemma KnownPersists(before: map<RunId, Run>, after: map<RunId, Run>, e: Envelope)
    requires Grows(before, after) && Known(before, e)
    ensures Known(after, e)
  {
    assert Persists(before, after, e.run);
  }

  lemma FinishedPersists(before: map<RunId, Run>, after: map<RunId, Run>, r: RunId)
    requires Grows(before, after) && Finished(before, r)
    ensures Finished(after, r)
  {
    assert Persists(before, after, r);
  }

  lemma BegunPersists(before: map<RunId, Run>, after: map<RunId, Run>, r: RunId)
    requires Grows(before, after) && Begun(before, r)
    ensures Begun(after, r)
  {
    assert Persists(before, after, r);
  }

  ghost predicate SameRest(s: System, after: System) {
    && after.queues == s.queues && after.phases == s.phases && after.claims == s.claims
    && after.confirmed == s.confirmed && after.maxAttempts == s.maxAttempts
  }

  lemma GrowthKeepsMessages(s: System, after: System)
    requires Held(s) && SameRest(s, after) && Grows(s.db.runs, after.db.runs)
    ensures QueuesGood(after.db.runs, after.maxAttempts, after.queues)
    ensures PhasesGood(after)
  {
    forall m | GoodMessage(s.db.runs, s.maxAttempts, m) ensures GoodMessage(after.db.runs, after.maxAttempts, m) {
      KnownPersists(s.db.runs, after.db.runs, m.envelope);
    }
    forall w: ConsumerId ensures PhaseFits(after.db.runs, after.maxAttempts, after.queues, w, after.Of(w)) {
      assert PhaseFits(s.db.runs, s.maxAttempts, s.queues, w, s.Of(w));
      if s.Of(w).Marking? {
        FinishedPersists(s.db.runs, after.db.runs, s.Of(w).raw.envelope.run);
      }
      if s.Of(w).Rejected? {
        BegunPersists(s.db.runs, after.db.runs, s.Of(w).raw.envelope.run);
      }
    }
  }

  lemma GrowthKeepsClaims(s: System, after: System)
    requires ClaimsGood(s) && SameRest(s, after) && Grows(s.db.runs, after.db.runs)
    ensures ClaimsGood(after)
  {
    forall id | id in s.claims ensures ClaimGood(after.db.runs, after.confirmed, id, s.claims[id]) {
      assert ClaimGood(s.db.runs, s.confirmed, id, s.claims[id]);
      KnownPersists(s.db.runs, after.db.runs, s.claims[id].envelope);
    }
  }

  lemma GrowthKeepsLastCopies(s: System, after: System)
    requires LastCopies(s) && SameRest(s, after) && Grows(s.db.runs, after.db.runs)
    ensures LastCopies(after)
  {
    assert forall w, r :: HeldBy(s, w, r) ==> HeldBy(after, w, r);
    forall r | r in after.confirmed ensures Finished(after.db.runs, r) || Live(after, r) {
      assert Persists(s.db.runs, after.db.runs, r);
    }
  }

  lemma GrowthKeepsProcessed(before: map<RunId, Run>, after: map<RunId, Run>, processed: set<JobId>)
    requires ProcessedGood(before, processed) && Grows(before, after)
    ensures ProcessedGood(after, processed)
  {
    forall j | j in processed ensures exists r :: FinishedJob(after, r, j) {
      var r :| FinishedJob(before, r, j);
      assert Persists(before, after, r);
      assert FinishedJob(after, r, j);
    }
  }

  lemma GrowthKeepsConfirmed(before: Database, after: Database, confirmed: set<RunId>)
    requires ConfirmedGood(before, confirmed) && Grows(before.runs, after.runs)
    requires NothingPublished(before.outbox, after.outbox)
    ensures ConfirmedGood(after, confirmed)
  {
    forall r | r in confirmed ensures r in after.runs {
      assert Persists(before.runs, after.runs, r);
    }
  }

  /** A transaction keeps what only depends on runs staying and completed runs staying completed. */
  lemma GrowthKeepsHeld(s: System, after: System)
    requires Held(s) && SameRest(s, after) && Grows(s.db.runs, after.db.runs)
    requires NothingPublished(s.db.outbox, after.db.outbox) && after.db.processed == s.db.processed
    ensures Held(after)
  {
    GrowthKeepsMessages(s, after);
    GrowthKeepsClaims(s, after);
    GrowthKeepsProcessed(s.db.runs, after.db.runs, s.db.processed);
    GrowthKeepsConfirmed(s.db, after.db, s.confirmed);
    GrowthKeepsLastCopies(s, after);
  }

  lemma TransactKeepsHeld(s: System, t: Transaction)
    requires Tabled(s.db) && Held(s) && !t.DoMark? && !t.DoComplete?
    ensures Held(s.(db := Apply(s.db, t)))
  {
    ApplyGrows(s.db, t);
    OnlyTheirOwn(s.db, t);
    GrowthKeepsHeld(s, s.(db := Apply(s.db, t)));
  }

  lemma TransactKeepsInv(s: System, t: Transaction)
    requires Inv(s) && !t.DoMark? && !t.DoComplete?
    ensures Inv(s.(db := Apply(s.db, t)))
  {
    ApplyKeepsSound(s.db, t);
    TransactKeepsHeld(s, t);
  }

  // ---- A worker's program counter --------------------------------------------------------------------

  lemma MoveKeepsPhases(s: System, w: ConsumerId, p: Phase)
    requires PhasesGood(s) && PhaseFits(s.db.runs, s.maxAttempts, s.queues, w, p)
    ensures PhasesGood(s.At(w, p))
  {
    var after := s.At(w, p);
    forall v: ConsumerId ensures PhaseFits(after.db.runs, after.maxAttempts, after.queues, v, after.Of(v)) {
      assert PhaseFits(s.db.runs, s.maxAttempts, s.queues, v, s.Of(v));
    }
  }

  lemma MoveKeepsLastCopies(s: System, w: ConsumerId, p: Phase)
    requires LastCopies(s) && PhaseFits(s.db.runs, s.maxAttempts, s.queues, w, p)
    requires p.Acking? ==> Finished(s.db.runs, p.raw.envelope.run)
    ensures LastCopies(s.At(w, p))
  {
    var after := s.At(w, p);
    forall r | r in after.confirmed ensures Finished(after.db.runs, r) || Live(after, r) {
      assert forall v :: v != w && HeldBy(s, v, r) ==> HeldBy(after, v, r);
      assert HeldBy(s, w, r) ==> HeldBy(after, w, r) || (p.Acking? && p.raw.envelope.run == r);
    }
  }

  /** A worker may stop protecting its message only when the run it names is completed. */
  lemma MoveKeepsInv(s: System, w: ConsumerId, p: Phase)
    requires Inv(s) && PhaseFits(s.db.runs, s.maxAttempts, s.queues, w, p)
    requires p.Acking? ==> Finished(s.db.runs, p.raw.envelope.run)
    ensures Inv(s.At(w, p))
  {
    MoveKeepsPhases(s, w, p);
    MoveKeepsLastCopies(s, w, p);
  }

  // ---- Service.Sync ------------------------------------------------------------------------------------

  ghost predicate Fits(s: System, w: ConsumerId, p: Phase) {
    PhaseFits(s.db.runs, s.maxAttempts, s.queues, w, p)
  }

  /** A transaction of a worker, and where its program counter goes. */
  lemma TransactAndMoveKeepsInv(s: System, t: Transaction, w: ConsumerId, p: Phase)
    requires Inv(s) && !t.DoMark? && !t.DoComplete? && !p.Acking?
    requires Fits(s.(db := Apply(s.db, t)), w, p)
    ensures Inv(s.(db := Apply(s.db, t)).At(w, p))
  {
    TransactKeepsInv(s, t);
    MoveKeepsInv(s.(db := Apply(s.db, t)), w, p);
  }

  /** After any transaction the message in a worker's hands still names its run. */
  lemma RawFits(s: System, t: Transaction, w: ConsumerId, p: Phase)
    requires Tabled(s.db) && Fits(s, w, s.Of(w)) && !s.Of(w).Idle?
    requires !p.Idle? && p.raw == s.Of(w).raw
    requires p.Marking? ==> Finished(Apply(s.db, t).runs, p.raw.envelope.run)
    requires p.Rejected? ==> Begun(Apply(s.db, t).runs, p.raw.envelope.run)
    ensures Fits(s.(db := Apply(s.db, t)), w, p)
  {
    ApplyGrows(s.db, t);
    KnownPersists(s.db.runs, Apply(s.db, t).runs, p.raw.envelope);
  }

  lemma StartMoves(s: System, w: ConsumerId, raw: Message, lost: Option<bool>) returns (p: Phase)
    ensures StepStart(s, w, raw, lost)
         == s.(db := Apply(s.db, DoTakeLease(raw.envelope.tenant, raw.envelope.run))).At(w, p)
    ensures !p.Idle? && !p.Marking? && !p.Acking? && p.raw == raw
    ensures p.Rejected? ==>
              TakeLease(s.db, raw.envelope.tenant, raw.envelope.run).result == NoRow
  {
    p := StepStart(s, w, raw, lost).Of(w);
  }

  /** A run that a start is refused for has begun: a queued run always takes the lease. */
  lemma RefusedHasBegun(db: Database, e: Envelope)
    requires Known(db.runs, e) && TakeLease(db, e.tenant, e.run).result == NoRow
    ensures Begun(Apply(db, DoTakeLease(e.tenant, e.run)).runs, e.run)
  {
  }

  lemma StartKeepsInv(s: System, w: ConsumerId, raw: Message, lost: Option<bool>)
    requires Inv(s) && s.Of(w) == Starting(raw)
    ensures Inv(StepStart(s, w, raw, lost))
  {
    var t := DoTakeLease(raw.envelope.tenant, raw.envelope.run);
    var p := StartMoves(s, w, raw, lost);
    assert Fits(s, w, s.Of(w));
    if p.Rejected? {
      RefusedHasBegun(s.db, raw.envelope);
    }
    RawFits(s, t, w, p);
    TransactAndMoveKeepsInv(s, t, w, p);
  }

  lemma ReadStatusMoves(s: System, w: ConsumerId, raw: Message) returns (p: Phase)
    ensures StepReadStatus(s, w, raw) == s.At(w, p)
    ensures !p.Idle? && !p.Acking? && !p.Rejected? && p.raw == raw
    ensures p.Marking? ==> Finished(s.db.runs, raw.envelope.run)
  {
    p := StepReadStatus(s, w, raw).Of(w);
  }

  lemma ReadStatusKeepsInv(s: System, w: ConsumerId, raw: Message)
    requires Inv(s) && s.Of(w) == Rejected(raw)
    ensures Inv(StepReadStatus(s, w, raw))
  {
    var p := ReadStatusMoves(s, w, raw);
    assert Fits(s, w, s.Of(w));
    MoveKeepsInv(s, w, p);
  }

  /** The handler answers nil after ReplaceMirror only when the run is completed. */
  lemma CommitMoves(s: System, w: ConsumerId, raw: Message, lease: LeaseId, counts: Counts, late: Option<bool>)
    returns (p: Phase)
    requires Tabled(s.db)
    ensures var t := DoCommit(raw.envelope.tenant, raw.envelope.run, lease, counts);
            && StepCommit(s, w, raw, lease, counts, late) == s.(db := Apply(s.db, t)).At(w, p)
            && (p.Marking? ==> Finished(Apply(s.db, t).runs, raw.envelope.run))
    ensures !p.Idle? && !p.Acking? && !p.Rejected? && p.raw == raw
  {
    p := StepCommit(s, w, raw, lease, counts, late).Of(w);
    CommitGrows(s.db, raw.envelope.tenant, raw.envelope.run, lease, counts);
  }

  lemma CommitSyncKeepsInv(s: System, w: ConsumerId, raw: Message, lease: LeaseId, counts: Counts, late: Option<bool>)
    requires Inv(s) && s.Of(w) == Syncing(raw, lease)
    ensures Inv(StepCommit(s, w, raw, lease, counts, late))
  {
    var t := DoCommit(raw.envelope.tenant, raw.envelope.run, lease, counts);
    var p := CommitMoves(s, w, raw, lease, counts, late);
    RawFits(s, t, w, p);
    TransactAndMoveKeepsInv(s, t, w, p);
  }

  lemma FailSyncKeepsInv(s: System, w: ConsumerId, raw: Message, lease: LeaseId, cause: Cause, written: bool)
    requires Inv(s) && s.Of(w) == Failing(raw, lease, cause)
    ensures Inv(StepFail(s, w, raw, lease, cause, written))
  {
    var t := DoFail(raw.envelope.tenant, raw.envelope.run, lease, cause.text);
    var p := HandingOff(raw, cause);
    RawFits(s, t, w, p);
    RawFits(s, DoWait(0), w, p);
    if written {
      TransactAndMoveKeepsInv(s, t, w, p);
    } else {
      MoveKeepsInv(s, w, p);
    }
  }

  lemma AbortKeepsInv(s: System, w: ConsumerId, p: Phase)
    requires Inv(s) && !s.Of(w).Idle? && p.Failing? && p.raw == s.Of(w).raw
    ensures Inv(s.At(w, p))
  {
    RawFits(s, DoWait(0), w, p);
    MoveKeepsInv(s, w, p);
  }

  predicate BeforeSync(a: SyncAction) {
    a.Start? || a.ReadStatus? || a.Renew?
  }

  lemma StartingKeepsInv(s: System, w: ConsumerId, a: SyncAction)
    requires Inv(s) && BeforeSync(a)
    ensures Inv(StepSync(s, w, a))
  {
    var phase := s.Of(w);
    if a.Start? && phase.Starting? {
      StartKeepsInv(s, w, phase.raw, a.lost);
    } else if a.ReadStatus? && phase.Rejected? {
      ReadStatusKeepsInv(s, w, phase.raw);
    } else if a.Renew? && phase.Syncing? {
      TransactKeepsInv(s, DoHeartbeat(phase.raw.envelope.tenant, phase.raw.envelope.run, phase.lease));
    }
  }

  lemma EndingKeepsInv(s: System, w: ConsumerId, a: SyncAction)
    requires Inv(s) && !BeforeSync(a)
    ensures Inv(StepSync(s, w, a))
  {
    var phase := s.Of(w);
    if a.Abort? && phase.Syncing? {
      AbortKeepsInv(s, w, Failing(phase.raw, phase.lease, Broken(a.retryable)));
    } else if a.CommitSync? && phase.Syncing? {
      CommitSyncKeepsInv(s, w, phase.raw, phase.lease, a.counts, a.late);
    } else if a.FailSync? && phase.Failing? {
      FailSyncKeepsInv(s, w, phase.raw, phase.lease, phase.cause, a.written);
    }
  }

  lemma SyncKeepsInv(s: System, w: ConsumerId, a: SyncAction)
    requires Inv(s)
    ensures Inv(StepSync(s, w, a))
  {
    if BeforeSync(a) {
      StartingKeepsInv(s, w, a);
    } else {
      EndingKeepsInv(s, w, a);
    }
  }

  // ---- The consumer ------------------------------------------------------------------------------------

  /** Only worker w's message, its phase and the queues change. */
  ghost predicate Rearranges(s: System, after: System, w: ConsumerId) {
    && after.db == s.db && after.claims == s.claims
    && after.confirmed == s.confirmed && after.maxAttempts == s.maxAttempts
    && (forall v: ConsumerId :: v != w ==> after.Of(v) == s.Of(v))
    && (forall v: ConsumerId :: v != w ==> (v in after.queues.unacked <==> v in s.queues.unacked))
    && (forall v: ConsumerId :: v != w && v in s.queues.unacked ==> after.queues.unacked[v] == s.queues.unacked[v])
  }

  /** No run loses its last copy, unless it is completed. */
  ghost predicate KeepsCopies(s: System, after: System, w: ConsumerId) {
    forall r :: InQueues(s.queues, r) || HeldBy(s, w, r) ==>
      Finished(s.db.runs, r) || InQueues(after.queues, r) || HeldBy(after, w, r)
  }

  lemma RearrangeKeepsPhases(s: System, after: System, w: ConsumerId)
    requires PhasesGood(s) && Rearranges(s, after, w) && Fits(after, w, after.Of(w))
    ensures PhasesGood(after)
  {
    forall v: ConsumerId ensures PhaseFits(after.db.runs, after.maxAttempts, after.queues, v, after.Of(v)) {
      assert PhaseFits(s.db.runs, s.maxAttempts, s.queues, v, s.Of(v));
    }
  }

  lemma RearrangeKeepsLastCopies(s: System, after: System, w: ConsumerId)
    requires LastCopies(s) && Rearranges(s, after, w) && KeepsCopies(s, after, w)
    ensures LastCopies(after)
  {
    forall r | r in after.confirmed ensures Finished(after.db.runs, r) || Live(after, r) {
      assert forall v :: v != w && HeldBy(s, v, r) ==> HeldBy(after, v, r);
    }
  }

  lemma RearrangeKeepsInv(s: System, after: System, w: ConsumerId)
    requires Inv(s) && Rearranges(s, after, w) && KeepsCopies(s, after, w)
    requires QueuesGood(s.db.runs, s.maxAttempts, after.queues) && Fits(after, w, after.Of(w))
    ensures Inv(after)
  {
    RearrangeKeepsPhases(s, after, w);
    RearrangeKeepsLastCopies(s, after, w);
  }

  lemma DeliverRearranges(s: System, w: ConsumerId, m: Message)
    requires QueuesGood(s.db.runs, s.maxAttempts, s.queues) && s.Of(w).Idle? && Fits(s, w, s.Of(w))
    ensures var after := StepDeliver(s, w, m);
            && Rearranges(s, after, w) && KeepsCopies(s, after, w)
            && QueuesGood(s.db.runs, s.maxAttempts, after.queues) && Fits(after, w, after.Of(w))
  {
    var after := StepDeliver(s, w, m);
    if m in s.queues.main && w !in s.queues.unacked {
      assert forall x :: Waits(s.queues, x) && x != m ==> Waits(after.queues, x);
      assert Waits(s.queues, m) && HeldBy(after, w, m.envelope.run);
      assert forall x :: Waits(after.queues, x) ==> Waits(s.queues, x);
    }
  }

  lemma DeliverKeepsInv(s: System, w: ConsumerId, m: Message)
    requires Inv(s) && s.Of(w).Idle?
    ensures Inv(StepDeliver(s, w, m))
  {
    assert Fits(s, w, s.Of(w));
    DeliverRearranges(s, w, m);
    RearrangeKeepsInv(s, StepDeliver(s, w, m), w);
  }

  /** Requeueing moves the message back to the main queue. */
  lemma RequeueRearranges(s: System, w: ConsumerId, p: Phase)
    requires QueuesGood(s.db.runs, s.maxAttempts, s.queues)
    requires p.Idle? || (p == s.Of(w) && Fits(s, w, p))
    ensures var after := s.(queues := Requeued(s.queues, w)).At(w, p);
            && Rearranges(s, after, w) && KeepsCopies(s, after, w)
            && QueuesGood(s.db.runs, s.maxAttempts, after.queues) && Fits(after, w, after.Of(w))
  {
    var after := s.(queues := Requeued(s.queues, w)).At(w, p);
    assert forall m :: Waits(s.queues, m) ==> Waits(after.queues, m);
    assert forall m :: Waits(after.queues, m) ==>
             Waits(s.queues, m) || (w in s.queues.unacked && m == s.queues.unacked[w]);
    assert w in s.queues.unacked ==> Waits(after.queues, s.queues.unacked[w]);
  }

  lemma RequeueKeepsInv(s: System, w: ConsumerId, p: Phase)
    requires Inv(s) && (p.Idle? || p == s.Of(w))
    ensures Inv(s.(queues := Requeued(s.queues, w)).At(w, p))
  {
    assert Fits(s, w, s.Of(w));
    RequeueRearranges(s, w, p);
    RearrangeKeepsInv(s, s.(queues := Requeued(s.queues, w)).At(w, p), w);
  }

  /** An arriving acknowledgement drops a message that nothing depends on any more. */
  lemma AckRearranges(s: System, w: ConsumerId)
    requires QueuesGood(s.db.runs, s.maxAttempts, s.queues) && s.Of(w).Acking?
    ensures var after := s.(queues := Acked(s.queues, w)).At(w, Idle);
            && Rearranges(s, after, w) && KeepsCopies(s, after, w)
            && QueuesGood(s.db.runs, s.maxAttempts, after.queues) && Fits(after, w, after.Of(w))
  {
    var after := s.(queues := Acked(s.queues, w)).At(w, Idle);
    assert forall m :: Waits(s.queues, m) <==> Waits(after.queues, m);
  }

  lemma AckKeepsInv(s: System, w: ConsumerId, arrives: bool)
    requires Inv(s) && s.Of(w).Acking?
    ensures Inv(s.(queues := Settled(s.queues, w, arrives)).At(w, Idle))
  {
    if arrives {
      AckRearranges(s, w);
      RearrangeKeepsInv(s, s.(queues := Acked(s.queues, w)).At(w, Idle), w);
    } else {
      RequeueKeepsInv(s, w, Idle);
    }
  }

  /** The copy that Retry or DeadLetter publishes names the same run, within the attempt bound. */
  lemma HandOffCopyIsGood(runs: map<RunId, Run>, maxAttempts: nat, raw: Message, cause: Cause)
    requires GoodMessage(runs, maxAttempts, raw)
    ensures GoodMessage(runs, maxAttempts, HandOffCopy(raw, cause, maxAttempts))
    ensures HandOffCopy(raw, cause, maxAttempts).envelope == raw.envelope
  {
  }

  /** A stored publish adds a message and changes nothing else. */
  lemma PublishAddsCopy(q: Queues, name: QueueName, m: Message, outcome: PublishOutcome)
    ensures var after := Published(q, name, m, outcome);
            && after.unacked == q.unacked
            && (forall x :: Waits(q, x) ==> Waits(after, x))
            && (forall x :: Waits(after, x) ==> Waits(q, x) || x == m)
            && (outcome != Refused ==> Waits(after, m))
  {
  }

  lemma HandOffRearranges(s: System, w: ConsumerId, raw: Message, cause: Cause)
    requires QueuesGood(s.db.runs, s.maxAttempts, s.queues) && s.Of(w) == HandingOff(raw, cause) && Fits(s, w, s.Of(w))
    ensures var after := StepHandOff(s, w, raw, cause, Confirmed);
            && Rearranges(s, after, w) && KeepsCopies(s, after, w)
            && QueuesGood(s.db.runs, s.maxAttempts, after.queues) && Fits(after, w, after.Of(w))
  {
    var copy := HandOffCopy(raw, cause, s.maxAttempts);
    HandOffCopyIsGood(s.db.runs, s.maxAttempts, raw, cause);
    PublishAddsCopy(s.queues, HandOffTarget(raw, cause, s.maxAttempts), copy, Confirmed);
    var after := StepHandOff(s, w, raw, cause, Confirmed);
    assert HeldBy(s, w, raw.envelope.run) ==> Waits(after.queues, copy) && copy.envelope.run == raw.envelope.run;
  }

  /** A publish that reports an error may still leave a copy; the original stays unacknowledged. */
  lemma StrayCopyKeepsInv(s: System, w: ConsumerId, name: QueueName, copy: Message, outcome: PublishOutcome)
    requires Inv(s) && GoodMessage(s.db.runs, s.maxAttempts, copy)
    ensures Inv(s.(queues := Published(s.queues, name, copy, outcome)))
  {
    var after := s.(queues := Published(s.queues, name, copy, outcome));
    PublishAddsCopy(s.queues, name, copy, outcome);
    StrayCopyRearranges(s, w, after);
    assert PhaseFits(s.db.runs, s.maxAttempts, s.queues, w, s.Of(w));
    RearrangeKeepsInv(s, after, w);
  }

  lemma StrayCopyRearranges(s: System, w: ConsumerId, after: System)
    requires after == s.(queues := after.queues) && after.queues.unacked == s.queues.unacked
    requires forall x :: Waits(s.queues, x) ==> Waits(after.queues, x)
    ensures Rearranges(s, after, w) && KeepsCopies(s, after, w)
  {
  }

  lemma HandOffKeepsInv(s: System, w: ConsumerId, raw: Message, cause: Cause, outcome: PublishOutcome)
    requires Inv(s) && s.Of(w) == HandingOff(raw, cause)
    ensures Inv(StepHandOff(s, w, raw, cause, outcome))
  {
    assert Fits(s, w, s.Of(w));
    if outcome == Confirmed {
      HandOffRearranges(s, w, raw, cause);
      RearrangeKeepsInv(s, StepHandOff(s, w, raw, cause, outcome), w);
    } else {
      var name, copy := HandOffTarget(raw, cause, s.maxAttempts), HandOffCopy(raw, cause, s.maxAttempts);
      HandOffCopyIsGood(s.db.runs, s.maxAttempts, raw, cause);
      StrayCopyKeepsInv(s, w, name, copy, outcome);
      RequeueKeepsInv(s.(queues := Published(s.queues, name, copy, outcome)), w, Idle);
    }
  }

  /** A processed job id leads back to the one run that carries it. */
  lemma ProcessedRunIsFinished(db: Database, e: Envelope)
    requires UniqueJobs(db.runs) && ProcessedGood(db.runs, db.processed) && Known(db.runs, e) && e.job in db.processed
    ensures Finished(db.runs, e.run)
  {
    var r :| FinishedJob(db.runs, r, e.job);
    assert r == e.run;
  }

  lemma LookupKeepsInv(s: System, w: ConsumerId)
    requires Inv(s)
    ensures Inv(StepDelivery(s, w, Lookup))
  {
    if s.Of(w).Received? {
      var raw := s.Of(w).raw;
      assert Fits(s, w, s.Of(w));
      if raw.envelope.job in s.db.processed {
        ProcessedRunIsFinished(s.db, raw.envelope);
        MoveKeepsInv(s, w, Acking(raw));
      } else {
        MoveKeepsInv(s, w, Starting(raw));
      }
    }
  }

  lemma StumbleKeepsInv(s: System, w: ConsumerId, p: Phase)
    requires Inv(s) && !s.Of(w).Idle? && p.HandingOff? && p.raw == s.Of(w).raw
    ensures Inv(s.At(w, p))
  {
    RawFits(s, DoWait(0), w, p);
    MoveKeepsInv(s, w, p);
  }

  lemma MarkKeepsProcessed(runs: map<RunId, Run>, processed: set<JobId>, e: Envelope)
    requires ProcessedGood(runs, processed) && Known(runs, e) && Finished(runs, e.run)
    ensures ProcessedGood(runs, processed + {e.job})
  {
    assert FinishedJob(runs, e.run, e.job);
  }

  lemma ProcessedKeepsHeld(s: System, after: System)
    requires Held(s) && after == s.(db := s.db.(processed := after.db.processed))
    requires ProcessedGood(s.db.runs, after.db.processed)
    ensures Held(after)
  {
    GrowthKeepsMessages(s, after);
    GrowthKeepsClaims(s, after);
    GrowthKeepsLastCopies(s, after);
  }

  lemma MarkedKeepsHeld(s: System, e: Envelope)
    requires Held(s) && Known(s.db.runs, e) && Finished(s.db.runs, e.run)
    ensures Held(s.(db := Apply(s.db, DoMark(e.job))))
  {
    MarkKeepsProcessed(s.db.runs, s.db.processed, e);
    ProcessedKeepsHeld(s, s.(db := Apply(s.db, DoMark(e.job))));
  }

  lemma MarkedKeepsInv(s: System, e: Envelope)
    requires Inv(s) && Known(s.db.runs, e) && Finished(s.db.runs, e.run)
    ensures Inv(s.(db := Apply(s.db, DoMark(e.job))))
  {
    ApplyKeepsSound(s.db, DoMark(e.job));
    MarkedKeepsHeld(s, e);
  }

  lemma MarkKeepsInv(s: System, w: ConsumerId, raw: Message, written: bool, heard: bool)
    requires Inv(s) && s.Of(w) == Marking(raw)
    ensures Inv(StepMark(s, w, raw, written, heard))
  {
    var p := if written && heard then Acking(raw) else HandingOff(raw, Broken(true));
    assert Fits(s, w, s.Of(w));
    MoveKeepsInv(s, w, p);
    if written {
      MarkedKeepsInv(s.At(w, p), raw.envelope);
      assert StepMark(s, w, raw, written, heard) == s.At(w, p).(db := Apply(s.db, DoMark(raw.envelope.job)));
    }
  }

  /** The actions that move messages. */
  predicate MovesMessage(a: ConsumerAction) {
    a.Take? || a.HandOff? || a.Acknowledge? || a.Disconnect? || a.Crash?
  }

  lemma TakeKeepsInv(s: System, w: ConsumerId, m: Message)
    requires Inv(s)
    ensures Inv(StepDelivery(s, w, Take(m)))
  {
    if s.Of(w).Idle? {
      DeliverKeepsInv(s, w, m);
    }
  }

  lemma HandKeepsInv(s: System, w: ConsumerId, outcome: PublishOutcome)
    requires Inv(s)
    ensures Inv(StepDelivery(s, w, HandOff(outcome)))
  {
    if s.Of(w).HandingOff? {
      var raw, cause := s.Of(w).raw, s.Of(w).cause;
      HandOffKeepsInv(s, w, raw, cause, outcome);
      assert StepDelivery(s, w, HandOff(outcome)) == StepHandOff(s, w, raw, cause, outcome);
    }
  }

  lemma CloseKeepsInv(s: System, w: ConsumerId, arrives: bool)
    requires Inv(s)
    ensures Inv(StepDelivery(s, w, Acknowledge(arrives)))
  {
    if s.Of(w).Acking? {
      AckKeepsInv(s, w, arrives);
      assert StepDelivery(s, w, Acknowledge(arrives)) == s.(queues := Settled(s.queues, w, arrives)).At(w, Idle);
    }
  }

  lemma LeaveKeepsInv(s: System, w: ConsumerId, a: ConsumerAction)
    requires Inv(s) && (a.Disconnect? || a.Crash?)
    ensures Inv(StepDelivery(s, w, a))
  {
    RequeueKeepsInv(s, w, if a.Crash? then Idle else s.Of(w));
  }

  lemma MessageKeepsInv(s: System, w: ConsumerId, a: ConsumerAction)
    requires Inv(s) && MovesMessage(a)
    ensures Inv(StepDelivery(s, w, a))
  {
    match a
    case Take(m) => TakeKeepsInv(s, w, m);
    case HandOff(outcome) => HandKeepsInv(s, w, outcome);
    case Acknowledge(arrives) => CloseKeepsInv(s, w, arrives);
    case _ => LeaveKeepsInv(s, w, a);
  }

  lemma HandlingKeepsInv(s: System, w: ConsumerId, a: ConsumerAction)
    requires Inv(s) && !MovesMessage(a)
    ensures Inv(StepDelivery(s, w, a))
  {
    var phase := s.Of(w);
    if a.Lookup? {
      LookupKeepsInv(s, w);
    } else if a.Stumble? && (phase.Received? || phase.Starting? || phase.Rejected?) {
      StumbleKeepsInv(s, w, HandingOff(phase.raw, Broken(a.retryable)));
    } else if a.Mark? && phase.Marking? {
      MarkKeepsInv(s, w, phase.raw, a.written, a.heard);
    }
  }

  lemma DeliveryKeepsInv(s: System, w: ConsumerId, a: ConsumerAction)
    requires Inv(s)
    ensures Inv(StepDelivery(s, w, a))
  {
    if MovesMessage(a) {
      MessageKeepsInv(s, w, a);
    } else {
      HandlingKeepsInv(s, w, a);
    }
  }

  // ---- The outbox publisher --------------------------------------------------------------------------------

  /** Claims and confirmations may change as long as they stay true. */
  lemma ClaimsKeepInv(s: System, after: System)
    requires Inv(s) && after == s.(claims := after.claims, nextClaim := after.nextClaim)
    requires ClaimsGood(after)
    ensures Inv(after)
  {
    GrowthKeepsPhasesAndCopies(s, after);
  }

  lemma GrowthKeepsPhasesAndCopies(s: System, after: System)
    requires PhasesGood(s) && LastCopies(s)
    requires after.db == s.db && after.queues == s.queues && after.phases == s.phases
    requires after.confirmed == s.confirmed && after.maxAttempts == s.maxAttempts
    ensures PhasesGood(after) && LastCopies(after)
  {
    forall v: ConsumerId ensures PhaseFits(after.db.runs, after.maxAttempts, after.queues, v, after.Of(v)) {
      assert PhaseFits(s.db.runs, s.maxAttempts, s.queues, v, s.Of(v));
    }
    assert forall v, r :: HeldBy(s, v, r) ==> HeldBy(after, v, r);
  }

  lemma NewClaimsAreGood(s: System, runs: set<RunId>, id: ClaimId)
    requires Rows(s.db.runs, s.db.outbox) && id in NewClaims(s, runs)
    ensures ClaimGood(s.db.runs, s.confirmed, id, NewClaims(s, runs)[id])
  {
    assert id.1 in s.db.runs;
  }

  lemma ClaimBatchIsGood(s: System, runs: set<RunId>)
    requires ClaimsGood(s) && Rows(s.db.runs, s.db.outbox)
    ensures ClaimsGood(StepOutbox(s, ClaimBatch(runs)))
  {
    var after := StepOutbox(s, ClaimBatch(runs));
    forall id | id in after.claims ensures ClaimGood(after.db.runs, after.confirmed, id, after.claims[id]) {
      if id in NewClaims(s, runs) {
        NewClaimsAreGood(s, runs, id);
      } else {
        assert ClaimGood(s.db.runs, s.confirmed, id, s.claims[id]);
      }
    }
  }

  lemma ClaimBatchKeepsInv(s: System, runs: set<RunId>)
    requires Inv(s)
    ensures Inv(StepOutbox(s, ClaimBatch(runs)))
  {
    TransactKeepsInv(s, DoClaim(runs));
    ClaimBatchIsGood(s, runs);
    ClaimsKeepInv(s.(db := Apply(s.db, DoClaim(runs))), StepOutbox(s, ClaimBatch(runs)));
  }

  /** A confirmed publish has put a copy into the main queue. */
  lemma ConfirmKeepsInv(s: System, id: ClaimId, c: Claim)
    requires Inv(s) && Known(s.db.runs, c.envelope)
    requires InQueues(s.queues, c.envelope.run)
    ensures Inv(s.(claims := s.claims[id := c], confirmed := s.confirmed + {c.envelope.run}))
  {
    var after := s.(claims := s.claims[id := c], confirmed := s.confirmed + {c.envelope.run});
    assert forall v: ConsumerId :: after.Of(v) == s.Of(v);
    ConfirmKeepsClaims(s, id, c);
    ConfirmKeepsLastCopies(s, after, c.envelope.run);
    GrowthKeepsPhasesAndCopies(s, after.(confirmed := s.confirmed));
  }

  lemma ConfirmKeepsClaims(s: System, id: ClaimId, c: Claim)
    requires ClaimsGood(s) && Known(s.db.runs, c.envelope)
    ensures ClaimsGood(s.(claims := s.claims[id := c], confirmed := s.confirmed + {c.envelope.run}))
  {
    var after := s.(claims := s.claims[id := c], confirmed := s.confirmed + {c.envelope.run});
    forall k | k in after.claims ensures ClaimGood(after.db.runs, after.confirmed, k, after.claims[k]) {
      assert k != id ==> ClaimGood(s.db.runs, s.confirmed, k, s.claims[k]);
    }
  }

  lemma ConfirmKeepsLastCopies(s: System, after: System, r: RunId)
    requires LastCopies(s) && after.db == s.db && after.queues == s.queues && after.phases == s.phases
    requires after.confirmed == s.confirmed + {r} && InQueues(s.queues, r)
    ensures LastCopies(after)
  {
    assert forall v, q :: HeldBy(s, v, q) ==> HeldBy(after, v, q);
  }

  lemma RefusalKeepsInv(s: System, id: ClaimId, c: Claim)
    requires Inv(s) && Known(s.db.runs, c.envelope) && c.sent != Some(true)
    ensures Inv(s.(claims := s.claims[id := c]))
  {
    var after := s.(claims := s.claims[id := c]);
    forall k | k in after.claims ensures ClaimGood(after.db.runs, after.confirmed, k, after.claims[k]) {
      assert k != id ==> ClaimGood(s.db.runs, s.confirmed, k, s.claims[k]);
    }
    ClaimsKeepInv(s, after);
  }

  lemma FreshMessageIsGood(runs: map<RunId, Run>, maxAttempts: nat, e: Envelope)
    requires Known(runs, e) && maxAttempts > 0
    ensures GoodMessage(runs, maxAttempts, FreshMessage(e))
  {
  }

  lemma PublishKeepsInv(s: System, id: ClaimId, claim: Claim, outcome: PublishOutcome)
    requires Inv(s) && id in s.claims && s.claims[id] == claim && claim.sent.None?
    ensures var sent := s.(queues := Published(s.queues, MainQueue, FreshMessage(claim.envelope), outcome));
            Inv(sent) && Known(s.db.runs, claim.envelope)
            && (outcome == Confirmed ==> InQueues(sent.queues, claim.envelope.run))
  {
    var message := FreshMessage(claim.envelope);
    assert ClaimGood(s.db.runs, s.confirmed, id, claim);
    FreshMessageIsGood(s.db.runs, s.maxAttempts, claim.envelope);
    StrayCopyKeepsInv(s, 0, MainQueue, message, outcome);
    PublishAddsCopy(s.queues, MainQueue, message, outcome);
  }

  lemma PublishClaimKeepsInv(s: System, id: ClaimId, claim: Claim, outcome: PublishOutcome)
    requires Inv(s) && id in s.claims && s.claims[id] == claim && claim.sent.None?
    ensures Inv(StepPublish(s, id, claim, outcome))
  {
    PublishKeepsInv(s, id, claim, outcome);
    var sent := s.(queues := Published(s.queues, MainQueue, FreshMessage(claim.envelope), outcome));
    if outcome == Confirmed {
      ConfirmKeepsInv(sent, id, claim.(sent := Some(true)));
    } else {
      RefusalKeepsInv(sent, id, claim.(sent := Some(false)));
    }
  }

  lemma CompletedRowsAreConfirmed(db: Database, confirmed: set<RunId>, r: RunId)
    requires ConfirmedGood(db, confirmed) && r in confirmed
    ensures ConfirmedGood(Apply(db, DoComplete(r)), confirmed)
  {
  }

  lemma CompleteKeepsHeld(s: System, r: RunId)
    requires Held(s) && r in s.confirmed
    ensures Held(s.(db := Apply(s.db, DoComplete(r))))
  {
    var after := s.(db := Apply(s.db, DoComplete(r)));
    CompletedRowsAreConfirmed(s.db, s.confirmed, r);
    GrowthKeepsMessages(s, after);
    GrowthKeepsClaims(s, after);
    GrowthKeepsLastCopies(s, after);
  }

  lemma CompleteKeepsInv(s: System, r: RunId)
    requires Inv(s) && r in s.confirmed
    ensures Inv(s.(db := Apply(s.db, DoComplete(r))))
  {
    ApplyKeepsSound(s.db, DoComplete(r));
    CompleteKeepsHeld(s, r);
  }

  lemma DropKeepsInv(s: System, id: ClaimId)
    requires Inv(s)
    ensures Inv(s.(claims := s.claims - {id}))
  {
    var after := s.(claims := s.claims - {id});
    forall k | k in after.claims ensures ClaimGood(after.db.runs, after.confirmed, k, after.claims[k]) {
      assert ClaimGood(s.db.runs, s.confirmed, k, s.claims[k]);
    }
    ClaimsKeepInv(s, after);
  }

  lemma SettlementKeepsInv(s: System, id: ClaimId, claim: Claim)
    requires Inv(s) && id in s.claims && s.claims[id] == claim
    ensures Inv(s.(db := Apply(s.db, Settlement(claim))))
  {
    assert ClaimGood(s.db.runs, s.confirmed, id, claim);
    if claim.sent == Some(true) {
      CompleteKeepsInv(s, claim.envelope.run);
    } else {
      TransactKeepsInv(s, Settlement(claim));
    }
  }

  lemma SettleKeepsInv(s: System, id: ClaimId, claim: Claim)
    requires Inv(s) && id in s.claims && s.claims[id] == claim
    ensures Inv(StepSettle(s, id, claim))
  {
    SettlementKeepsInv(s, id, claim);
    DropKeepsInv(s.(db := Apply(s.db, Settlement(claim))), id);
  }

  lemma SendKeepsInv(s: System, id: ClaimId, outcome: PublishOutcome)
    requires Inv(s)
    ensures Inv(StepOutbox(s, PublishClaim(id, outcome)))
  {
    if id in s.claims && s.claims[id].sent.None? {
      PublishClaimKeepsInv(s, id, s.claims[id], outcome);
      assert StepOutbox(s, PublishClaim(id, outcome)) == StepPublish(s, id, s.claims[id], outcome);
    }
  }

  lemma SettleClaimSettles(s: System, id: ClaimId)
    requires id in s.claims && s.claims[id].sent.Some?
    ensures StepOutbox(s, SettleClaim(id)) == StepSettle(s, id, s.claims[id])
  {
  }

  lemma SettleClaimKeepsInv(s: System, id: ClaimId)
    requires Inv(s)
    ensures Inv(StepOutbox(s, SettleClaim(id)))
  {
    if id in s.claims && s.claims[id].sent.Some? {
      SettleKeepsInv(s, id, s.claims[id]);
      SettleClaimSettles(s, id);
    }
  }

  lemma OutboxKeepsInv(s: System, a: OutboxAction)
    requires Inv(s)
    ensures Inv(StepOutbox(s, a))
  {
    match a
    case ClaimBatch(runs) => ClaimBatchKeepsInv(s, runs);
    case PublishClaim(id, outcome) => SendKeepsInv(s, id, outcome);
    case SettleClaim(id) => SettleClaimKeepsInv(s, id);
    case DropClaim(id) => DropKeepsInv(s, id);
  }

  // ---- Every action, every execution -----------------------------------------------------------------------

  lemma ExpireRearranges(s: System, m: Message)
    requires QueuesGood(s.db.runs, s.maxAttempts, s.queues)
    ensures var after := StepExpire(s, m);
            && Rearranges(s, after, 0) && KeepsCopies(s, after, 0)
            && QueuesGood(s.db.runs, s.maxAttempts, after.queues)
  {
    assert forall x :: Waits(s.queues, x) <==> Waits(StepExpire(s, m).queues, x);
  }

  lemma ExpireKeepsInv(s: System, m: Message)
    requires Inv(s)
    ensures Inv(StepExpire(s, m))
  {
    assert PhaseFits(s.db.runs, s.maxAttempts, s.queues, 0, s.Of(0));
    ExpireRearranges(s, m);
    RearrangeKeepsInv(s, StepExpire(s, m), 0);
  }

  lemma StepKeepsInv(s: System, a: Action)
    requires Inv(s)
    ensures Inv(Step(s, a))
  {
    match a
    case Api(t) => if IsApi(t) { TransactKeepsInv(s, t); }
    case Publisher(o) => OutboxKeepsInv(s, o);
    case Syncer(w, y) => SyncKeepsInv(s, w, y);
    case Consumer(w, d) => DeliveryKeepsInv(s, w, d);
    case Expire(m) => ExpireKeepsInv(s, m);
  }

  lemma InitialHolds(s: System)
    requires InitialSystem(s)
    ensures Inv(s)
  {
    InitialIsSound(s.db);
  }

  /** The invariants hold after every execution. */
  lemma {:induction false} EveryExecutionKeepsInv(s: System, actions: seq<Action>)
    requires Inv(s)
    ensures Inv(Execute(s, actions))
    decreases |actions|
  {
    if actions != [] {
      StepKeepsInv(s, actions[0]);
      EveryExecutionKeepsInv(Step(s, actions[0]), actions[1..]);
    }
  }
}
