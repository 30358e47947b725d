/**
 Ways forward: a failed sync can run again, an unpublished row can be published, and a
 queued run can be completed, from every reachable state in which they wait.
 */
module SyncProgress {
  import opened Common
  import opened SyncDatabase
  import opened SyncInvariants
  import opened SyncLaws
  import opened Queue
  import opened SyncProtocol
  import opened SyncProtocolInvariants
  import opened SyncSafety

  // ---- From the main queue to a lease ----------------------------------------------------------

  /** Worker w is free and the message waits in the main queue. */
  ghost predicate Offered(s: System, w: ConsumerId, m: Message) {
    m in s.queues.main && w !in s.queues.unacked && s.Of(w).Idle?
  }

  /** Take, Lookup and Start. */
  function Begin(s: System, w: ConsumerId, m: Message): System {
    Step(Step(Step(s, Consumer(w, Take(m))), Consumer(w, Lookup)), Syncer(w, Start(None)))
  }

  lemma TakeAndLookup(s: System, w: ConsumerId, m: Message)
    requires Offered(s, w, m) && m.envelope.job !in s.db.processed
    ensures var next := Step(Step(s, Consumer(w, Take(m))), Consumer(w, Lookup));
            && next.Of(w) == Starting(m) && next.db == s.db
            && next.queues == s.queues.(main := s.queues.main - multiset{m}, unacked := s.queues.unacked[w := m])
  {
  }

  lemma StartLeads(s: System, w: ConsumerId, m: Message)
    requires s.Of(w) == Starting(m)
    ensures var next, tx := Step(s, Syncer(w, Start(None))), TakeLease(s.db, m.envelope.tenant, m.envelope.run);
            && next.queues == s.queues && next.db == tx.db
            && next.Of(w) == match tx.result
                             case Leased(lease) => Syncing(m, lease)
                             case ActiveConflict => HandingOff(m, Cause(true, true, "sync_already_running"))
                             case NoRow => Rejected(m)
  {
  }

  /** A job whose run is not completed is not recorded as processed. */
  lemma UnfinishedIsUnprocessed(s: System, e: Envelope)
    requires Inv(s) && Known(s.db.runs, e) && s.db.runs[e.run].status != Completed
    ensures e.job !in s.db.processed
  {
    if e.job in s.db.processed {
      ProcessedRunIsFinished(s.db, e);
    }
  }

  lemma WaitingIsKnown(s: System, m: Message)
    requires Inv(s) && m in s.queues.main
    ensures Known(s.db.runs, m.envelope)
  {
    assert Waits(s.queues, m);
  }

  /** A queued run, or a failed one of a store without a live run, syncs as soon as its message is delivered. */
  lemma DeliveredRunSyncs(s: System, w: ConsumerId, m: Message)
    requires Inv(s) && Offered(s, w, m)
    requires m.envelope.run in s.db.runs
    requires s.db.runs[m.envelope.run].status == Queued
             || (s.db.runs[m.envelope.run].status == Failed && !SomeLiveRun(s.db, m.envelope.tenant))
    ensures var next := Begin(s, w, m);
            next.Of(w).Syncing? && next.Of(w).raw == m
            && next.db.Owns(m.envelope.tenant, m.envelope.run, next.Of(w).lease) && next.db.stores == s.db.stores
  {
    WaitingIsKnown(s, m);
    UnfinishedIsUnprocessed(s, m.envelope);
    StartIsAnswered(s.db, m.envelope.tenant, m.envelope.run);
    LeasedBegins(s, w, m);
  }

  lemma LeasedBegins(s: System, w: ConsumerId, m: Message)
    requires Offered(s, w, m) && m.envelope.job !in s.db.processed
    requires TakeLease(s.db, m.envelope.tenant, m.envelope.run).result.Leased?
    ensures var next := Begin(s, w, m);
            next.Of(w).Syncing? && next.Of(w).raw == m
            && next.db.Owns(m.envelope.tenant, m.envelope.run, next.Of(w).lease) && next.db.stores == s.db.stores
  {
    TakeAndLookup(s, w, m);
    StartLeads(Step(Step(s, Consumer(w, Take(m))), Consumer(w, Lookup)), w, m);
  }

  /** While another run is live, the job comes back later with its attempt unchanged. */
  lemma DeliveredRunWaits(s: System, w: ConsumerId, m: Message)
    requires Inv(s) && Offered(s, w, m)
    requires m.envelope.run in s.db.runs && s.db.runs[m.envelope.run].status == Failed
    requires SomeLiveRun(s.db, m.envelope.tenant)
    ensures var next := Step(Begin(s, w, m), Consumer(w, HandOff(Confirmed)));
            && next.db == s.db && next.Of(w) == Acking(m)
            && exists copy :: copy in next.queues.retry && copy.envelope == m.envelope
                              && HeaderAttempt(copy.headers) == HeaderAttempt(m.headers)
  {
    WaitingIsKnown(s, m);
    UnfinishedIsUnprocessed(s, m.envelope);
    TakeAndLookup(s, w, m);
    StartIsAnswered(s.db, m.envelope.tenant, m.envelope.run);
    StartLeads(Step(Step(s, Consumer(w, Take(m))), Consumer(w, Lookup)), w, m);
    BusyHandOff(Begin(s, w, m), w, m);
  }

  lemma BusyHandOff(s: System, w: ConsumerId, m: Message)
    requires s.Of(w) == HandingOff(m, Cause(true, true, "sync_already_running"))
    ensures var next := Step(s, Consumer(w, HandOff(Confirmed)));
            && next.db == s.db && next.Of(w) == Acking(m)
            && exists copy :: copy in next.queues.retry && copy.envelope == m.envelope
                              && HeaderAttempt(copy.headers) == HeaderAttempt(m.headers)
  {
    var copy := RetryCopy(m, Cause(true, true, "sync_already_running"));
    assert copy in Step(s, Consumer(w, HandOff(Confirmed))).queues.retry;
  }

  // ---- A failed sync runs again --------------------------------------------------------------------

  /** FailSyncRun is written, the copy is confirmed, the original acknowledged, and the copy comes back. */
  function ComeBack(s: System, w: ConsumerId, copy: Message): System {
    var failed := Step(s, Syncer(w, FailSync(true)));
    var handed := Step(Step(failed, Consumer(w, HandOff(Confirmed))), Consumer(w, Acknowledge(true)));
    Step(handed, Expire(copy))
  }

  lemma FailingFails(s: System, w: ConsumerId, p: Phase)
    requires s.Of(w) == p && p.Failing?
    ensures var next := Step(s, Syncer(w, FailSync(true)));
            && next.Of(w) == HandingOff(p.raw, p.cause) && next.queues == s.queues && next.maxAttempts == s.maxAttempts
            && next.db == FailSyncRun(s.db, p.raw.envelope.tenant, p.raw.envelope.run, p.lease, p.cause.text)
  {
  }

  lemma HandOffRetries(s: System, w: ConsumerId, raw: Message, cause: Cause)
    requires s.Of(w) == HandingOff(raw, cause) && HandOffTarget(raw, cause, s.maxAttempts) == RetryQueue
    ensures var next := Step(Step(s, Consumer(w, HandOff(Confirmed))), Consumer(w, Acknowledge(true)));
            && next.Of(w).Idle? && next.db == s.db && w !in next.queues.unacked
            && RetryCopy(raw, cause) in next.queues.retry
  {
  }

  lemma ExpiryDelivers(s: System, w: ConsumerId, copy: Message)
    requires copy in s.queues.retry && w !in s.queues.unacked && s.Of(w).Idle?
    ensures var next := Step(s, Expire(copy)); Offered(next, w, copy) && next.db == s.db
  {
  }

  /**
   A retryable failure that was written and handed to the retry queue does not end the run: when
   the copy comes back, and nobody else started a run meanwhile, the worker syncs it again.
   */
  lemma FailedSyncRunsAgain(s: System, w: ConsumerId, raw: Message, lease: LeaseId, cause: Cause)
    requires Reachable(s) && s.Of(w) == Failing(raw, lease, cause)
    requires s.db.Owns(raw.envelope.tenant, raw.envelope.run, lease)
    requires HandOffTarget(raw, cause, s.maxAttempts) == RetryQueue
    ensures var copy := RetryCopy(raw, cause);
            var next := Begin(ComeBack(s, w, copy), w, copy);
            next.Of(w).Syncing? && next.Of(w).raw == copy && copy.envelope == raw.envelope
            && next.db.Owns(raw.envelope.tenant, raw.envelope.run, next.Of(w).lease)
  {
    var copy := RetryCopy(raw, cause);
    ReachableHolds(s);
    FailingFails(s, w, s.Of(w));
    var failed := Step(s, Syncer(w, FailSync(true)));
    HandOffRetries(failed, w, raw, cause);
    var handed := Step(Step(failed, Consumer(w, HandOff(Confirmed))), Consumer(w, Acknowledge(true)));
    ExpiryDelivers(handed, w, copy);
    ComeBackKeepsInv(s, w, copy);
    FailedIsAlone(s.db, raw.envelope.tenant, raw.envelope.run, lease, cause.text);
    DeliveredRunSyncs(ComeBack(s, w, copy), w, copy);
  }

  lemma ComeBackKeepsInv(s: System, w: ConsumerId, copy: Message)
    requires Inv(s)
    ensures Inv(ComeBack(s, w, copy))
  {
    var failed := Step(s, Syncer(w, FailSync(true)));
    StepKeepsInv(s, Syncer(w, FailSync(true)));
    StepKeepsInv(failed, Consumer(w, HandOff(Confirmed)));
    StepKeepsInv(Step(failed, Consumer(w, HandOff(Confirmed))), Consumer(w, Acknowledge(true)));
    StepKeepsInv(Step(Step(failed, Consumer(w, HandOff(Confirmed))), Consumer(w, Acknowledge(true))), Expire(copy));
  }

  lemma FailedIsAlone(db: Database, tenant: Tenant, run: RunId, lease: LeaseId, code: string)
    requires OneActive(db.runs) && db.Owns(tenant, run, lease)
    ensures var after := FailSyncRun(db, tenant, run, lease, code);
            run in after.runs && after.runs[run].status == Failed && !SomeLiveRun(after, tenant)
  {
    var after := FailSyncRun(db, tenant, run, lease, code);
    FailedColumns(db, tenant, run, lease, code);
    StartIsAnswered(after, tenant, run);
  }

  // ---- An unpublished row is published --------------------------------------------------------------

  /** How long the row is not due yet. */
  function Wait(db: Database, r: RunId): nat
    requires r in db.outbox
  {
    var due := if db.outbox[r].status == RowPublishing then db.outbox[r].updatedAt + 301 else db.outbox[r].availableAt;
    if due <= db.now then 0 else due - db.now
  }

  /** Wait, claim the row, publish its envelope with a confirmation, and settle it. */
  function Publish(s: System, r: RunId): System
    requires r in s.db.outbox
  {
    var claimed := Step(Step(s, Api(DoWait(Wait(s.db, r)))), Publisher(ClaimBatch({r})));
    Step(Step(claimed, Publisher(PublishClaim((s.nextClaim, r), Confirmed))), Publisher(SettleClaim((s.nextClaim, r))))
  }

  lemma WaitAndClaim(s: System, r: RunId)
    requires r in s.db.outbox && s.db.outbox[r].status != RowPublished
    ensures var next := Step(Step(s, Api(DoWait(Wait(s.db, r)))), Publisher(ClaimBatch({r})));
            && next.queues == s.queues && next.phases == s.phases && next.maxAttempts == s.maxAttempts
            && next.db.(outbox := s.db.outbox, now := s.db.now) == s.db && r in next.db.outbox
            && next.db.outbox[r].status == RowPublishing && next.db.outbox[r].envelope == s.db.outbox[r].envelope
            && (s.nextClaim, r) in next.claims
            && next.claims[(s.nextClaim, r)] == Claim(s.db.outbox[r].envelope, s.db.outbox[r].attempts, None)
  {
    var waited := Step(s, Api(DoWait(Wait(s.db, r))));
    assert (waited.nextClaim, r) in NewClaims(waited, {r});
  }

  lemma SendAndSettle(s: System, id: ClaimId, claim: Claim)
    requires id in s.claims && s.claims[id] == claim && claim.sent.None?
    requires claim.envelope.run in s.db.outbox && s.db.outbox[claim.envelope.run].status == RowPublishing
    ensures var next := Step(Step(s, Publisher(PublishClaim(id, Confirmed))), Publisher(SettleClaim(id)));
            && next.phases == s.phases && next.maxAttempts == s.maxAttempts
            && next.queues == s.queues.(main := s.queues.main + multiset{FreshMessage(claim.envelope)})
            && next.db.(outbox := s.db.outbox) == s.db && claim.envelope.run in next.db.outbox
            && next.db.outbox[claim.envelope.run].status == RowPublished
  {
  }

  /** Every row that is not published yet can be: its envelope then waits in the main queue, on its first attempt. */
  lemma UnpublishedCanBePublished(s: System, r: RunId)
    requires Reachable(s) && r in s.db.outbox && s.db.outbox[r].status != RowPublished
    ensures var next, m := Publish(s, r), Message(s.db.outbox[r].envelope, Headers(Some(Int32(1)), None, None));
            && m in next.queues.main && next.queues == s.queues.(main := s.queues.main + multiset{m})
            && r in next.db.outbox && next.db.outbox[r].status == RowPublished
            && next.db.(outbox := s.db.outbox, now := s.db.now) == s.db && next.phases == s.phases
  {
    ReachableHolds(s);
    assert s.db.outbox[r].envelope == EnvelopeOf(s.db.runs[r], r);
    WaitAndClaim(s, r);
    var claimed := Step(Step(s, Api(DoWait(Wait(s.db, r)))), Publisher(ClaimBatch({r})));
    SendAndSettle(claimed, (s.nextClaim, r), claimed.claims[(s.nextClaim, r)]);
  }

  lemma PublishKeepsInvariant(s: System, r: RunId)
    requires Inv(s) && r in s.db.outbox
    ensures Inv(Publish(s, r))
  {
    var waited := Step(s, Api(DoWait(Wait(s.db, r))));
    StepKeepsInv(s, Api(DoWait(Wait(s.db, r))));
    var claimed := Step(waited, Publisher(ClaimBatch({r})));
    StepKeepsInv(waited, Publisher(ClaimBatch({r})));
    StepKeepsInv(claimed, Publisher(PublishClaim((s.nextClaim, r), Confirmed)));
    StepKeepsInv(Step(claimed, Publisher(PublishClaim((s.nextClaim, r), Confirmed))),
                 Publisher(SettleClaim((s.nextClaim, r))));
  }

  // ---- A run that waits is completed -----------------------------------------------------------------

  /** ReplaceMirror commits, the job is recorded, and the message is acknowledged. */
  function Finish(s: System, w: ConsumerId, counts: Counts): System {
    var marked := Step(Step(s, Syncer(w, CommitSync(counts, None))), Consumer(w, Mark(true, true)));
    Step(marked, Consumer(w, Acknowledge(true)))
  }

  lemma CommitLeads(s: System, w: ConsumerId, m: Message, lease: LeaseId, counts: Counts)
    requires s.Of(w) == Syncing(m, lease)
    requires CommitMirror(s.db, m.envelope.tenant, m.envelope.run, lease, counts).result.Success?
    ensures var next := Step(s, Syncer(w, CommitSync(counts, None)));
            && next.Of(w) == Marking(m) && next.queues == s.queues
            && next.db == CommitMirror(s.db, m.envelope.tenant, m.envelope.run, lease, counts).db
  {
  }

  lemma MarkAndAck(s: System, w: ConsumerId, m: Message)
    requires s.Of(w) == Marking(m)
    ensures var next := Step(Step(s, Consumer(w, Mark(true, true))), Consumer(w, Acknowledge(true)));
            && next.Of(w).Idle? && w !in next.queues.unacked && m.envelope.job in next.db.processed
            && next.db.runs == s.db.runs && next.queues.main == s.queues.main
  {
  }

  /** The owner of a connected store's run can complete it and close its job. */
  lemma SyncingRunFinishes(s: System, w: ConsumerId, m: Message, lease: LeaseId, counts: Counts)
    requires Inv(s) && s.Of(w) == Syncing(m, lease)
    requires s.db.Owns(m.envelope.tenant, m.envelope.run, lease) && s.db.IsConnected(m.envelope.tenant)
    ensures var next := Finish(s, w, counts);
            && m.envelope.run in next.db.runs && next.db.runs[m.envelope.run].status == Completed
            && next.db.runs[m.envelope.run].counts == counts && m.envelope.job in next.db.processed
            && next.Of(w).Idle? && w !in next.queues.unacked
  {
    var e := m.envelope;
    CommitMirrorResult(s.db, e.tenant, e.run, lease, counts);
    CommittedColumns(s.db, e.tenant, e.run, lease, counts);
    CommitLeads(s, w, m, lease, counts);
    MarkAndAck(Step(s, Syncer(w, CommitSync(counts, None))), w, m);
  }

  /**
   No queued run of a connected store is beyond help while its row is unpublished: the row can be
   published, a free worker takes the message, and the run is completed.
   */
  lemma QueuedRunCanBeCompleted(s: System, r: RunId, w: ConsumerId, counts: Counts)
    requires Reachable(s) && r in s.db.runs && s.db.runs[r].status == Queued && s.db.IsConnected(s.db.runs[r].tenant)
    requires r in s.db.outbox && s.db.outbox[r].status != RowPublished && w !in s.queues.unacked && s.Of(w).Idle?
    ensures var m := Message(s.db.outbox[r].envelope, Headers(Some(Int32(1)), None, None));
            var next := Finish(Begin(Publish(s, r), w, m), w, counts);
            && r in next.db.runs && next.db.runs[r].status == Completed && s.db.runs[r].job in next.db.processed
  {
    ReachableHolds(s);
    assert s.db.outbox[r].envelope == EnvelopeOf(s.db.runs[r], r);
    var m := Message(s.db.outbox[r].envelope, Headers(Some(Int32(1)), None, None));
    UnpublishedCanBePublished(s, r);
    PublishKeepsInvariant(s, r);
    var published := Publish(s, r);
    DeliveredRunSyncs(published, w, m);
    BeginKeepsInv(published, w, m);
    var syncing := Begin(published, w, m);
    SyncingRunFinishes(syncing, w, m, syncing.Of(w).lease, counts);
  }

  lemma BeginKeepsInv(s: System, w: ConsumerId, m: Message)
    requires Inv(s)
    ensures Inv(Begin(s, w, m))
  {
    StepKeepsInv(s, Consumer(w, Take(m)));
    StepKeepsInv(Step(s, Consumer(w, Take(m))), Consumer(w, Lookup));
    StepKeepsInv(Step(Step(s, Consumer(w, Take(m))), Consumer(w, Lookup)), Syncer(w, Start(None)));
  }
}
