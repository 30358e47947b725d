/**
 What becomes of the run of a dead-lettered job: when the hand-off leaves it queued or
 running, and that such a run then blocks its store for good.
 */
module SyncBurial {
  import opened Common
  import opened SyncDatabase
  import opened SyncInvariants
  import opened Queue
  import opened SyncProtocol
  import opened SyncProtocolInvariants
  import opened SyncService
  import opened SyncSafety

  // ---- The run of a job on its way to the dead queue -------------------------------------------

  /** With this action worker w decides to dead-letter its job. */
  ghost predicate Condemns(s: System, w: ConsumerId, a: Action) {
    var next := Step(s, a).Of(w);
    && !s.Of(w).HandingOff? && next.HandingOff?
    && HandOffTarget(next.raw, next.cause, s.maxAttempts) == DeadQueue
  }

  predicate StillLive(db: Database, r: RunId) {
    r in db.runs && db.runs[r].Active()
  }

  /**
   No failure was written: the delivery did not decode, the job store or StartSyncRun failed, before
   or after its effect, or the deferred FailSyncRun was not written, or not under the run's lease.
   */
  predicate LeavesLive(s: System, w: ConsumerId, a: Action)
    requires !s.Of(w).Idle?
  {
    var e := s.Of(w).raw.envelope;
    match a
    case Consumer(_, Stumble(_)) => StillLive(s.db, e.run)
    case Syncer(_, Start(lost)) =>
      lost.Some? && (TakeLease(s.db, e.tenant, e.run).result.Leased? || StillLive(s.db, e.run))
    case Syncer(_, FailSync(written)) =>
      s.Of(w).Failing? && StillLive(s.db, e.run) && !(written && s.db.Owns(e.tenant, e.run, s.Of(w).lease))
    case _ => false
  }

  lemma BusyIsNeverBuried(raw: Message, maxAttempts: nat)
    ensures HandOffTarget(raw, BUSY, maxAttempts) == RetryQueue
  {
  }

  lemma CondemnedBySelf(s: System, w: ConsumerId, a: Action)
    requires Condemns(s, w, a)
    ensures (a.Syncer? && a.w == w && !a.sync.Renew?) || (a.Consumer? && a.w == w && !a.delivery.Disconnect?)
    ensures !s.Of(w).Idle?
  {
    if Foreign(a, w) {
      ForeignKeepsPhase(s, a, w);
      assert false;
    }
    if a.Consumer? {
      NoDeliveryCondemnsIdle(s, w, a.delivery);
    }
  }

  lemma NoDeliveryCondemnsIdle(s: System, w: ConsumerId, a: ConsumerAction)
    ensures s.Of(w).Idle? ==> !StepDelivery(s, w, a).Of(w).HandingOff?
  {
  }

  lemma StartCondemns(s: System, w: ConsumerId, raw: Message, lost: Option<bool>)
    requires s.Of(w) == Starting(raw) && Known(s.db.runs, raw.envelope)
    requires Condemns(s, w, Syncer(w, Start(lost)))
    ensures StillLive(Step(s, Syncer(w, Start(lost))).db, raw.envelope.run) <==>
            LeavesLive(s, w, Syncer(w, Start(lost)))
  {
    BusyIsNeverBuried(raw, s.maxAttempts);
  }

  lemma ReadStatusCondemns(s: System, w: ConsumerId, raw: Message)
    requires s.Of(w) == Rejected(raw) && Known(s.db.runs, raw.envelope) && Begun(s.db.runs, raw.envelope.run)
    requires Condemns(s, w, Syncer(w, ReadStatus))
    ensures !StillLive(s.db, raw.envelope.run) && Step(s, Syncer(w, ReadStatus)).db == s.db
  {
    BusyIsNeverBuried(raw, s.maxAttempts);
  }

  lemma FailCondemns(s: System, w: ConsumerId, p: Phase, written: bool)
    requires s.Of(w) == p && p.Failing? && Known(s.db.runs, p.raw.envelope)
    ensures var after := Step(s, Syncer(w, FailSync(written)));
            StillLive(after.db, p.raw.envelope.run) <==> LeavesLive(s, w, Syncer(w, FailSync(written)))
  {
  }

  lemma CommitCondemnsNothing(s: System, w: ConsumerId, counts: Counts, late: Option<bool>)
    requires s.Of(w).Syncing?
    ensures !StepSync(s, w, CommitSync(counts, late)).Of(w).HandingOff?
  {
  }

  lemma RenewingCondemnsNothing(s: System, w: ConsumerId, a: SyncAction)
    requires a.Renew? || a.Abort? || (a.Start? && !s.Of(w).Starting?) || (a.ReadStatus? && !s.Of(w).Rejected?)
             || (a.FailSync? && !s.Of(w).Failing?) || (a.CommitSync? && !s.Of(w).Syncing?)
    ensures StepSync(s, w, a).Of(w).HandingOff? ==> s.Of(w).HandingOff?
  {
  }

  lemma SyncCondemns(s: System, w: ConsumerId, a: SyncAction)
    requires PhaseFits(s.db.runs, s.maxAttempts, s.queues, w, s.Of(w))
    requires Condemns(s, w, Syncer(w, a)) && !s.Of(w).Idle?
    ensures var r := s.Of(w).raw.envelope.run;
            StillLive(Step(s, Syncer(w, a)).db, r) <==> LeavesLive(s, w, Syncer(w, a))
  {
    var p := s.Of(w);
    if a.Start? && p.Starting? {
      StartCondemns(s, w, p.raw, a.lost);
    } else if a.ReadStatus? && p.Rejected? {
      ReadStatusCondemns(s, w, p.raw);
    } else if a.FailSync? && p.Failing? {
      FailCondemns(s, w, p, a.written);
    } else if a.CommitSync? && p.Syncing? {
      CommitCondemnsNothing(s, w, a.counts, a.late);
    } else {
      RenewingCondemnsNothing(s, w, a);
    }
  }

  lemma StumbleCondemns(s: System, w: ConsumerId, retryable: bool)
    requires !s.Of(w).Idle?
    ensures var a := Consumer(w, Stumble(retryable));
            Step(s, a).db == s.db && (LeavesLive(s, w, a) <==> StillLive(s.db, s.Of(w).raw.envelope.run))
  {
  }

  lemma MarkCondemns(s: System, w: ConsumerId, written: bool, heard: bool)
    requires s.Of(w).Marking? && Finished(s.db.runs, s.Of(w).raw.envelope.run)
    ensures var a := Consumer(w, Mark(written, heard));
            Finished(Step(s, a).db.runs, s.Of(w).raw.envelope.run) && !LeavesLive(s, w, a)
  {
  }

  lemma OtherDeliveriesCondemnNothing(s: System, w: ConsumerId, a: ConsumerAction)
    requires !a.Stumble? && !(a.Mark? && s.Of(w).Marking?)
    ensures StepDelivery(s, w, a).Of(w).HandingOff? ==> s.Of(w).HandingOff?
  {
  }

  lemma DeliveryCondemns(s: System, w: ConsumerId, a: ConsumerAction)
    requires PhaseFits(s.db.runs, s.maxAttempts, s.queues, w, s.Of(w))
    requires Condemns(s, w, Consumer(w, a)) && !s.Of(w).Idle?
    ensures var r := s.Of(w).raw.envelope.run;
            StillLive(Step(s, Consumer(w, a)).db, r) <==> LeavesLive(s, w, Consumer(w, a))
  {
    if a.Stumble? {
      StumbleCondemns(s, w, a.retryable);
    } else if a.Mark? && s.Of(w).Marking? {
      MarkCondemns(s, w, a.written, a.heard);
    } else {
      OtherDeliveriesCondemnNothing(s, w, a);
    }
  }

  /** When a worker decides to dead-letter its job, this is when the run stays queued or running. */
  lemma BuriedJobsRun(s: System, w: ConsumerId, a: Action)
    requires Reachable(s) && Condemns(s, w, a)
    ensures !s.Of(w).Idle?
    ensures StillLive(Step(s, a).db, s.Of(w).raw.envelope.run) <==> LeavesLive(s, w, a)
  {
    ReachableHolds(s);
    CondemnedBySelf(s, w, a);
    assert PhaseFits(s.db.runs, s.maxAttempts, s.queues, w, s.Of(w));
    if a.Syncer? {
      SyncCondemns(s, w, a.sync);
    } else {
      DeliveryCondemns(s, w, a.delivery);
    }
  }

  // ---- What a buried job can still do: nothing --------------------------------------------------

  ghost predicate AllSpare(messages: multiset<Message>, r: RunId) {
    forall m :: m in messages ==> m.envelope.run != r
  }

  ghost predicate HandsSpare(unacked: map<ConsumerId, Message>, r: RunId) {
    forall w :: w in unacked ==> unacked[w].envelope.run != r
  }

  ghost predicate QueuesSilent(q: Queues, r: RunId) {
    AllSpare(q.main, r) && AllSpare(q.retry, r) && HandsSpare(q.unacked, r)
  }

  ghost predicate WorkerSilent(p: Phase, r: RunId) {
    p.Idle? || p.raw.envelope.run != r
  }

  ghost predicate WorkersSilent(s: System, r: RunId) {
    forall w: ConsumerId :: WorkerSilent(s.Of(w), r)
  }

  ghost predicate ClaimsSilent(claims: map<ClaimId, Claim>, r: RunId) {
    forall id :: id in claims ==> claims[id].envelope.run != r
  }

  /** The row is published, and only the dead queue may still hold the run's message. */
  ghost predicate Silent(s: System, r: RunId) {
    && r in s.db.runs && r in s.db.outbox && s.db.outbox[r].status == RowPublished
    && Quiet(s, r)
  }

  /** r is live, and nobody is left to do anything about it. */
  ghost predicate Stuck(s: System, r: RunId) {
    Silent(s, r) && StillLive(s.db, r)
  }

  lemma MoveStaysSilent(s: System, after: System, w: ConsumerId, r: RunId)
    requires WorkersSilent(s, r) && WorkerSilent(after.Of(w), r)
    requires forall v: ConsumerId :: v != w ==> after.Of(v) == s.Of(v)
    ensures WorkersSilent(after, r)
  {
    forall v: ConsumerId ensures WorkerSilent(after.Of(v), r) {
      assert WorkerSilent(s.Of(v), r);
    }
  }

  lemma PublishStaysSilent(q: Queues, name: QueueName, m: Message, outcome: PublishOutcome, r: RunId)
    requires QueuesSilent(q, r) && m.envelope.run != r
    ensures QueuesSilent(Published(q, name, m, outcome), r)
  {
  }

  lemma RequeueStaysSilent(q: Queues, w: ConsumerId, r: RunId)
    requires QueuesSilent(q, r)
    ensures QueuesSilent(Requeued(q, w), r) && QueuesSilent(Acked(q, w), r)
  {
  }

  lemma ClaimsStaySilent(s: System, runs: set<RunId>, r: RunId)
    requires Rows(s.db.runs, s.db.outbox) && ClaimsSilent(s.claims, r)
    requires r in s.db.outbox && s.db.outbox[r].status == RowPublished
    ensures ClaimsSilent(s.claims + NewClaims(s, runs), r)
  {
    forall id | id in NewClaims(s, runs) ensures NewClaims(s, runs)[id].envelope.run != r {
      assert s.db.outbox[id.1].envelope == EnvelopeOf(s.db.runs[id.1], id.1);
    }
  }

  lemma SendStaysSilent(s: System, id: ClaimId, outcome: PublishOutcome, r: RunId)
    requires QueuesSilent(s.queues, r) && ClaimsSilent(s.claims, r) && id in s.claims
    ensures var after := StepPublish(s, id, s.claims[id], outcome);
            QueuesSilent(after.queues, r) && after.phases == s.phases && ClaimsSilent(after.claims, r)
  {
    PublishStaysSilent(s.queues, MainQueue, FreshMessage(s.claims[id].envelope), outcome, r);
  }

  lemma OutboxStaysSilent(s: System, a: OutboxAction, r: RunId)
    requires Rows(s.db.runs, s.db.outbox) && Silent(s, r)
    ensures var after := StepOutbox(s, a);
            QueuesSilent(after.queues, r) && after.phases == s.phases && ClaimsSilent(after.claims, r)
  {
    match a
    case ClaimBatch(runs) => ClaimsStaySilent(s, runs, r);
    case PublishClaim(id, outcome) => if id in s.claims { SendStaysSilent(s, id, outcome, r); }
    case _ =>
  }

  lemma SyncStaysSilent(s: System, w: ConsumerId, a: SyncAction, r: RunId)
    requires WorkerSilent(s.Of(w), r)
    ensures var after := StepSync(s, w, a);
            after.queues == s.queues && after.claims == s.claims && WorkerSilent(after.Of(w), r)
  {
  }

  lemma TakeStaysSilent(s: System, w: ConsumerId, m: Message, r: RunId)
    requires QueuesSilent(s.queues, r) && WorkerSilent(s.Of(w), r)
    ensures var after := StepDeliver(s, w, m);
            QueuesSilent(after.queues, r) && after.claims == s.claims && WorkerSilent(after.Of(w), r)
  {
    assert m in s.queues.main ==> m.envelope.run != r;
  }

  lemma HandOffStaysSilent(s: System, w: ConsumerId, raw: Message, cause: Cause, outcome: PublishOutcome, r: RunId)
    requires QueuesSilent(s.queues, r) && raw.envelope.run != r
    ensures var after := StepHandOff(s, w, raw, cause, outcome);
            QueuesSilent(after.queues, r) && after.claims == s.claims && WorkerSilent(after.Of(w), r)
  {
    var name, copy := HandOffTarget(raw, cause, s.maxAttempts), HandOffCopy(raw, cause, s.maxAttempts);
    PublishStaysSilent(s.queues, name, copy, outcome, r);
    RequeueStaysSilent(Published(s.queues, name, copy, outcome), w, r);
  }

  lemma HandlingStaysSilent(s: System, w: ConsumerId, a: ConsumerAction, r: RunId)
    requires !MovesMessage(a) && WorkerSilent(s.Of(w), r)
    ensures var after := StepDelivery(s, w, a);
            after.queues == s.queues && after.claims == s.claims && WorkerSilent(after.Of(w), r)
  {
  }

  lemma DeliveryStaysSilent(s: System, w: ConsumerId, a: ConsumerAction, r: RunId)
    requires QueuesSilent(s.queues, r) && WorkerSilent(s.Of(w), r)
    ensures var after := StepDelivery(s, w, a);
            QueuesSilent(after.queues, r) && after.claims == s.claims && WorkerSilent(after.Of(w), r)
  {
    RequeueStaysSilent(s.queues, w, r);
    match a
    case Take(m) => TakeStaysSilent(s, w, m, r);
    case HandOff(outcome) =>
      if s.Of(w).HandingOff? { HandOffStaysSilent(s, w, s.Of(w).raw, s.Of(w).cause, outcome, r); }
    case Acknowledge(_) =>
    case Disconnect =>
    case Crash =>
    case _ => HandlingStaysSilent(s, w, a, r);
  }

  lemma ExpiryStaysSilent(s: System, m: Message, r: RunId)
    requires QueuesSilent(s.queues, r)
    ensures var after := StepExpire(s, m);
            QueuesSilent(after.queues, r) && after.claims == s.claims && after.phases == s.phases
  {
    if m in s.queues.retry {
      assert AllSpare(s.queues.retry - multiset{m}, r) && AllSpare(s.queues.main + multiset{m}, r);
    }
  }

  lemma StillWorkersStaySilent(s: System, after: System, r: RunId)
    requires WorkersSilent(s, r) && after.phases == s.phases
    ensures WorkersSilent(after, r)
  {
    forall v: ConsumerId ensures WorkerSilent(after.Of(v), r) {
      assert WorkerSilent(s.Of(v), r);
    }
  }

  ghost predicate Quiet(s: System, r: RunId) {
    QueuesSilent(s.queues, r) && WorkersSilent(s, r) && ClaimsSilent(s.claims, r)
  }

  lemma WorkerStaysSilent(s: System, a: Action, r: RunId)
    requires Quiet(s, r) && (a.Syncer? || a.Consumer?)
    ensures Quiet(Step(s, a), r)
  {
    assert WorkerSilent(s.Of(a.w), r);
    if a.Syncer? {
      SyncStaysSilent(s, a.w, a.sync, r);
      SyncKeepsPhases(s, a.w, a.sync);
      MoveStaysSilent(s, StepSync(s, a.w, a.sync), a.w, r);
    } else {
      DeliveryStaysSilent(s, a.w, a.delivery, r);
      DeliveryMovesLeases(s, a.w, a.delivery);
      MoveStaysSilent(s, StepDelivery(s, a.w, a.delivery), a.w, r);
    }
  }

  lemma StepStaysSilent(s: System, a: Action, r: RunId)
    requires Rows(s.db.runs, s.db.outbox) && Silent(s, r)
    ensures Quiet(Step(s, a), r)
  {
    match a
    case Api(_) => StillWorkersStaySilent(s, Step(s, a), r);
    case Publisher(o) => OutboxStaysSilent(s, o, r); StillWorkersStaySilent(s, StepOutbox(s, o), r);
    case Expire(m) => ExpiryStaysSilent(s, m, r); StillWorkersStaySilent(s, StepExpire(s, m), r);
    case _ => WorkerStaysSilent(s, a, r);
  }

  lemma SyncKeepsPhases(s: System, w: ConsumerId, a: SyncAction)
    ensures forall v: ConsumerId :: v != w ==> StepSync(s, w, a).Of(v) == s.Of(v)
  {
    forall v: ConsumerId | v != w ensures StepSync(s, w, a).Of(v) == s.Of(v) {
      SyncKeepsOthers(s, w, a, v);
    }
  }

  /** Worker w has the run's only message in hand. */
  ghost predicate LastInHandsOf(s: System, w: ConsumerId, r: RunId) {
    && r in s.db.runs && r in s.db.outbox && s.db.outbox[r].status == RowPublished
    && AllSpare(s.queues.main, r) && AllSpare(s.queues.retry, r) && HandsSpare(s.queues.unacked - {w}, r)
    && (forall v: ConsumerId :: v == w || WorkerSilent(s.Of(v), r)) && ClaimsSilent(s.claims, r)
  }

  lemma BuryingQueues(q: Queues, w: ConsumerId, copy: Message, r: RunId)
    requires AllSpare(q.main, r) && AllSpare(q.retry, r) && HandsSpare(q.unacked - {w}, r)
    ensures QueuesSilent(HandedOff(q, w, DeadQueue, copy, Confirmed, true), r)
  {
  }

  lemma BuryingSteps(s: System, w: ConsumerId, raw: Message, cause: Cause)
    requires s.Of(w) == HandingOff(raw, cause) && HandOffTarget(raw, cause, s.maxAttempts) == DeadQueue
    ensures var after := Step(Step(s, Consumer(w, HandOff(Confirmed))), Consumer(w, Acknowledge(true)));
            && after.queues == HandedOff(s.queues, w, DeadQueue, DeadCopy(raw, cause), Confirmed, true)
            && after.db == s.db && after.claims == s.claims && after.Of(w).Idle?
            && (forall v: ConsumerId :: v != w ==> after.Of(v) == s.Of(v))
  {
  }

  /** Once the last message of a run is dead-lettered, the run is silent, as live as it was. */
  lemma BuryingSilences(s: System, w: ConsumerId, raw: Message, cause: Cause)
    requires s.Of(w) == HandingOff(raw, cause) && HandOffTarget(raw, cause, s.maxAttempts) == DeadQueue
    requires LastInHandsOf(s, w, raw.envelope.run)
    ensures var after := Step(Step(s, Consumer(w, HandOff(Confirmed))), Consumer(w, Acknowledge(true)));
            && Silent(after, raw.envelope.run) && after.db == s.db
            && (Stuck(after, raw.envelope.run) <==> StillLive(s.db, raw.envelope.run))
  {
    var r := raw.envelope.run;
    var after := Step(Step(s, Consumer(w, HandOff(Confirmed))), Consumer(w, Acknowledge(true)));
    BuryingSteps(s, w, raw, cause);
    BuryingQueues(s.queues, w, DeadCopy(raw, cause), r);
    forall v: ConsumerId ensures WorkerSilent(after.Of(v), r) {
      assert v == w || WorkerSilent(s.Of(v), r);
    }
  }

  // ---- And nobody else can do anything for its store ------------------------------------------------

  /** Nothing was committed for the tenant in between. */
  ghost predicate NoNewMirror(before: seq<Commit>, after: seq<Commit>, tenant: Tenant) {
    && before <= after
    && forall i :: |before| <= i < |after| ==> after[i].tenant != tenant
  }

  lemma SparedRow(db: Database, t: Transaction, r: RunId)
    requires db.nextId !in db.runs && r in db.runs && !t.DoCommit? && !t.DoRecord? && (ConcernsRun(t) ==> t.run != r)
    ensures r in Apply(db, t).runs && Apply(db, t).runs[r] == db.runs[r]
    ensures Apply(db, t).history.commits == db.history.commits
  {
  }

  lemma RecordSparesRow(db: Database, t: Transaction, r: RunId)
    requires db.nextId !in db.runs && r in db.runs && t.DoRecord?
    ensures r in Apply(db, t).runs && Apply(db, t).runs[r] == db.runs[r]
    ensures Apply(db, t).history.commits == db.history.commits
  {
  }

  /** The one live run of the store is r, so no other run of the store can commit. */
  lemma CommitSparesStore(db: Database, t: Transaction, r: RunId)
    requires Tabled(db) && StillLive(db, r) && t.DoCommit? && t.run != r
    ensures r in Apply(db, t).runs && Apply(db, t).runs[r] == db.runs[r]
    ensures NoNewMirror(db.history.commits, Apply(db, t).history.commits, db.runs[r].tenant)
  {
    CommitMirrorResult(db, t.tenant, t.run, t.lease, t.counts);
    NextIdIsFresh(db);
    assert ActiveIn(db.runs, r);
    if db.Owns(t.tenant, t.run, t.lease) {
      assert ActiveIn(db.runs, t.run);
    }
  }

  lemma StoreIsSpared(db: Database, t: Transaction, r: RunId)
    requires Tabled(db) && StillLive(db, r) && (ConcernsRun(t) ==> t.run != r)
    ensures r in Apply(db, t).runs && Apply(db, t).runs[r] == db.runs[r]
    ensures NoNewMirror(db.history.commits, Apply(db, t).history.commits, db.runs[r].tenant)
  {
    NextIdIsFresh(db);
    if t.DoCommit? {
      CommitSparesStore(db, t, r);
    } else if t.DoRecord? {
      RecordSparesRow(db, t, r);
    } else {
      SparedRow(db, t, r);
    }
  }

  /** Still stuck, with its row as it was and no mirror of its store committed meanwhile. */
  ghost predicate StuckSince(s: System, after: System, r: RunId) {
    && Stuck(s, r) && Stuck(after, r) && after.db.runs[r] == s.db.runs[r]
    && NoNewMirror(s.db.history.commits, after.db.history.commits, s.db.runs[r].tenant)
  }

  lemma StepStaysStuck(s: System, a: Action, r: RunId)
    requires Inv(s) && Stuck(s, r)
    ensures StuckSince(s, Step(s, a), r)
  {
    StepStaysSilent(s, a, r);
    var t := StepTransaction(s, a);
    assert a.Syncer? ==> WorkerSilent(s.Of(a.w), r);
    StoreIsSpared(s.db, t, r);
    PublishedStays(s.db, t);
  }

  lemma StuckThrough(s: System, between: System, after: System, r: RunId)
    requires StuckSince(s, between, r) && StuckSince(between, after, r)
    ensures StuckSince(s, after, r)
  {
    var tenant := s.db.runs[r].tenant;
    forall i | |s.db.history.commits| <= i < |after.db.history.commits|
      ensures after.db.history.commits[i].tenant != tenant
    {
      assert i < |between.db.history.commits| ==> after.db.history.commits[i] == between.db.history.commits[i];
    }
  }

  lemma {:induction false} StaysStuck(s: System, actions: seq<Action>, r: RunId)
    requires Inv(s) && Stuck(s, r)
    ensures Inv(Execute(s, actions)) && StuckSince(s, Execute(s, actions), r)
    decreases |actions|
  {
    if actions == [] {
      assert NoNewMirror(s.db.history.commits, s.db.history.commits, s.db.runs[r].tenant);
    } else {
      var next := Step(s, actions[0]);
      StepStaysStuck(s, actions[0], r);
      StepKeepsInv(s, actions[0]);
      StaysStuck(next, actions[1..], r);
      StuckThrough(s, next, Execute(next, actions[1..]), r);
    }
  }

  /**
   A live run whose message is only in the dead queue blocks its store for good: whatever happens
   next, the run stays as it is, no run of the store can be created or take a lease, and no mirror
   of the store is ever committed again.
   */
  lemma BuriedLiveRunBlocksItsStore(s: System, r: RunId, actions: seq<Action>)
    requires Reachable(s) && Stuck(s, r)
    ensures var after, tenant := Execute(s, actions), s.db.runs[r].tenant;
            && r in after.db.runs && after.db.runs[r] == s.db.runs[r]
            && (forall mode :: CreateSyncRun(after.db, tenant, mode).result.Failure?)
            && (forall other :: other != r ==> !TakeLease(after.db, tenant, other).result.Leased?)
            && NoNewMirror(s.db.history.commits, after.db.history.commits, tenant)
  {
    ReachableHolds(s);
    StaysStuck(s, actions, r);
    StuckStoreRefuses(Execute(s, actions), r);
  }

  lemma StuckStoreRefuses(s: System, r: RunId)
    requires Inv(s) && Stuck(s, r)
    ensures forall mode :: CreateSyncRun(s.db, s.db.runs[r].tenant, mode).result.Failure?
    ensures forall other :: other != r ==> !TakeLease(s.db, s.db.runs[r].tenant, other).result.Leased?
  {
    assert s.db.HasActive(s.db.runs[r].tenant);
    forall other | other != r ensures !TakeLease(s.db, s.db.runs[r].tenant, other).result.Leased? {
      assert ActiveIn(s.db.runs, r);
      assert ActiveIn(s.db.runs, other) ==> s.db.runs[other].tenant != s.db.runs[r].tenant;
    }
  }
}
