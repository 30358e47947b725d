/** Reachable states that show what the exceptional cases of SyncSafety and SyncBurial speak of. */
module SyncWitness {
  import opened Common
  import opened SyncDatabase
  import opened Queue
  import opened SyncProtocol
  import opened SyncSafety
  import opened SyncBurial

  lemma {:induction false} ExecuteOneMore(s: System, actions: seq<Action>, a: Action)
    ensures Execute(s, actions + [a]) == Step(Execute(s, actions), a)
    decreases |actions|
  {
    if actions == [] {
      assert [] + [a] == [a] && [a][1..] == [];
      assert Execute(s, [a]) == Execute(Step(s, a), []);
    } else {
      assert (actions + [a])[0] == actions[0] && (actions + [a])[1..] == actions[1..] + [a];
      ExecuteOneMore(Step(s, actions[0]), actions[1..], a);
    }
  }

  lemma ReachableStep(s: System, a: Action)
    requires Reachable(s)
    ensures Reachable(Step(s, a))
  {
    var start, actions :| Reaches(start, actions, s);
    ExecuteOneMore(start, actions, a);
    assert Reaches(start, actions + [a], Step(s, a));
  }

  const SHOP := Tenant("organization", "store")
  const JOB := Envelope(GeneratedJob(0), SHOP, 0, Full)

  function Begin(): System {
    System(Database(0, 0, map[SHOP := Store(Connected, false)], map[], map[], {}, {}, History(0, map[], {}, [])),
           Queues(multiset{}, multiset{}, multiset{}, map[]), map[], map[], 0, {}, 5)
  }

  lemma BeginIsReachable()
    ensures Reachable(Begin())
  {
    assert Execute(Begin(), []) == Begin();
    assert Reaches(Begin(), [], Begin());
  }

  /** One connected store and one queued run, whose message waits in the main queue on its first attempt. */
  ghost predicate Waiting(s: System) {
    && Reachable(s) && s.maxAttempts == 5 && s.db.now == 0 && s.db.nextId == 1
    && s.db.stores == map[SHOP := Store(Connected, false)] && s.db.processed == {} && s.db.webhooks == {}
    && s.db.runs == map[0 := NewRun(SHOP, GeneratedJob(0), Full)]
    && s.db.outbox.Keys == {0} && s.db.outbox[0].status == RowPublished
    && s.queues == Queues(multiset{FreshMessage(JOB)}, multiset{}, multiset{}, map[])
    && s.phases == map[] && s.claims == map[]
  }

  /** The run and its outbox row exist; nothing is published yet. */
  ghost predicate Created(s: System) {
    && Reachable(s) && s.maxAttempts == 5 && s.db.now == 0 && s.db.nextId == 1
    && s.db.stores == map[SHOP := Store(Connected, false)] && s.db.processed == {} && s.db.webhooks == {}
    && s.db.runs == map[0 := NewRun(SHOP, GeneratedJob(0), Full)]
    && s.db.outbox == map[0 := OutboxRow(JOB, RowPending, 0, 0, 0, 0)]
    && s.queues == Queues(multiset{}, multiset{}, multiset{}, map[])
    && s.phases == map[] && s.claims == map[] && s.nextClaim == 0
  }

  lemma CreatedIsReachable() returns (s: System)
    ensures Created(s)
  {
    BeginIsReachable();
    s := Step(Begin(), Api(DoCreate(SHOP, "full")));
    ReachableStep(Begin(), Api(DoCreate(SHOP, "full")));
  }

  /** A publisher has claimed the row. */
  ghost predicate Claimed(s: System) {
    && Reachable(s) && s.maxAttempts == 5 && s.db.now == 0 && s.db.nextId == 1
    && s.db.stores == map[SHOP := Store(Connected, false)] && s.db.processed == {} && s.db.webhooks == {}
    && s.db.runs == map[0 := NewRun(SHOP, GeneratedJob(0), Full)]
    && s.db.outbox.Keys == {0} && s.db.outbox[0].status == RowPublishing
    && s.queues == Queues(multiset{}, multiset{}, multiset{}, map[]) && s.phases == map[]
    && s.claims == map[(0, 0) := Claim(JOB, 0, None)]
  }

  lemma ClaimTakesTheRow(s: System)
    requires s.db.now == 0 && s.db.outbox == map[0 := OutboxRow(JOB, RowPending, 0, 0, 0, 0)] && s.nextClaim == 0
    ensures NewClaims(s, {0}) == map[(0, 0) := Claim(JOB, 0, None)]
    ensures var after := Step(s, Publisher(ClaimBatch({0}))).db.outbox;
            after.Keys == {0} && after[0].status == RowPublishing
  {
  }

  lemma ClaimKeepsTheRest(s: System)
    ensures var after := Step(s, Publisher(ClaimBatch({0})));
            && after.db.(outbox := s.db.outbox) == s.db && after.queues == s.queues && after.phases == s.phases
            && after.maxAttempts == s.maxAttempts && after.claims == s.claims + NewClaims(s, {0})
  {
  }

  lemma ClaimedIsReachable() returns (s: System)
    ensures Claimed(s)
  {
    var created := CreatedIsReachable();
    s := Step(created, Publisher(ClaimBatch({0})));
    ReachableStep(created, Publisher(ClaimBatch({0})));
    ClaimTakesTheRow(created);
    ClaimKeepsTheRest(created);
  }

  lemma WaitingIsReachable() returns (s: System)
    ensures Waiting(s)
  {
    var claimed := ClaimedIsReachable();
    var sent := Step(claimed, Publisher(PublishClaim((0, 0), Confirmed)));
    ReachableStep(claimed, Publisher(PublishClaim((0, 0), Confirmed)));
    assert sent.claims == map[(0, 0) := Claim(JOB, 0, Some(true))];
    s := Step(sent, Publisher(SettleClaim((0, 0))));
    ReachableStep(sent, Publisher(SettleClaim((0, 0))));
  }

  /** Worker 0 is about to ask for the lease, and has the only message. */
  ghost predicate Asking(s: System) {
    && Reachable(s) && s.maxAttempts == 5 && s.db.now == 0 && s.db.nextId == 1
    && s.db.stores == map[SHOP := Store(Connected, false)] && s.db.processed == {} && s.db.webhooks == {}
    && s.db.runs == map[0 := NewRun(SHOP, GeneratedJob(0), Full)]
    && s.db.outbox.Keys == {0} && s.db.outbox[0].status == RowPublished
    && s.queues == Queues(multiset{}, multiset{}, multiset{}, map[0 := FreshMessage(JOB)])
    && s.phases == map[0 := Starting(FreshMessage(JOB))] && s.claims == map[]
  }

  lemma AskingIsReachable() returns (s: System)
    ensures Asking(s)
  {
    var waiting := WaitingIsReachable();
    var m := FreshMessage(JOB);
    var received := Step(waiting, Consumer(0, Take(m)));
    ReachableStep(waiting, Consumer(0, Take(m)));
    assert received.phases == map[0 := Received(m)] && received.queues.main == multiset{};
    s := Step(received, Consumer(0, Lookup));
    ReachableStep(received, Consumer(0, Lookup));
    assert s.phases == map[0 := Starting(m)];
  }

  /** Worker 0 holds the first lease of the run. */
  ghost predicate Leased(s: System) {
    && Reachable(s) && s.maxAttempts == 5 && s.db.now == 0 && s.db.nextId == 2
    && s.db.stores == map[SHOP := Store(Connected, false)] && s.db.webhooks == {}
    && 0 in s.db.runs && s.db.runs.Keys == {0} && s.db.runs[0].tenant == SHOP && s.db.runs[0].status == Running
    && s.db.runs[0].leaseOwner == Some(1) && s.db.runs[0].leaseExpiresAt == Some(LEASE_SECONDS)
    && s.Of(0) == Syncing(FreshMessage(JOB), 1)
  }

  lemma LeasedIsReachable() returns (s: System)
    ensures Leased(s)
  {
    var asking := AskingIsReachable();
    assert asking.Of(0) == Starting(FreshMessage(JOB));
    s := Step(asking, Syncer(0, Start(None)));
    ReachableStep(asking, Syncer(0, Start(None)));
  }

  /** The lease has expired, nobody took it over, and the mirror still commits. */
  lemma ExpiredLeaseCommits() returns (s: System)
    ensures Reachable(s) && s.db.Owns(SHOP, 0, 1)
    ensures s.db.runs[0].leaseExpiresAt.Some? && s.db.runs[0].leaseExpiresAt.value < s.db.now
    ensures CommitMirror(s.db, SHOP, 0, 1, Counts(0, 0, 0, 0)).result.Success?
  {
    var leased := LeasedIsReachable();
    s := Step(leased, Api(DoWait(1000)));
    ReachableStep(leased, Api(DoWait(1000)));
  }

  lemma FlaggedIsReachable() returns (s: System)
    ensures Reachable(s) && s.db.Owns(SHOP, 0, 1) && s.db.stores == map[SHOP := Store(Connected, true)]
  {
    var leased := LeasedIsReachable();
    assert leased.db.HasActive(SHOP);
    assert TopicTriggersMirror("products/update");
    s := Step(leased, Api(DoRecord(SHOP, "webhook", "products/update")));
    ReachableStep(leased, Api(DoRecord(SHOP, "webhook", "products/update")));
  }

  /** A change is flagged, the store is disconnected, and the owner's mirror is rolled back. */
  lemma FlaggedAndDisconnectedRollsBack() returns (s: System)
    ensures Reachable(s) && s.db.Owns(SHOP, 0, 1)
    ensures CommitMirror(s.db, SHOP, 0, 1, Counts(0, 0, 0, 0)) == Tx(s.db, Failure(NotConnected))
  {
    var flagged := FlaggedIsReachable();
    s := Step(flagged, Api(DoPutStatus(SHOP, Disconnected)));
    ReachableStep(flagged, Api(DoPutStatus(SHOP, Disconnected)));
  }

  /** Two workers hold the message; worker 0 has the lease and worker 1 is about to ask for it. */
  ghost predicate Doubled(s: System) {
    && Reachable(s) && s.db.now == 0 && s.maxAttempts == 5
    && 0 in s.db.runs && s.db.runs[0].tenant == SHOP && s.db.runs[0].status == Running
    && s.db.runs[0].leaseOwner == Some(1) && s.db.runs[0].leaseExpiresAt == Some(LEASE_SECONDS)
    && s.Of(0) == Syncing(FreshMessage(JOB), 1) && s.Of(1) == Starting(FreshMessage(JOB))
  }

  lemma DoubledIsReachable() returns (s: System)
    ensures Doubled(s)
  {
    var waiting := WaitingIsReachable();
    var m := FreshMessage(JOB);
    var one := Step(waiting, Consumer(0, Take(m)));
    ReachableStep(waiting, Consumer(0, Take(m)));
    var lost := Step(one, Consumer(0, Disconnect));
    ReachableStep(one, Consumer(0, Disconnect));
    assert m in lost.queues.main && 1 !in lost.queues.unacked && lost.Of(1).Idle?;
    var two := Step(lost, Consumer(1, Take(m)));
    ReachableStep(lost, Consumer(1, Take(m)));
    assert two.Of(0) == Received(m) && two.Of(1) == Received(m);
    s := DoubleStarts(two);
  }

  lemma DoubleStarts(two: System) returns (s: System)
    requires Reachable(two) && two.db.now == 0 && two.db.nextId == 1 && two.maxAttempts == 5 && two.db.processed == {}
    requires two.db.runs == map[0 := NewRun(SHOP, GeneratedJob(0), Full)]
    requires two.Of(0) == Received(FreshMessage(JOB)) && two.Of(1) == Received(FreshMessage(JOB))
    ensures Doubled(s)
  {
    var first := Step(two, Consumer(0, Lookup));
    ReachableStep(two, Consumer(0, Lookup));
    var second := Step(first, Consumer(1, Lookup));
    ReachableStep(first, Consumer(1, Lookup));
    s := Step(second, Syncer(0, Start(None)));
    ReachableStep(second, Syncer(0, Start(None)));
  }

  /**
   Worker 1 is refused because worker 0 holds the lease, and worker 0 fails before worker 1
   reads the status: the job goes to the dead queue on its first attempt.
   */
  lemma RejectedStartCanBeBuried() returns (s: System)
    ensures Reachable(s) && s.Of(1) == Rejected(FreshMessage(JOB)) && HeaderAttempt(FreshMessage(JOB).headers) == 1
    ensures 0 in s.db.runs && s.db.runs[0].status == Failed
    ensures var next := StepReadStatus(s, 1, FreshMessage(JOB)).Of(1);
            next.HandingOff? && HandOffTarget(next.raw, next.cause, s.maxAttempts) == DeadQueue
  {
    var doubled := DoubledIsReachable();
    var refused := Step(doubled, Syncer(1, Start(None)));
    ReachableStep(doubled, Syncer(1, Start(None)));
    assert refused.Of(1) == Rejected(FreshMessage(JOB)) && refused.db == doubled.db;
    var failing := Step(refused, Syncer(0, Abort(false)));
    ReachableStep(refused, Syncer(0, Abort(false)));
    s := Step(failing, Syncer(0, FailSync(true)));
    ReachableStep(failing, Syncer(0, FailSync(true)));
  }

  // ---- Buried jobs whose run stays live ---------------------------------------------------------

  /** Worker 0 is about to dead-letter the only message of run 0. */
  ghost predicate Burying(s: System) {
    && Reachable(s) && s.maxAttempts == 5 && s.db.outbox.Keys == s.db.runs.Keys == {0}
    && s.db.outbox[0].status == RowPublished && s.db.runs[0].tenant == SHOP
    && s.queues == Queues(multiset{}, multiset{}, multiset{}, map[0 := FreshMessage(JOB)])
    && s.phases == map[0 := HandingOff(FreshMessage(JOB), Broken(false))] && s.claims == map[]
  }

  lemma ReachableTwoSteps(s: System, a: Action, b: Action)
    requires Reachable(s)
    ensures Reachable(Step(Step(s, a), b))
  {
    ReachableStep(s, a);
    ReachableStep(Step(s, a), b);
  }

  lemma Bury(s: System) returns (after: System)
    requires Burying(s) && s.db.runs[0].Active()
    ensures Reachable(after) && Stuck(after, 0) && after.db == s.db
    ensures forall w: ConsumerId :: after.Of(w).Idle?
  {
    var m, cause := FreshMessage(JOB), Broken(false);
    assert HandsSpare(s.queues.unacked - {0}, 0);
    BuryingSteps(s, 0, m, cause);
    BuryingSilences(s, 0, m, cause);
    ReachableTwoSteps(s, Consumer(0, HandOff(Confirmed)), Consumer(0, Acknowledge(true)));
    after := Step(Step(s, Consumer(0, HandOff(Confirmed))), Consumer(0, Acknowledge(true)));
  }

  /** StartSyncRun fails without an effect: the job is dead-lettered and its run stays queued. */
  lemma FailedStartLeavesQueued() returns (s: System)
    ensures Reachable(s) && Stuck(s, 0) && s.db.runs[0].status == Queued
  {
    var asking := AskingIsReachable();
    var stumbled := Step(asking, Consumer(0, Stumble(false)));
    ReachableStep(asking, Consumer(0, Stumble(false)));
    s := Bury(stumbled);
  }

  /**
   The UPDATE of StartSyncRun takes effect and its answer is lost: the job is dead-lettered, the run
   stays running, and nobody knows its lease.
   */
  lemma LostStartLeavesRunning() returns (s: System)
    ensures Reachable(s) && Stuck(s, 0) && s.db.Owns(SHOP, 0, 1)
    ensures forall w: ConsumerId :: s.Of(w).Idle?
  {
    var asking := AskingIsReachable();
    var lost := Step(asking, Syncer(0, Start(Some(false))));
    ReachableStep(asking, Syncer(0, Start(Some(false))));
    s := Bury(lost);
  }

  /** A sync fails, its FailSyncRun is not written: the job is dead-lettered and its run stays running. */
  lemma UnwrittenFailLeavesRunning() returns (s: System)
    ensures Reachable(s) && Stuck(s, 0) && s.db.Owns(SHOP, 0, 1)
  {
    var asking := AskingIsReachable();
    var syncing := Step(asking, Syncer(0, Start(None)));
    ReachableStep(asking, Syncer(0, Start(None)));
    var failing := Step(syncing, Syncer(0, Abort(false)));
    ReachableStep(syncing, Syncer(0, Abort(false)));
    var failed := Step(failing, Syncer(0, FailSync(false)));
    ReachableStep(failing, Syncer(0, FailSync(false)));
    s := Bury(failed);
  }
}
