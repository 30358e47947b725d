/**
 How the protocol's steps and constants come from the programs: the causes from the
 handler's classification, the hand-off from Delivery.Retry and DeadLetter, and the
 publisher's steps from PublishOutboxBatch.
 */
module SyncBindings {
  import opened Common
  import opened SyncDatabase
  import opened SyncInvariants
  import opened Queue
  import opened SyncProtocol
  import Handler
  import Outbox

  // ---- Causes -------------------------------------------------------------------------------

  /** What the hand-off learns from a Sync that failed with this error. */
  function FailedWith(e: Handler.Chain, text: string): Cause {
    Handler.CauseOf(Handler.SafeHandle(Handler.SyncRequested, Handler.Fails(e)).value, text)
  }

  /** The protocol's BUSY is what the handler makes of an active run. */
  lemma BusyIsTheHandlersCause()
    ensures FailedWith(Handler.BUSY_ERROR, BUSY.text) == BUSY
  {
    assert Handler.FirstSyncError(Handler.BUSY_ERROR) == Some(Handler.BUSY_ERROR[0]);
  }

  predicate SaysBusy(e: Handler.Chain) {
    && Handler.FirstProvider(e).None? && Handler.FirstSyncError(e).Some?
    && Handler.FirstSyncError(e).value.code == Handler.BUSY_CODE
  }

  /** Any other error, and a panic, is Broken, as retryable as the handler says. */
  lemma OtherErrorsAreBroken(e: Handler.Chain)
    requires !SaysBusy(e)
    ensures var cause := FailedWith(e, Broken(true).text); cause == Broken(cause.retryable)
    ensures FailedWith([Handler.Plain], Broken(false).text) == Broken(false)
    ensures Handler.CauseOf(Handler.SafeHandle(Handler.SyncRequested, Handler.Panics).value,
                            Broken(true).text) == Broken(true)
  {
  }

  /** An error that never was the handler's: processDelivery calls Retry with it as it is. */
  lemma BareErrorsAreRetried(raw: Message, maxAttempts: nat)
    ensures var bare := Handler.CauseOf([Handler.Plain], Broken(true).text);
            && RetryTarget(raw, bare, maxAttempts) == HandOffTarget(raw, Broken(true), maxAttempts)
            && (RetryTarget(raw, bare, maxAttempts) == RetryQueue ==>
                  RetryCopy(raw, bare) == HandOffCopy(raw, Broken(true), maxAttempts))
  {
  }

  // ---- The hand-off ---------------------------------------------------------------------------

  /** processDelivery's choice between Retry and DeadLetter, on the broker's client. */
  method PassOn(delivery: Delivery, cause: Cause, outcome: PublishOutcome, ackArrives: bool) returns (ok: bool)
    modifies delivery.client
    ensures delivery.client.State() ==
            HandedOff(old(delivery.client.State()), delivery.consumer,
                      HandOffTarget(delivery.raw, cause, delivery.client.maxAttempts),
                      HandOffCopy(delivery.raw, cause, delivery.client.maxAttempts), outcome, ackArrives)
    ensures ok <==> outcome == Confirmed && ackArrives
  {
    if cause.retryable {
      ok := delivery.Retry(cause, outcome, ackArrives);
    } else {
      ok := delivery.DeadLetter(cause, outcome, ackArrives);
    }
  }

  /** The protocol's two steps do to the broker what that call does. */
  lemma HandOffStepsAreTheCall(s: System, w: ConsumerId, raw: Message, cause: Cause, outcome: PublishOutcome,
                               arrives: bool)
    requires s.Of(w) == HandingOff(raw, cause)
    ensures var after := Step(Step(s, Consumer(w, HandOff(outcome))), Consumer(w, Acknowledge(arrives)));
            && after.queues == HandedOff(s.queues, w, HandOffTarget(raw, cause, s.maxAttempts),
                                         HandOffCopy(raw, cause, s.maxAttempts), outcome, arrives)
            && after.db == s.db && after.Of(w).Idle?
  {
  }

  // ---- The outbox batch --------------------------------------------------------------------------

  function PublishAction(id: nat, r: RunId, outcomes: Outbox.Outcomes): Action {
    Publisher(PublishClaim((id, r), outcomes.Of(r)))
  }

  /** Publish and settle, message by message. */
  function SettleAll(s: System, id: nat, runs: seq<RunId>, outcomes: Outbox.Outcomes): System
    decreases |runs|
  {
    if runs == [] then s
    else
      SettleAll(Step(Step(s, PublishAction(id, runs[0], outcomes)), Publisher(SettleClaim((id, runs[0])))), id,
                runs[1..], outcomes)
  }

  /** The steps of a batch: claim, settle those of `done`, and publish the one whose row could not be settled. */
  function BatchSteps(s: System, claimed: set<RunId>, done: seq<RunId>, stuck: Option<RunId>,
                      outcomes: Outbox.Outcomes): System {
    var settled := SettleAll(Step(s, Publisher(ClaimBatch(claimed))), s.nextClaim, done, outcomes);
    if stuck.Some? then Step(settled, PublishAction(s.nextClaim, stuck.value, outcomes)) else settled
  }

  /** The claims of the batch that are not settled yet read their rows as the batch found them. */
  ghost predicate Holds(s: System, id: nat, start: Database, rest: set<RunId>) {
    forall r :: r in rest ==>
      && r in start.outbox && start.outbox[r].envelope.run == r
      && (id, r) in s.claims && s.claims[(id, r)] == Claim(start.outbox[r].envelope, start.outbox[r].attempts, None)
  }

  ghost predicate Mid(start: Database, queues: Queues, s: System, id: nat, claimed: set<RunId>, settled: set<RunId>,
                      tried: seq<RunId>, outcomes: Outbox.Outcomes)
  {
    && Outbox.Stands(start, queues, s.db, s.queues, claimed, settled, tried, outcomes)
    && Holds(s, id, start, claimed - settled)
  }

  /** What a claim does to the tables, and that nothing is sent yet. */
  lemma ClaimEffect(s: System, claimed: set<RunId>)
    ensures var after := Step(s, Publisher(ClaimBatch(claimed)));
            && after.db == ClaimRows(s.db, claimed) && after.queues == s.queues
            && after.claims == s.claims + NewClaims(s, claimed)
  {
  }

  lemma ClaimHolds(s: System, after: System, claimed: set<RunId>)
    requires Rows(s.db.runs, s.db.outbox) && claimed <= s.db.outbox.Keys
    requires forall r :: r in claimed ==> Claimable(s.db.outbox[r], s.db.now)
    requires after.claims == s.claims + NewClaims(s, claimed)
    ensures Holds(after, s.nextClaim, s.db, claimed)
  {
    forall r | r in claimed
      ensures (s.nextClaim, r) in after.claims
      ensures after.claims[(s.nextClaim, r)] == Claim(s.db.outbox[r].envelope, s.db.outbox[r].attempts, None)
    {
      assert (s.nextClaim, r) in NewClaims(s, claimed);
    }
  }

  lemma ClaimStands(s: System, claimed: set<RunId>, outcomes: Outbox.Outcomes)
    requires Rows(s.db.runs, s.db.outbox) && claimed <= s.db.outbox.Keys
    requires forall r :: r in claimed ==> Claimable(s.db.outbox[r], s.db.now)
    ensures Mid(s.db, s.queues, Step(s, Publisher(ClaimBatch(claimed))), s.nextClaim, claimed, {}, [], outcomes)
  {
    var after := Step(s, Publisher(ClaimBatch(claimed)));
    ClaimEffect(s, claimed);
    ClaimHolds(s, after, claimed);
    Outbox.BatchStands(s.db, s.queues, claimed, outcomes);
    assert claimed - {} == claimed;
  }

  lemma PublishEffect(s: System, id: ClaimId, claim: Claim, outcome: PublishOutcome)
    requires id in s.claims && s.claims[id] == claim && claim.sent.None?
    ensures var after := Step(s, Publisher(PublishClaim(id, outcome)));
            && after.db == s.db && after.queues == Published(s.queues, MainQueue, FreshMessage(claim.envelope), outcome)
            && after.claims == s.claims[id := claim.(sent := Some(outcome == Confirmed))]
  {
  }

  lemma SettleEffect(s: System, id: ClaimId, claim: Claim, outcome: PublishOutcome, r: RunId)
    requires id in s.claims && s.claims[id] == claim && claim.sent == Some(outcome == Confirmed)
    requires claim.envelope.run == r && r in s.db.outbox && s.db.outbox[r].status == RowPublishing
    requires claim.attempts == s.db.outbox[r].attempts
    ensures var after := Step(s, Publisher(SettleClaim(id)));
            && after.queues == s.queues && after.claims == s.claims - {id}
            && after.db == s.db.(outbox := s.db.outbox[r := Outbox.SettledRow(s.db.outbox[r], outcome, s.db.now)])
  {
  }

  /** One message of the batch. */
  lemma SettleOne(start: Database, queues: Queues, s: System, id: nat, claimed: set<RunId>, settled: set<RunId>,
                  tried: seq<RunId>, r: RunId, outcomes: Outbox.Outcomes)
    requires Mid(start, queues, s, id, claimed, settled, tried, outcomes) && r in claimed && r !in settled
    ensures var sent := Step(s, PublishAction(id, r, outcomes));
            && Outbox.Stands(start, queues, sent.db, sent.queues, claimed, settled, tried + [r], outcomes)
            && Mid(start, queues, Step(sent, Publisher(SettleClaim((id, r)))), id, claimed, settled + {r}, tried + [r],
                   outcomes)
  {
    Outbox.StandsClaimed(start, queues, s.db, s.queues, claimed, settled, tried, r, outcomes);
    assert s.db.outbox[r] == Outbox.ClaimedRow(start.outbox[r], start.now);
    var claim := s.claims[(id, r)];
    PublishEffect(s, (id, r), claim, outcomes.Of(r));
    var sent := Step(s, PublishAction(id, r, outcomes));
    SettleEffect(sent, (id, r), claim.(sent := Some(outcomes.Of(r) == Confirmed)), outcomes.Of(r), r);
    assert claimed - (settled + {r}) == claimed - settled - {r};
  }

  function Members(runs: seq<RunId>): set<RunId> {
    set r | r in runs
  }

  /** Runs of the batch that are still to be settled, once each. */
  ghost predicate ToSettle(runs: seq<RunId>, rest: set<RunId>) {
    && (forall i :: 0 <= i < |runs| ==> runs[i] in rest)
    && (forall i, j :: 0 <= i < j < |runs| ==> runs[i] != runs[j])
  }

  lemma MembersCons(runs: seq<RunId>)
    requires runs != []
    ensures Members(runs) == {runs[0]} + Members(runs[1..])
  {
    assert runs == [runs[0]] + runs[1..];
  }

  lemma RestToSettle(runs: seq<RunId>, rest: set<RunId>)
    requires runs != [] && ToSettle(runs, rest)
    ensures runs[0] in rest && ToSettle(runs[1..], rest - {runs[0]})
  {
    forall i | 0 <= i < |runs[1..]| ensures runs[1..][i] in rest - {runs[0]} {
      assert runs[1..][i] == runs[i + 1];
    }
  }

  lemma FirstToSettle(runs: seq<RunId>, claimed: set<RunId>, settled: set<RunId>, tried: seq<RunId>)
    requires runs != [] && ToSettle(runs, claimed - settled)
    ensures runs[0] in claimed && runs[0] !in settled && ToSettle(runs[1..], claimed - (settled + {runs[0]}))
    ensures settled + {runs[0]} + Members(runs[1..]) == settled + Members(runs)
    ensures tried + [runs[0]] + runs[1..] == tried + runs
  {
    MembersCons(runs);
    RestToSettle(runs, claimed - settled);
    assert claimed - settled - {runs[0]} == claimed - (settled + {runs[0]});
  }

  lemma {:induction false} SettleAllStands(
    start: Database, queues: Queues, s: System, id: nat, claimed: set<RunId>, settled: set<RunId>,
    tried: seq<RunId>, runs: seq<RunId>, outcomes: Outbox.Outcomes)
    requires Mid(start, queues, s, id, claimed, settled, tried, outcomes) && ToSettle(runs, claimed - settled)
    ensures Mid(start, queues, SettleAll(s, id, runs, outcomes), id, claimed, settled + Members(runs), tried + runs,
                outcomes)
    decreases |runs|
  {
    if runs == [] {
      assert settled + Members(runs) == settled && tried + runs == tried;
    } else {
      FirstToSettle(runs, claimed, settled, tried);
      SettleOne(start, queues, s, id, claimed, settled, tried, runs[0], outcomes);
      var next := Step(Step(s, PublishAction(id, runs[0], outcomes)), Publisher(SettleClaim((id, runs[0]))));
      SettleAllStands(start, queues, next, id, claimed, settled + {runs[0]}, tried + [runs[0]], runs[1..], outcomes);
    }
  }

  /** Where a batch stands is determined by what was claimed, tried and settled. */
  lemma StandsDetermines(start: Database, queues: Queues, a: Database, p: Queues, b: Database, q: Queues,
                         claimed: set<RunId>, settled: set<RunId>, tried: seq<RunId>, outcomes: Outbox.Outcomes)
    requires Outbox.Stands(start, queues, a, p, claimed, settled, tried, outcomes)
    requires Outbox.Stands(start, queues, b, q, claimed, settled, tried, outcomes)
    ensures a == b && p == q
  {
    assert a.outbox == b.outbox;
    assert Outbox.Others(a).(outbox := a.outbox) == a && Outbox.Others(b).(outbox := b.outbox) == b;
  }

  ghost predicate BatchOf(s: System, claimed: set<RunId>, settled: set<RunId>, done: seq<RunId>, stuck: Option<RunId>) {
    && Rows(s.db.runs, s.db.outbox) && claimed <= s.db.outbox.Keys
    && (forall r :: r in claimed ==> Claimable(s.db.outbox[r], s.db.now))
    && settled <= claimed && Outbox.Lists(done, settled) && (stuck.Some? ==> stuck.value in claimed - settled)
  }

  lemma AllSettled(s: System, claimed: set<RunId>, settled: set<RunId>, done: seq<RunId>, stuck: Option<RunId>,
                   outcomes: Outbox.Outcomes)
    requires BatchOf(s, claimed, settled, done, stuck)
    ensures Mid(s.db, s.queues, BatchSteps(s, claimed, done, None, outcomes), s.nextClaim, claimed, settled, done,
                outcomes)
  {
    ClaimStands(s, claimed, outcomes);
    ListedIsToSettle(claimed, settled, done);
    SettleAllStands(s.db, s.queues, Step(s, Publisher(ClaimBatch(claimed))), s.nextClaim, claimed, {}, [], done,
                    outcomes);
  }

  lemma ListedIsToSettle(claimed: set<RunId>, settled: set<RunId>, done: seq<RunId>)
    requires Outbox.Lists(done, settled) && settled <= claimed
    ensures ToSettle(done, claimed - {}) && {} + Members(done) == settled && [] + done == done
  {
  }

  lemma BatchStepsStand(s: System, claimed: set<RunId>, settled: set<RunId>, done: seq<RunId>, stuck: Option<RunId>,
                        outcomes: Outbox.Outcomes)
    requires BatchOf(s, claimed, settled, done, stuck)
    ensures var after := BatchSteps(s, claimed, done, stuck, outcomes);
            Outbox.Stands(s.db, s.queues, after.db, after.queues, claimed, settled, Outbox.Tried(done, stuck), outcomes)
  {
    AllSettled(s, claimed, settled, done, stuck, outcomes);
    if stuck.Some? {
      var all := BatchSteps(s, claimed, done, None, outcomes);
      SettleOne(s.db, s.queues, all, s.nextClaim, claimed, settled, done, stuck.value, outcomes);
    }
  }

  /** What PublishOutboxBatch promises of its end is the state its protocol steps lead to. */
  lemma BatchIsItsSteps(s: System, db: Database, q: Queues, claimed: set<RunId>, settled: set<RunId>, done: seq<RunId>,
                        stuck: Option<RunId>, outcomes: Outbox.Outcomes)
    requires BatchOf(s, claimed, settled, done, stuck)
    requires Outbox.Stands(s.db, s.queues, db, q, claimed, settled, Outbox.Tried(done, stuck), outcomes)
    ensures var after := BatchSteps(s, claimed, done, stuck, outcomes); after.db == db && after.queues == q
  {
    BatchStepsStand(s, claimed, settled, done, stuck, outcomes);
    var after := BatchSteps(s, claimed, done, stuck, outcomes);
    StandsDetermines(s.db, s.queues, after.db, after.queues, db, q, claimed, settled, Outbox.Tried(done, stuck),
                     outcomes);
  }
}
