/**
 The mirror runtime as one distributed protocol: the API and its outbox publishers,
 the broker, and any number of workers, over one database.

 Each action is one database transaction or one broker interaction; a disabled
 action leaves the system unchanged. A worker's phase is its program counter in
 processDelivery, Handler.Handle and Service.Sync.
 */
module SyncProtocol {
  import opened Common
  import opened SyncDatabase
  import opened Queue

  datatype Phase =
    | Idle
    | Received(raw: Message)                                    // decoding and IsJobProcessed are next
    | Starting(raw: Message)                                    // the UPDATE of StartSyncRun is next
    | Rejected(raw: Message)                                    // it matched no row; the SELECT is next
    | Syncing(raw: Message, lease: LeaseId)                     // holds the lease it was given
    | Failing(raw: Message, lease: LeaseId, cause: Cause)       // FailSyncRun is next
    | Marking(raw: Message)                                     // the handler returned nil; MarkJobProcessed is next
    | HandingOff(raw: Message, cause: Cause)                    // Retry or DeadLetter is next
    | Acking(raw: Message)                                      // Ack is next

  /** A publisher's hold on an outbox row; `sent` is what its publish reported. */
  datatype Claim = Claim(envelope: Envelope, attempts: nat, sent: Option<bool>)

  type ClaimId = (nat, RunId)

  /** `confirmed` remembers the runs whose envelope was published with a confirmation. */
  datatype System = System(
    db: Database, queues: Queues, phases: map<ConsumerId, Phase>,
    claims: map<ClaimId, Claim>, nextClaim: nat, confirmed: set<RunId>, maxAttempts: nat)
  {
    function Of(w: ConsumerId): Phase {
      if w in phases then phases[w] else Idle
    }

    function At(w: ConsumerId, phase: Phase): System {
      this.(phases := phases[w := phase])
    }
  }

  datatype OutboxAction =
    | ClaimBatch(runs: set<RunId>)
    | PublishClaim(claim: ClaimId, outcome: PublishOutcome)
    | SettleClaim(claim: ClaimId)
    | DropClaim(claim: ClaimId)

  /** `lost`: the answer is an error, retryable or not. `late`: an error after ReplaceMirror committed. */
  datatype SyncAction =
    | Start(lost: Option<bool>)
    | ReadStatus
    | Renew
    | Abort(retryable: bool)                                    // an error or panic under the lease
    | CommitSync(counts: Counts, late: Option<bool>)
    | FailSync(written: bool)

  datatype ConsumerAction =
    | Take(message: Message)
    | Lookup
    | Stumble(retryable: bool)                                  // no decoding, or an error before a lease is held
    | Mark(written: bool, heard: bool)
    | HandOff(outcome: PublishOutcome)
    | Acknowledge(arrives: bool)
    | Disconnect                                                // the broker requeues; the worker does not know yet
    | Crash

  datatype Action =
    | Api(t: Transaction)
    | Publisher(outbox: OutboxAction)
    | Syncer(w: ConsumerId, sync: SyncAction)
    | Consumer(w: ConsumerId, delivery: ConsumerAction)
    | Expire(message: Message)                                  // the retry queue's TTL

  const BUSY: Cause := Cause(true, true, "sync_already_running")

  function Broken(retryable: bool): Cause {
    Cause(retryable, false, "sync_failed")
  }

  predicate IsApi(t: Transaction) {
    t.DoCreate? || t.DoRecord? || t.DoPutStatus? || t.DoWait?
  }

  // ---- The outbox publisher (outbox.go) ------------------------------------------------------

  /** The rows a claim gets hold of, with the envelope and the attempts it read. */
  function NewClaims(s: System, runs: set<RunId>): map<ClaimId, Claim> {
    map r | r in s.db.outbox && r in runs && Claimable(s.db.outbox[r], s.db.now) ::
      (s.nextClaim, r) := Claim(s.db.outbox[r].envelope, s.db.outbox[r].attempts, None)
  }

  function StepPublish(s: System, id: ClaimId, claim: Claim, outcome: PublishOutcome): System {
    var sent := s.(queues := Published(s.queues, MainQueue, FreshMessage(claim.envelope), outcome));
    if outcome == Confirmed
    then sent.(claims := s.claims[id := claim.(sent := Some(true))], confirmed := s.confirmed + {claim.envelope.run})
    else sent.(claims := s.claims[id := claim.(sent := Some(false))])
  }

  /** completeOutbox after a confirmed publish, retryOutbox after any other. */
  function Settlement(claim: Claim): Transaction {
    if claim.sent == Some(true) then DoComplete(claim.envelope.run)
    else DoRetry(claim.envelope.run, claim.attempts + 1)
  }

  function StepSettle(s: System, id: ClaimId, claim: Claim): System {
    s.(db := Apply(s.db, Settlement(claim)), claims := s.claims - {id})
  }

  function StepOutbox(s: System, a: OutboxAction): System
  {
    match a
    case ClaimBatch(runs) =>
      s.(db := Apply(s.db, DoClaim(runs)), claims := s.claims + NewClaims(s, runs), nextClaim := s.nextClaim + 1)
    case PublishClaim(id, outcome) =>
      if id in s.claims && s.claims[id].sent.None? then StepPublish(s, id, s.claims[id], outcome) else s
    case SettleClaim(id) =>
      if id in s.claims && s.claims[id].sent.Some? then StepSettle(s, id, s.claims[id]) else s
    case DropClaim(id) => s.(claims := s.claims - {id})
  }

  // ---- The sync handler (service.go, handler.go) ------------------------------------------------

  function StepStart(s: System, w: ConsumerId, raw: Message, lost: Option<bool>): System {
    var e := raw.envelope;
    var tx := TakeLease(s.db, e.tenant, e.run);
    var next := s.(db := Apply(s.db, DoTakeLease(e.tenant, e.run)));
    if lost.Some? then next.At(w, HandingOff(raw, Broken(lost.value)))
    else
      match tx.result
      case Leased(lease) => next.At(w, Syncing(raw, lease))
      case ActiveConflict => next.At(w, HandingOff(raw, BUSY))
      case NoRow => next.At(w, Rejected(raw))
  }

  function StepReadStatus(s: System, w: ConsumerId, raw: Message): System {
    var e := raw.envelope;
    if !s.db.Matches(e.tenant, e.run) then s.At(w, HandingOff(raw, Broken(false)))
    else
      match s.db.runs[e.run].status
      case Completed => s.At(w, Marking(raw))
      case Running => s.At(w, HandingOff(raw, BUSY))
      case _ => s.At(w, HandingOff(raw, Broken(false)))
  }

  /** ReplaceMirror, and what follows it inside Sync: `late` is an error reported after the commit. */
  function StepCommit(s: System, w: ConsumerId, raw: Message, lease: LeaseId, counts: Counts,
                      late: Option<bool>): System {
    var e := raw.envelope;
    var tx := CommitMirror(s.db, e.tenant, e.run, lease, counts);
    var next := s.(db := Apply(s.db, DoCommit(e.tenant, e.run, lease, counts)));
    if tx.result.Failure? then next.At(w, Failing(raw, lease, Broken(false)))
    else if late.Some? then next.At(w, Failing(raw, lease, Broken(late.value)))
    else next.At(w, Marking(raw))
  }

  function StepFail(s: System, w: ConsumerId, raw: Message, lease: LeaseId, cause: Cause, written: bool): System {
    var t := DoFail(raw.envelope.tenant, raw.envelope.run, lease, cause.text);
    s.(db := if written then Apply(s.db, t) else s.db).At(w, HandingOff(raw, cause))
  }

  function StepSync(s: System, w: ConsumerId, a: SyncAction): System
  {
    var phase := s.Of(w);
    match a
    case Start(lost) => if phase.Starting? then StepStart(s, w, phase.raw, lost) else s
    case ReadStatus => if phase.Rejected? then StepReadStatus(s, w, phase.raw) else s
    case Renew =>
      if phase.Syncing?
      then s.(db := Apply(s.db, DoHeartbeat(phase.raw.envelope.tenant, phase.raw.envelope.run, phase.lease))) else s
    case Abort(retryable) =>
      if phase.Syncing? then s.At(w, Failing(phase.raw, phase.lease, Broken(retryable))) else s
    case CommitSync(counts, late) =>
      if phase.Syncing? then StepCommit(s, w, phase.raw, phase.lease, counts, late) else s
    case FailSync(written) =>
      if phase.Failing? then StepFail(s, w, phase.raw, phase.lease, phase.cause, written) else s
  }

  // ---- The consumer (cmd/worker/main.go) -----------------------------------------------------------

  function StepDeliver(s: System, w: ConsumerId, m: Message): System {
    if m !in s.queues.main || w in s.queues.unacked then s
    else
      var queues := s.queues.(main := s.queues.main - multiset{m}, unacked := s.queues.unacked[w := m]);
      s.(queues := queues).At(w, Received(m))
  }

  function StepMark(s: System, w: ConsumerId, raw: Message, written: bool, heard: bool): System {
    s.(db := if written then Apply(s.db, DoMark(raw.envelope.job)) else s.db)
     .At(w, if written && heard then Acking(raw) else HandingOff(raw, Broken(true)))
  }

  function StepHandOff(s: System, w: ConsumerId, raw: Message, cause: Cause, outcome: PublishOutcome): System {
    var sent := Published(s.queues, HandOffTarget(raw, cause, s.maxAttempts), HandOffCopy(raw, cause, s.maxAttempts),
                          outcome);
    if outcome == Confirmed then s.(queues := sent).At(w, Acking(raw))
    else s.(queues := Requeued(sent, w)).At(w, Idle)
  }

  function StepDelivery(s: System, w: ConsumerId, a: ConsumerAction): System
  {
    var phase := s.Of(w);
    match a
    case Take(m) => if phase.Idle? then StepDeliver(s, w, m) else s
    case Lookup =>
      if phase.Received?
      then s.At(w, if phase.raw.envelope.job in s.db.processed then Acking(phase.raw) else Starting(phase.raw)) else s
    case Stumble(retryable) =>
      if phase.Received? || phase.Starting? || phase.Rejected?
      then s.At(w, HandingOff(phase.raw, Broken(retryable))) else s
    case Mark(written, heard) => if phase.Marking? then StepMark(s, w, phase.raw, written, heard) else s
    case HandOff(outcome) => if phase.HandingOff? then StepHandOff(s, w, phase.raw, phase.cause, outcome) else s
    case Acknowledge(arrives) =>
      if phase.Acking? then s.(queues := Settled(s.queues, w, arrives)).At(w, Idle) else s
    case Disconnect => s.(queues := Requeued(s.queues, w)).At(w, phase)
    case Crash => s.(queues := Requeued(s.queues, w)).At(w, Idle)
  }

  function StepExpire(s: System, m: Message): System {
    if m !in s.queues.retry then s
    else s.(queues := s.queues.(retry := s.queues.retry - multiset{m}, main := s.queues.main + multiset{m}))
  }

  function Step(s: System, a: Action): System {
    match a
    case Api(t) => if IsApi(t) then s.(db := Apply(s.db, t)) else s
    case Publisher(o) => StepOutbox(s, o)
    case Syncer(w, y) => StepSync(s, w, y)
    case Consumer(w, d) => StepDelivery(s, w, d)
    case Expire(m) => StepExpire(s, m)
  }

  function Execute(s: System, actions: seq<Action>): System
    decreases |actions|
  {
    if actions == [] then s else Execute(Step(s, actions[0]), actions[1..])
  }
}
