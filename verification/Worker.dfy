/**
 Service.Sync, Handler.Handle and processDelivery as the worker runs them. A Script
 holds what the program does not decide: the answers of Shopify and of the network,
 and the actions the rest of the system takes before each statement.
 */
module Worker {
  import opened Common
  import opened SyncDatabase
  import opened SyncInvariants
  import opened Queue
  import opened SyncProtocol
  import opened SyncProtocolInvariants
  import opened SyncService

  // ---- waitForBulk ---------------------------------------------------------------------------

  datatype BulkStatus = Created | InProgress | BulkCompleted | BulkFailed | BulkCanceled | BulkExpired

  datatype BulkOperation = BulkOperation(status: BulkStatus, url: string)

  /** What one poll brings: an operation, or an error of the sleep or of the request. */
  datatype Poll = Polled(operation: BulkOperation) | PollError(retryable: bool)

  /** Fetched with a download URL, failed (retryable or not), or still waiting when the script ends. */
  datatype BulkEnd = Ready(url: string) | Ended(retryable: bool) | StillWaiting

  predicate Settles(p: Poll) {
    p.PollError? || (p.operation.status != Created && p.operation.status != InProgress)
  }

  function EndOf(p: Poll): BulkEnd {
    match p
    case PollError(retryable) => Ended(retryable)
    case Polled(BulkOperation(status, url)) =>
      if status == BulkCompleted then (if url == "" then Ended(false) else Ready(url))
      else Ended(status == BulkFailed)
  }

  /** A completed operation with a URL is ready; a failed one may be tried again, any other end may not. */
  lemma BulkEnds(p: Poll)
    requires Settles(p)
    ensures p.PollError? ==> EndOf(p) == Ended(p.retryable)
    ensures p.Polled? ==>
              EndOf(p) == if p.operation.status == BulkCompleted && p.operation.url != "" then Ready(p.operation.url)
                          else Ended(p.operation.status == BulkFailed)
    ensures p.Polled? ==>
              p.operation.status in {BulkCompleted, BulkFailed, BulkCanceled, BulkExpired}
  {
  }

  /** The first answer that settles the operation decides, and nothing after it is asked for. */
  method WaitForBulk(first: BulkOperation, polls: seq<Poll>) returns (end: BulkEnd, asked: nat)
    ensures asked <= |polls|
    ensures var answers := [Polled(first)] + polls;
            && (forall i :: 0 <= i < asked ==> !Settles(answers[i]))
            && (if Settles(answers[asked]) then end == EndOf(answers[asked]) else end.StillWaiting? && asked == |polls|)
  {
    var operation := first;
    asked := 0;
    while true
      invariant asked <= |polls|
      invariant ([Polled(first)] + polls)[asked] == Polled(operation)
      invariant forall i :: 0 <= i < asked ==> !Settles(([Polled(first)] + polls)[i])
      decreases |polls| - asked
    {
      if operation.status == BulkCompleted {
        if operation.url == "" {
          return Ended(false), asked;
        }
        return Ready(operation.url), asked;
      }
      match operation.status {
        case BulkFailed => return Ended(true), asked;
        case BulkCanceled => return Ended(false), asked;
        case BulkExpired => return Ended(false), asked;
        case _ =>
      }
      if asked == |polls| {
        return StillWaiting, asked;
      }
      asked := asked + 1;
      match polls[asked - 1] {
        case PollError(retryable) => return Ended(retryable), asked;
        case Polled(next) => operation := next;
      }
    }
  }

  // ---- The world around one worker -----------------------------------------------------------------

  class World {
    var system: System

    constructor (system: System)
      requires Safe(system)
      ensures this.system == system
    {
      this.system := system;
    }

    method Wait(others: seq<Action>)
      modifies this
      ensures system == Execute(old(system), others)
    {
      system := Execute(system, others);
    }

    /** The others take their actions, then this statement happens. */
    method Act(others: seq<Action>, a: Action)
      modifies this
      ensures system == Step(Execute(old(system), others), a)
    {
      system := Execute(system, others);
      system := Step(system, a);
    }
  }

  /** An answer from outside; an error is retryable or not. */
  datatype Answer = Fine | Broke(retryable: bool)

  /**
   `others(k)` acts before statement k. `start` is an error of StartSyncRun whose UPDATE had no effect,
   `lost` one whose UPDATE was executed. `replace` is an error of ReplaceMirror that rolled it back before
   the bookkeeping: a batch the normaliser refuses, a value the tables refuse, a failing statement.
   */
  datatype Script = Script(
    others: nat -> seq<Action>,
    start: Answer, lost: Option<bool>, selectError: Option<bool>,
    target: Answer, token: Answer, products: Answer, collections: Answer, themes: Answer, heartbeat: Answer,
    replace: Answer, counts: Counts, late: Option<bool>, failWritten: bool,
    undecodable: bool, lookupFails: bool, markWritten: bool, markHeard: bool, publish: PublishOutcome, ackArrives: bool)

  ghost predicate ForeignScript(script: Script, w: ConsumerId) {
    forall k: nat :: AllForeign(script.others(k), w)
  }

  predicate AllFine(script: Script) {
    script.target.Fine? && script.token.Fine? && script.products.Fine? && script.collections.Fine?
    && script.themes.Fine? && script.heartbeat.Fine? && script.replace.Fine?
  }

  /** Of the reads, the fetches and the heartbeat, in their order, the first that breaks. */
  function FirstError(script: Script): Answer {
    if script.target.Broke? then script.target
    else if script.token.Broke? then script.token
    else if script.products.Broke? then script.products
    else if script.collections.Broke? then script.collections
    else if script.themes.Broke? then script.themes
    else script.heartbeat
  }

  datatype Outcome = Nil | Err(cause: Cause)

  /** The lease a sync took, and the transaction that granted it. */
  datatype Grant = Grant(lease: LeaseId, tick: nat)

  ghost predicate At(s: System, w: ConsumerId, p: Phase) {
    Safe(s) && s.Of(w) == p
  }

  /** Worker w is in phase p under a lease that has stored no mirror. */
  ghost predicate Under(s: System, w: ConsumerId, p: Phase, g: Grant) {
    At(s, w, p) && HoldsLease(s, w, g.lease) && Unspent(s.db, p.raw.envelope.run, g.lease, g.tick)
  }

  lemma AfterOthers(s: System, others: seq<Action>, w: ConsumerId, p: Phase, g: Grant)
    requires At(s, w, p) && !p.Idle? && AllForeign(others, w)
    ensures At(Execute(s, others), w, p)
    ensures Finished(s.db.runs, p.raw.envelope.run) ==> Finished(Execute(s, others).db.runs, p.raw.envelope.run)
    ensures Under(s, w, p, g) ==> Under(Execute(s, others), w, p, g)
  {
    ForeignExecution(s, others, w, p.raw.envelope.run, g.lease, g.tick);
  }

  /** Where a start leaves the program counter. */
  lemma StartPhase(s: System, w: ConsumerId, raw: Message)
    requires s.Of(w) == Starting(raw)
    ensures var next := Step(s, Syncer(w, Start(None)));
            var e := raw.envelope;
            var tx := TakeLease(s.db, e.tenant, e.run);
            && !next.Of(w).Idle? && next.Of(w).raw == raw
            && (next.Of(w).Syncing? || next.Of(w).HandingOff? || next.Of(w).Rejected?)
            && (next.Of(w).Syncing? ==> tx.result.Leased? && next.db == tx.db && next.Of(w).lease == s.db.nextId)
  {
  }

  lemma LeaseIsUnspent(db: Database, tenant: Tenant, run: RunId)
    requires Stamped(db) && TakeLease(db, tenant, run).result.Leased?
    ensures Unspent(TakeLease(db, tenant, run).db, run, db.nextId, db.history.tick)
    ensures TakeLease(db, tenant, run).db.history.tick == db.history.tick + 1
  {
    forall i | 0 <= i < |db.history.commits| ensures !StoredAt(db.history.commits, i, run, db.history.tick) {
      assert CommitStamped(db, db.history.commits[i]);
    }
  }

  ghost predicate Started(s: System, w: ConsumerId, raw: Message) {
    var p := s.Of(w);
    && Safe(s) && (p.Syncing? || p.HandingOff? || p.Rejected?) && p.raw == raw
    && (p.Syncing? ==> s.db.history.tick > 0 && Under(s, w, p, Grant(p.lease, s.db.history.tick - 1)))
  }

  lemma StartIsUnspent(s: System, w: ConsumerId, raw: Message)
    requires Stamped(s.db) && s.Of(w) == Starting(raw)
    ensures var next := Step(s, Syncer(w, Start(None)));
            next.Of(w).Syncing? ==>
              && next.db.history.tick == s.db.history.tick + 1
              && Unspent(next.db, raw.envelope.run, next.Of(w).lease, s.db.history.tick)
  {
    StartPhase(s, w, raw);
    if Step(s, Syncer(w, Start(None))).Of(w).Syncing? {
      LeaseIsUnspent(s.db, raw.envelope.tenant, raw.envelope.run);
    }
  }

  /** What a start leaves, without the invariant. */
  lemma StartLeaves(s: System, w: ConsumerId, raw: Message)
    requires Stamped(s.db) && s.Of(w) == Starting(raw)
    ensures LeftByStart(Step(s, Syncer(w, Start(None))), w, raw)
  {
    StartPhase(s, w, raw);
    StartIsUnspent(s, w, raw);
  }

  ghost predicate LeftByStart(next: System, w: ConsumerId, raw: Message) {
    && (next.Of(w).Syncing? || next.Of(w).HandingOff? || next.Of(w).Rejected?) && next.Of(w).raw == raw
    && (next.Of(w).Syncing? ==>
          next.db.history.tick > 0 && Unspent(next.db, raw.envelope.run, next.Of(w).lease, next.db.history.tick - 1))
  }

  lemma StartStarts(s: System, w: ConsumerId, raw: Message)
    requires Safe(s) && s.Of(w) == Starting(raw)
    ensures Started(Step(s, Syncer(w, Start(None))), w, raw)
  {
    StepKeepsSafe(s, Syncer(w, Start(None)));
    SafeIsStamped(s);
    StartLeaves(s, w, raw);
    StartedFrom(Step(s, Syncer(w, Start(None))), w, raw);
  }

  lemma SafeIsStamped(s: System)
    requires Safe(s)
    ensures Stamped(s.db)
  {
  }

  lemma StartedFrom(next: System, w: ConsumerId, raw: Message)
    requires Safe(next) && LeftByStart(next, w, raw)
    ensures Started(next, w, raw)
  {
  }

  ghost predicate StartedUnder(next: System, w: ConsumerId, raw: Message, grant: Option<Grant>) {
    if grant.Some? then Under(next, w, Syncing(raw, grant.value.lease), grant.value)
    else Started(next, w, raw) && !next.Of(w).Syncing?
  }

  lemma StartGrants(s: System, w: ConsumerId, raw: Message)
    requires At(s, w, Starting(raw))
    ensures StartedUnder(Step(s, Syncer(w, Start(None))), w, raw, Granted(s.db, raw.envelope))
  {
    StartStarts(s, w, raw);
    HeardStart(s, w, raw);
    GrantIsStarted(Step(s, Syncer(w, Start(None))), w, raw, Granted(s.db, raw.envelope), s.db.history.tick + 1);
  }

  lemma GrantIsStarted(next: System, w: ConsumerId, raw: Message, grant: Option<Grant>, tick: nat)
    requires Started(next, w, raw) && (next.Of(w).Syncing? <==> grant.Some?)
    requires grant.Some? ==> next.Of(w).lease == grant.value.lease && grant.value.tick + 1 == tick
    requires grant.Some? ==> next.db.history.tick == tick
    ensures StartedUnder(next, w, raw, grant)
  {
  }

  /** The UPDATE of StartSyncRun, answered. */
  method TryLease(world: World, w: ConsumerId, raw: Message, others: seq<Action>) returns (grant: Option<Grant>)
    requires At(world.system, w, Starting(raw)) && AllForeign(others, w)
    modifies world
    ensures grant == Granted(Execute(old(world.system), others).db, raw.envelope)
    ensures StartedUnder(world.system, w, raw, grant)
    ensures world.system == Step(Execute(old(world.system), others), Syncer(w, Start(None)))
  {
    AfterOthers(world.system, others, w, Starting(raw), Grant(0, 0));
    world.Wait(others);
    grant := Granted(world.system.db, raw.envelope);
    StartGrants(world.system, w, raw);
    world.Act([], Syncer(w, Start(None)));
  }

  /** StartSyncRun fails after its UPDATE was executed; nothing gives the lease up. */
  method StartUnheard(world: World, w: ConsumerId, raw: Message, others: seq<Action>, retryable: bool)
    returns (outcome: Outcome, grant: Option<Grant>)
    requires At(world.system, w, Starting(raw)) && AllForeign(others, w)
    modifies world
    ensures grant == Granted(Execute(old(world.system), others).db, raw.envelope)
    ensures outcome == Err(Broken(retryable)) && Returned(world.system, w, raw, outcome)
    ensures world.system == Step(Execute(old(world.system), others), Syncer(w, Start(Some(retryable))))
    ensures grant.Some? ==> world.system.db.Owns(raw.envelope.tenant, raw.envelope.run, grant.value.lease)
    ensures grant.Some? ==> !StoredUnder(world.system.db, raw.envelope.run, grant.value.tick)
  {
    AfterOthers(world.system, others, w, Starting(raw), Grant(0, 0));
    world.Wait(others);
    grant := Granted(world.system.db, raw.envelope);
    StepKeepsSafe(world.system, Syncer(w, Start(Some(retryable))));
    SafeIsStamped(world.system);
    LostStart(world.system, w, raw, retryable);
    if grant.Some? {
      LostStartStoresNothing(world.system, w, raw, retryable);
    }
    world.Act([], Syncer(w, Start(Some(retryable))));
    outcome := Err(Broken(retryable));
  }

  /** A worker that has an answer without holding a lease. */
  ghost predicate Answered(s: System, w: ConsumerId, raw: Message) {
    Safe(s) && (s.Of(w).Marking? || s.Of(w).HandingOff?) && s.Of(w).raw == raw
  }

  lemma ReadStatusPhase(s: System, w: ConsumerId, raw: Message)
    requires s.Of(w) == Rejected(raw)
    ensures var p := Step(s, Syncer(w, ReadStatus)).Of(w); (p.Marking? || p.HandingOff?) && p.raw == raw
  {
  }

  lemma ReadStatusAnswers(s: System, w: ConsumerId, raw: Message)
    requires At(s, w, Rejected(raw))
    ensures Answered(Step(s, Syncer(w, ReadStatus)), w, raw)
  {
    StepKeepsSafe(s, Syncer(w, ReadStatus));
    ReadStatusPhase(s, w, raw);
  }

  /** An error before a lease is held goes straight to the hand-off. */
  lemma StumblePhase(s: System, w: ConsumerId, retryable: bool)
    requires s.Of(w).Rejected? || s.Of(w).Received? || s.Of(w).Starting?
    ensures Step(s, Consumer(w, Stumble(retryable))).Of(w) == HandingOff(s.Of(w).raw, Broken(retryable))
  {
  }

  lemma StumbleAnswers(s: System, w: ConsumerId, retryable: bool)
    requires Safe(s) && (s.Of(w).Rejected? || s.Of(w).Received? || s.Of(w).Starting?)
    ensures Answered(Step(s, Consumer(w, Stumble(retryable))), w, s.Of(w).raw)
    ensures Step(s, Consumer(w, Stumble(retryable))).Of(w) == HandingOff(s.Of(w).raw, Broken(retryable))
  {
    StepKeepsSafe(s, Consumer(w, Stumble(retryable)));
    StumblePhase(s, w, retryable);
  }

  method ReadRunStatus(world: World, w: ConsumerId, ghost raw: Message, others: seq<Action>, error: Option<bool>)
    requires At(world.system, w, Rejected(raw)) && AllForeign(others, w)
    modifies world
    ensures Answered(world.system, w, raw)
    ensures world.system ==
            Step(Execute(old(world.system), others),
                 if error.Some? then Consumer(w, Stumble(error.value)) else Syncer(w, ReadStatus))
  {
    AfterOthers(world.system, others, w, Rejected(raw), Grant(0, 0));
    if error.Some? {
      StumbleAnswers(Execute(world.system, others), w, error.value);
      world.Act(others, Consumer(w, Stumble(error.value)));
    } else {
      ReadStatusAnswers(Execute(world.system, others), w, raw);
      world.Act(others, Syncer(w, ReadStatus));
    }
  }

  /** A fetch from Shopify, a read that precedes them, or the part of ReplaceMirror that a rollback undoes. */
  method Fetch(world: World, w: ConsumerId, raw: Message, g: Grant, others: seq<Action>, answer: Answer)
    requires Under(world.system, w, Syncing(raw, g.lease), g) && AllForeign(others, w)
    modifies world
    ensures match answer
            case Fine => Under(world.system, w, Syncing(raw, g.lease), g)
            case Broke(retryable) => Under(world.system, w, Failing(raw, g.lease, Broken(retryable)), g)
  {
    AfterOthers(world.system, others, w, Syncing(raw, g.lease), g);
    match answer {
      case Fine => world.Wait(others);
      case Broke(retryable) =>
        AbortFails(Execute(world.system, others), w, raw, g, retryable);
        world.Act(others, Syncer(w, Abort(retryable)));
    }
  }

  lemma AbortPhase(s: System, w: ConsumerId, raw: Message, lease: LeaseId, retryable: bool)
    requires s.Of(w) == Syncing(raw, lease)
    ensures var next := Step(s, Syncer(w, Abort(retryable)));
            next.Of(w) == Failing(raw, lease, Broken(retryable)) && next.db == s.db
  {
  }

  lemma AbortFails(s: System, w: ConsumerId, raw: Message, g: Grant, retryable: bool)
    requires Under(s, w, Syncing(raw, g.lease), g)
    ensures Under(Step(s, Syncer(w, Abort(retryable))), w, Failing(raw, g.lease, Broken(retryable)), g)
  {
    StepKeepsSafe(s, Syncer(w, Abort(retryable)));
    AbortPhase(s, w, raw, g.lease, retryable);
  }

  lemma RenewPhase(s: System, w: ConsumerId, raw: Message, lease: LeaseId)
    requires s.Of(w) == Syncing(raw, lease)
    ensures var next := Step(s, Syncer(w, Renew));
            next.Of(w) == s.Of(w) && next.db == Apply(s.db, DoHeartbeat(raw.envelope.tenant, raw.envelope.run, lease))
  {
  }

  lemma RenewWorks(s: System, w: ConsumerId, raw: Message, g: Grant)
    requires Under(s, w, Syncing(raw, g.lease), g)
    ensures Under(Step(s, Syncer(w, Renew)), w, Syncing(raw, g.lease), g)
  {
    StepKeepsSafe(s, Syncer(w, Renew));
    RenewPhase(s, w, raw, g.lease);
    ApplyKeepsUnspent(s.db, DoHeartbeat(raw.envelope.tenant, raw.envelope.run, g.lease), raw.envelope.run, g.lease,
                      g.tick);
  }

  /**
   The heartbeat before ReplaceMirror: an error, a lost lease, or the go-ahead. When the UPDATE
   matches no row, the status is read by a second statement; `between` acts before that one.
   */
  method FinalHeartbeat(
    world: World, w: ConsumerId, raw: Message, g: Grant, others: seq<Action>, between: seq<Action>, answer: Answer)
    returns (ok: bool)
    requires Under(world.system, w, Syncing(raw, g.lease), g) && AllForeign(others, w) && AllForeign(between, w)
    modifies world
    ensures ok ==> answer.Fine? && Under(world.system, w, Syncing(raw, g.lease), g)
    ensures !ok ==>
              world.system.Of(w).Failing? && Under(world.system, w, Failing(raw, g.lease, world.system.Of(w).cause), g)
    ensures answer.Broke? ==> world.system.Of(w) == Failing(raw, g.lease, Broken(answer.retryable))
    ensures answer.Fine? ==>
              var renewed, e := Step(Execute(old(world.system), others), Syncer(w, Renew)), raw.envelope;
              if renewed.db.Owns(e.tenant, e.run, g.lease) then ok && world.system == renewed
              else
                var now := Execute(renewed, between);
                && (ok <==> Finished(now.db.runs, e.run))
                && world.system == if ok then now else Step(now, Syncer(w, Abort(false)))
  {
    AfterOthers(world.system, others, w, Syncing(raw, g.lease), g);
    if answer.Broke? {
      AbortFails(Execute(world.system, others), w, raw, g, answer.retryable);
      world.Act(others, Syncer(w, Abort(answer.retryable)));
      return false;
    }
    RenewWorks(Execute(world.system, others), w, raw, g);
    world.Act(others, Syncer(w, Renew));
    var e := raw.envelope;
    if world.system.db.Owns(e.tenant, e.run, g.lease) {
      return true;
    }
    AfterOthers(world.system, between, w, Syncing(raw, g.lease), g);
    world.Wait(between);
    ok := world.system.db.Matches(e.tenant, e.run) && world.system.db.runs[e.run].status == Completed;
    if !ok {
      AbortFails(world.system, w, raw, g, false);
      world.Act([], Syncer(w, Abort(false)));
    }
  }

  /** ReplaceMirror answered nil, or it failed, or something failed after its commit. */
  ghost predicate Replaced(s: System, w: ConsumerId, raw: Message, g: Grant) {
    && Safe(s)
    && (s.Of(w) == Marking(raw) || (s.Of(w).Failing? && s.Of(w).raw == raw && s.Of(w).lease == g.lease))
    && (s.Of(w).Marking? ==> Finished(s.db.runs, raw.envelope.run))
  }

  lemma CommitReplaces(s: System, w: ConsumerId, raw: Message, g: Grant, counts: Counts, late: Option<bool>)
    requires Under(s, w, Syncing(raw, g.lease), g)
    ensures Replaced(Step(s, Syncer(w, CommitSync(counts, late))), w, raw, g)
  {
    StepKeepsSafe(s, Syncer(w, CommitSync(counts, late)));
    CommitPhase(s, w, raw, g.lease, counts, late);
  }

  lemma CommitPhase(s: System, w: ConsumerId, raw: Message, lease: LeaseId, counts: Counts, late: Option<bool>)
    requires Tabled(s.db) && s.Of(w) == Syncing(raw, lease)
    ensures var next := Step(s, Syncer(w, CommitSync(counts, late)));
            && (|| next.Of(w) == Marking(raw)
                || (next.Of(w).Failing? && next.Of(w).raw == raw && next.Of(w).lease == lease))
            && (next.Of(w).Marking? ==> Finished(next.db.runs, raw.envelope.run))
  {
    var p := CommitMoves(s, w, raw, lease, counts, late);
  }

  method ReplaceMirror(
    world: World, w: ConsumerId, ghost raw: Message, g: Grant, others: seq<Action>, counts: Counts, late: Option<bool>)
    requires Under(world.system, w, Syncing(raw, g.lease), g) && AllForeign(others, w)
    modifies world
    ensures Replaced(world.system, w, raw, g)
    ensures world.system == Step(Execute(old(world.system), others), Syncer(w, CommitSync(counts, late)))
  {
    AfterOthers(world.system, others, w, Syncing(raw, g.lease), g);
    CommitReplaces(Execute(world.system, others), w, raw, g, counts, late);
    world.Act(others, Syncer(w, CommitSync(counts, late)));
  }

  lemma FailEnds(s: System, w: ConsumerId, p: Phase, g: Grant, written: bool)
    requires At(s, w, p) && p.Failing? && p.lease == g.lease
    ensures var next := Step(s, Syncer(w, FailSync(written)));
            && At(next, w, HandingOff(p.raw, p.cause))
            && (written ==> !next.db.Owns(p.raw.envelope.tenant, p.raw.envelope.run, g.lease))
            && (Finished(s.db.runs, p.raw.envelope.run) ==> Finished(next.db.runs, p.raw.envelope.run))
            && (Under(s, w, p, g) ==> !StoredUnder(next.db, p.raw.envelope.run, g.tick))
  {
    StepKeepsSafe(s, Syncer(w, FailSync(written)));
    FailPhase(s, w, p, written);
    if Under(s, w, p, g) && written {
      var e := p.raw.envelope;
      ApplyKeepsUnspent(s.db, DoFail(e.tenant, e.run, p.lease, p.cause.text), e.run, g.lease, g.tick);
    }
  }

  lemma FailPhase(s: System, w: ConsumerId, p: Phase, written: bool)
    requires s.Of(w) == p && p.Failing?
    ensures var next := Step(s, Syncer(w, FailSync(written)));
            var e := p.raw.envelope;
            && next.Of(w) == HandingOff(p.raw, p.cause)
            && next.db == (if written then Apply(s.db, DoFail(e.tenant, e.run, p.lease, p.cause.text)) else s.db)
            && (written ==> !next.db.Owns(e.tenant, e.run, p.lease))
            && (Finished(s.db.runs, e.run) ==> Finished(next.db.runs, e.run))
  {
  }

  /** The deferred FailSyncRun; whether its write succeeds does not change the answer. */
  method FailSyncRun(world: World, w: ConsumerId, ghost p: Phase, g: Grant, others: seq<Action>, written: bool)
    requires At(world.system, w, p) && p.Failing? && p.lease == g.lease && AllForeign(others, w)
    modifies world
    ensures At(world.system, w, HandingOff(p.raw, p.cause))
    ensures world.system == Step(Execute(old(world.system), others), Syncer(w, FailSync(written)))
    ensures written ==> !world.system.db.Owns(p.raw.envelope.tenant, p.raw.envelope.run, g.lease)
    ensures old(Finished(world.system.db.runs, p.raw.envelope.run)) ==>
              Finished(world.system.db.runs, p.raw.envelope.run)
    ensures old(Under(world.system, w, p, g)) ==> !StoredUnder(world.system.db, p.raw.envelope.run, g.tick)
  {
    AfterOthers(world.system, others, w, p, g);
    FailEnds(Execute(world.system, others), w, p, g, written);
    world.Act(others, Syncer(w, FailSync(written)));
  }

  lemma MarkingIsFinished(s: System, w: ConsumerId, raw: Message)
    requires Safe(s) && s.Of(w) == Marking(raw)
    ensures Finished(s.db.runs, raw.envelope.run)
  {
    assert PhaseFits(s.db.runs, s.maxAttempts, s.queues, w, s.Of(w));
  }

  /** The state in which Sync returns. */
  ghost predicate Returned(s: System, w: ConsumerId, raw: Message, outcome: Outcome) {
    match outcome
    case Nil => At(s, w, Marking(raw)) && Finished(s.db.runs, raw.envelope.run)
    case Err(cause) => At(s, w, HandingOff(raw, cause))
  }

  /** An error under the lease: the run is failed, if that write succeeds, and no mirror was stored. */
  method Abandon(world: World, w: ConsumerId, raw: Message, g: Grant, script: Script) returns (outcome: Outcome)
    requires world.system.Of(w).Failing? && Under(world.system, w, Failing(raw, g.lease, world.system.Of(w).cause), g)
    requires ForeignScript(script, w)
    modifies world
    ensures outcome == Err(old(world.system.Of(w).cause)) && Returned(world.system, w, raw, outcome)
    ensures script.failWritten ==> !world.system.db.Owns(raw.envelope.tenant, raw.envelope.run, g.lease)
    ensures !StoredUnder(world.system.db, raw.envelope.run, g.tick)
  {
    var p := world.system.Of(w);
    FailSyncRun(world, w, p, g, script.others(9), script.failWritten);
    return Err(p.cause);
  }

  /**
   Sync from the lease on. It answers nil only with the run completed; it answers an error only
   after giving the lease up; and it stores a mirror only after everything before it succeeded.
   */
  method SyncUnderLease(world: World, w: ConsumerId, raw: Message, g: Grant, script: Script) returns (outcome: Outcome)
    requires Under(world.system, w, Syncing(raw, g.lease), g) && ForeignScript(script, w)
    modifies world
    ensures Returned(world.system, w, raw, outcome)
    ensures outcome.Err? && script.failWritten ==>
              !world.system.db.Owns(raw.envelope.tenant, raw.envelope.run, g.lease)
    ensures StoredUnder(world.system.db, raw.envelope.run, g.tick) ==> AllFine(script)
    ensures outcome.Nil? ==> AllFine(script)
    ensures FirstError(script).Broke? ==> outcome == Err(Broken(FirstError(script).retryable))
  {
    Fetch(world, w, raw, g, script.others(2), script.target);
    if script.target.Broke? { outcome := Abandon(world, w, raw, g, script); return; }
    Fetch(world, w, raw, g, script.others(3), script.token);
    if script.token.Broke? { outcome := Abandon(world, w, raw, g, script); return; }
    Fetch(world, w, raw, g, script.others(4), script.products);
    if script.products.Broke? { outcome := Abandon(world, w, raw, g, script); return; }
    Fetch(world, w, raw, g, script.others(5), script.collections);
    if script.collections.Broke? { outcome := Abandon(world, w, raw, g, script); return; }
    Fetch(world, w, raw, g, script.others(6), script.themes);
    if script.themes.Broke? { outcome := Abandon(world, w, raw, g, script); return; }
    var ok := FinalHeartbeat(world, w, raw, g, script.others(7), script.others(14), script.heartbeat);
    if !ok { outcome := Abandon(world, w, raw, g, script); return; }
    Fetch(world, w, raw, g, script.others(15), script.replace);
    if script.replace.Broke? { outcome := Abandon(world, w, raw, g, script); return; }
    outcome := CommitAndReturn(world, w, raw, g, script);
  }

  method CommitAndReturn(world: World, w: ConsumerId, raw: Message, g: Grant, script: Script) returns (outcome: Outcome)
    requires Under(world.system, w, Syncing(raw, g.lease), g) && ForeignScript(script, w)
    modifies world
    ensures Returned(world.system, w, raw, outcome)
    ensures outcome.Err? && script.failWritten ==>
              !world.system.db.Owns(raw.envelope.tenant, raw.envelope.run, g.lease)
  {
    ReplaceMirror(world, w, raw, g, script.others(8), script.counts, script.late);
    var p := world.system.Of(w);
    if p.Marking? {
      return Nil;
    }
    FailSyncRun(world, w, p, g, script.others(9), script.failWritten);
    return Err(p.cause);
  }

  /** A late error never un-completes a run whose mirror was stored. */
  lemma StoredMeansFinished(s: System, w: ConsumerId, raw: Message, outcome: Outcome, tick: nat)
    requires Returned(s, w, raw, outcome)
    ensures StoredUnder(s.db, raw.envelope.run, tick) ==> Finished(s.db.runs, raw.envelope.run)
  {
    if i :| StoredAt(s.db.history.commits, i, raw.envelope.run, tick) {
      assert CommitStamped(s.db, s.db.history.commits[i]);
    }
  }

  /** StartSyncRun fails without an effect, or the request is not even tried. */
  method NeverStarted(world: World, w: ConsumerId, ghost raw: Message, others: seq<Action>, retryable: bool)
    returns (outcome: Outcome)
    requires At(world.system, w, Starting(raw)) && AllForeign(others, w)
    modifies world
    ensures outcome == Err(Broken(retryable)) && Returned(world.system, w, raw, outcome)
    ensures world.system == Step(Execute(old(world.system), others), Consumer(w, Stumble(retryable)))
  {
    AfterOthers(world.system, others, w, Starting(raw), Grant(0, 0));
    StumbleAnswers(Execute(world.system, others), w, retryable);
    world.Act(others, Consumer(w, Stumble(retryable)));
    return Err(world.system.Of(w).cause);
  }

  /** The lease that the UPDATE of StartSyncRun gives, whether or not its answer arrives. */
  function Granted(db: Database, e: Envelope): Option<Grant> {
    if TakeLease(db, e.tenant, e.run).result.Leased? then Some(Grant(db.nextId, db.history.tick)) else None
  }

  /** The UPDATE took effect and its answer did not arrive: nobody knows the lease, and the run is under it. */
  lemma LostStart(s: System, w: ConsumerId, raw: Message, retryable: bool)
    requires s.Of(w) == Starting(raw)
    ensures var next := Step(s, Syncer(w, Start(Some(retryable))));
            && next.Of(w) == HandingOff(raw, Broken(retryable))
            && (Granted(s.db, raw.envelope).Some? ==>
                  next.db.Owns(raw.envelope.tenant, raw.envelope.run, Granted(s.db, raw.envelope).value.lease))
  {
  }

  lemma LostStartStoresNothing(s: System, w: ConsumerId, raw: Message, retryable: bool)
    requires Stamped(s.db) && s.Of(w) == Starting(raw) && Granted(s.db, raw.envelope).Some?
    ensures !StoredUnder(Step(s, Syncer(w, Start(Some(retryable)))).db, raw.envelope.run, s.db.history.tick)
  {
    LeaseIsUnspent(s.db, raw.envelope.tenant, raw.envelope.run);
  }

  lemma HeardStart(s: System, w: ConsumerId, raw: Message)
    requires s.Of(w) == Starting(raw)
    ensures var next := Step(s, Syncer(w, Start(None)));
            && (next.Of(w).Syncing? <==> Granted(s.db, raw.envelope).Some?)
            && (next.Of(w).Syncing? ==>
                  && next.Of(w).lease == Granted(s.db, raw.envelope).value.lease
                  && next.db.history.tick == s.db.history.tick + 1)
  {
  }

  /** Sync when StartSyncRun's statements are answered. */
  method SyncHeard(world: World, w: ConsumerId, raw: Message, script: Script)
    returns (outcome: Outcome, grant: Option<Grant>)
    requires At(world.system, w, Starting(raw)) && ForeignScript(script, w)
    modifies world
    ensures grant == Granted(Execute(old(world.system), script.others(0)).db, raw.envelope)
    ensures Returned(world.system, w, raw, outcome)
    ensures grant.Some? && outcome.Err? && script.failWritten ==>
              !world.system.db.Owns(raw.envelope.tenant, raw.envelope.run, grant.value.lease)
    ensures grant.Some? && StoredUnder(world.system.db, raw.envelope.run, grant.value.tick) ==>
              AllFine(script) && Finished(world.system.db.runs, raw.envelope.run)
    ensures grant.Some? && outcome.Nil? ==> AllFine(script)
    ensures grant.Some? && FirstError(script).Broke? ==> outcome == Err(Broken(FirstError(script).retryable))
  {
    grant := TryLease(world, w, raw, script.others(0));
    if grant.Some? {
      outcome := SyncUnderLease(world, w, raw, grant.value, script);
      StoredMeansFinished(world.system, w, raw, outcome, grant.value.tick);
    } else {
      outcome := Refused(world, w, raw, script);
    }
  }

  /** No lease was granted; the run's status says why. */
  method Refused(world: World, w: ConsumerId, raw: Message, script: Script) returns (outcome: Outcome)
    requires Started(world.system, w, raw) && !world.system.Of(w).Syncing? && ForeignScript(script, w)
    modifies world
    ensures Returned(world.system, w, raw, outcome)
    ensures world.system ==
            if old(world.system).Of(w).Rejected? then
              Step(Execute(old(world.system), script.others(1)),
                   if script.selectError.Some? then Consumer(w, Stumble(script.selectError.value))
                   else Syncer(w, ReadStatus))
            else old(world.system)
  {
    if world.system.Of(w).Rejected? {
      ReadRunStatus(world, w, raw, script.others(1), script.selectError);
    }
    var p := world.system.Of(w);
    if p.Marking? {
      MarkingIsFinished(world.system, w, raw);
      return Nil;
    }
    return Err(p.cause);
  }

  /**
   `grant` is the lease that the UPDATE of StartSyncRun gave, if it gave one. After an error it is
   given up, if that write succeeds; but an error of StartSyncRun itself leaves the run under it.
   */
  method Sync(world: World, w: ConsumerId, raw: Message, script: Script)
    returns (outcome: Outcome, grant: Option<Grant>)
    requires At(world.system, w, Starting(raw)) && ForeignScript(script, w)
    modifies world
    ensures grant ==
            if script.start.Broke? then None else Granted(Execute(old(world.system), script.others(0)).db, raw.envelope)
    ensures script.start.Broke? ==> outcome == Err(Broken(script.start.retryable))
    ensures script.start.Fine? && script.lost.Some? ==> outcome == Err(Broken(script.lost.value))
    ensures grant.Some? && script.lost.None? && FirstError(script).Broke? ==>
              outcome == Err(Broken(FirstError(script).retryable))
    ensures Returned(world.system, w, raw, outcome)
    ensures grant.Some? && outcome.Err? && script.failWritten ==>
              (world.system.db.Owns(raw.envelope.tenant, raw.envelope.run, grant.value.lease) <==> script.lost.Some?)
    ensures grant.Some? && script.lost.Some? ==>
              world.system.db.Owns(raw.envelope.tenant, raw.envelope.run, grant.value.lease)
    ensures grant.Some? && StoredUnder(world.system.db, raw.envelope.run, grant.value.tick) ==>
              AllFine(script) && script.lost.None?
    ensures grant.Some? && outcome.Nil? ==> AllFine(script) && script.lost.None?
    ensures grant.Some? && StoredUnder(world.system.db, raw.envelope.run, grant.value.tick) ==>
              Finished(world.system.db.runs, raw.envelope.run)
  {
    if script.start.Broke? {
      outcome := NeverStarted(world, w, raw, script.others(0), script.start.retryable);
      return outcome, None;
    }
    if script.lost.Some? {
      outcome, grant := StartUnheard(world, w, raw, script.others(0), script.lost.value);
    } else {
      outcome, grant := SyncHeard(world, w, raw, script);
    }
  }

  // ---- processDelivery ---------------------------------------------------------------------------------

  /** How a delivery ended: closed for good, handed to another queue, or back in the main queue. */
  datatype Disposal = Closed | HandedTo(queue: QueueName) | Redelivered

  lemma LookupPhase(s: System, w: ConsumerId, raw: Message)
    requires s.Of(w) == Received(raw)
    ensures var next := Step(s, Consumer(w, Lookup));
            next.db == s.db && (next.Of(w) == Acking(raw) <==> raw.envelope.job in s.db.processed)
            && (next.Of(w) == Starting(raw) <==> raw.envelope.job !in s.db.processed)
  {
  }

  lemma ProcessedIsFinished(s: System, w: ConsumerId, raw: Message)
    requires At(s, w, Received(raw)) && raw.envelope.job in s.db.processed
    ensures Finished(s.db.runs, raw.envelope.run)
  {
    assert PhaseFits(s.db.runs, s.maxAttempts, s.queues, w, s.Of(w));
    ProcessedRunIsFinished(s.db, raw.envelope);
  }

  lemma LookupLeads(s: System, w: ConsumerId, raw: Message)
    requires At(s, w, Received(raw))
    ensures var next := Step(s, Consumer(w, Lookup));
            || At(next, w, Starting(raw))
            || (At(next, w, Acking(raw)) && Finished(next.db.runs, raw.envelope.run))
  {
    StepKeepsSafe(s, Consumer(w, Lookup));
    LookupPhase(s, w, raw);
    if raw.envelope.job in s.db.processed {
      ProcessedIsFinished(s, w, raw);
    }
  }

  lemma MarkPhase(s: System, w: ConsumerId, raw: Message, written: bool, heard: bool)
    requires s.Of(w) == Marking(raw)
    ensures var next := Step(s, Consumer(w, Mark(written, heard)));
            next.db.runs == s.db.runs
            && next.Of(w) == if written && heard then Acking(raw) else HandingOff(raw, Broken(true))
  {
  }

  lemma MarkLeads(s: System, w: ConsumerId, raw: Message, written: bool, heard: bool)
    requires At(s, w, Marking(raw))
    ensures var next := Step(s, Consumer(w, Mark(written, heard)));
            if written && heard then At(next, w, Acking(raw)) && Finished(next.db.runs, raw.envelope.run)
            else At(next, w, HandingOff(raw, Broken(true)))
  {
    StepKeepsSafe(s, Consumer(w, Mark(written, heard)));
    MarkPhase(s, w, raw, written, heard);
    MarkingIsFinished(s, w, raw);
  }

  lemma HandOffPhase(s: System, w: ConsumerId, raw: Message, cause: Cause, outcome: PublishOutcome)
    requires s.Of(w) == HandingOff(raw, cause)
    ensures var next := Step(s, Consumer(w, HandOff(outcome)));
            && next.Of(w) == (if outcome == Confirmed then Acking(raw) else Idle)
            && next.db == s.db && next.maxAttempts == s.maxAttempts
  {
  }

  lemma AckPhase(s: System, w: ConsumerId, arrives: bool)
    requires s.Of(w).Acking?
    ensures var next := Step(s, Consumer(w, Acknowledge(arrives)));
            next.Of(w).Idle? && next.db == s.db && next.maxAttempts == s.maxAttempts
  {
  }

  ghost predicate IdleAt(s: System, w: ConsumerId) {
    Safe(s) && s.Of(w).Idle?
  }

  method Settle(world: World, w: ConsumerId, ghost raw: Message, others: seq<Action>, arrives: bool)
    requires At(world.system, w, Acking(raw)) && AllForeign(others, w)
    modifies world
    ensures IdleAt(world.system, w)
    ensures world.system == Step(Execute(old(world.system), others), Consumer(w, Acknowledge(arrives)))
    ensures old(Finished(world.system.db.runs, raw.envelope.run)) ==> Finished(world.system.db.runs, raw.envelope.run)
  {
    AfterOthers(world.system, others, w, Acking(raw), Grant(0, 0));
    StepKeepsSafe(Execute(world.system, others), Consumer(w, Acknowledge(arrives)));
    AckPhase(Execute(world.system, others), w, arrives);
    world.Act(others, Consumer(w, Acknowledge(arrives)));
  }

  /** In the queue that the cause asks for, if the broker confirms the copy and hears the acknowledgement. */
  function PassedOn(raw: Message, cause: Cause, maxAttempts: nat, script: Script): Disposal {
    if script.publish == Confirmed && script.ackArrives then HandedTo(HandOffTarget(raw, cause, maxAttempts))
    else Redelivered
  }

  function ClosedIf(ackArrives: bool): Disposal {
    if ackArrives then Closed else Redelivered
  }

  /** Delivery.Retry and Delivery.DeadLetter. */
  method PassOn(world: World, w: ConsumerId, raw: Message, cause: Cause, script: Script) returns (end: Disposal)
    requires At(world.system, w, HandingOff(raw, cause)) && ForeignScript(script, w)
    modifies world
    ensures IdleAt(world.system, w) && end == PassedOn(raw, cause, world.system.maxAttempts, script)
  {
    AfterOthers(world.system, script.others(11), w, HandingOff(raw, cause), Grant(0, 0));
    StepKeepsSafe(Execute(world.system, script.others(11)), Consumer(w, HandOff(script.publish)));
    HandOffPhase(Execute(world.system, script.others(11)), w, raw, cause, script.publish);
    world.Act(script.others(11), Consumer(w, HandOff(script.publish)));
    if script.publish != Confirmed {
      return Redelivered;
    }
    Settle(world, w, raw, script.others(12), script.ackArrives);
    if !script.ackArrives {
      return Redelivered;
    }
    return HandedTo(HandOffTarget(raw, cause, world.system.maxAttempts));
  }

  /**
   A delivery is closed for good only when the run it names is completed. One whose body does not
   decode goes to the dead queue, one that cannot be looked up is retried, one that was processed
   before is closed, and what becomes of any other follows from the answer of Sync and the record.
   */
  method ProcessDelivery(world: World, w: ConsumerId, raw: Message, script: Script)
    returns (end: Disposal, ghost outcome: Outcome)
    requires At(world.system, w, Received(raw)) && ForeignScript(script, w)
    modifies world
    ensures IdleAt(world.system, w)
    ensures end.Closed? ==> Finished(world.system.db.runs, raw.envelope.run)
    ensures script.publish == Confirmed && script.ackArrives ==> !end.Redelivered?
    ensures var processed := raw.envelope.job in Execute(old(world.system), script.others(13)).db.processed;
            var maxAttempts := world.system.maxAttempts;
            end == if script.undecodable then
                     (if script.publish == Confirmed && script.ackArrives then HandedTo(DeadQueue) else Redelivered)
                   else if script.lookupFails then PassedOn(raw, Broken(true), maxAttempts, script)
                   else if processed then ClosedIf(script.ackArrives)
                   else DisposedAfter(raw, outcome, maxAttempts, script)
  {
    outcome := Nil;
    if script.undecodable || script.lookupFails {
      end := Reject(world, w, raw, !script.undecodable, script);
      return;
    }
    var processed := LookUp(world, w, raw, script.others(13));
    if processed {
      end := CloseDelivery(world, w, raw, script);
      return;
    }
    end, outcome := HandleAndMark(world, w, raw, script);
  }

  /** The delivery does not decode, or IsJobProcessed fails. */
  method Reject(world: World, w: ConsumerId, raw: Message, retryable: bool, script: Script) returns (end: Disposal)
    requires At(world.system, w, Received(raw)) && ForeignScript(script, w)
    modifies world
    ensures IdleAt(world.system, w) && end == PassedOn(raw, Broken(retryable), world.system.maxAttempts, script)
  {
    AfterOthers(world.system, script.others(13), w, Received(raw), Grant(0, 0));
    StumbleAnswers(Execute(world.system, script.others(13)), w, retryable);
    world.Act(script.others(13), Consumer(w, Stumble(retryable)));
    end := PassOn(world, w, raw, Broken(retryable), script);
  }

  /** IsJobProcessed */
  method LookUp(world: World, w: ConsumerId, ghost raw: Message, others: seq<Action>) returns (processed: bool)
    requires At(world.system, w, Received(raw)) && AllForeign(others, w)
    modifies world
    ensures processed <==> raw.envelope.job in Execute(old(world.system), others).db.processed
    ensures if processed then At(world.system, w, Acking(raw)) && Finished(world.system.db.runs, raw.envelope.run)
            else At(world.system, w, Starting(raw))
  {
    AfterOthers(world.system, others, w, Received(raw), Grant(0, 0));
    LookupLeads(Execute(world.system, others), w, raw);
    LookupPhase(Execute(world.system, others), w, raw);
    world.Act(others, Consumer(w, Lookup));
    processed := world.system.Of(w).Acking?;
  }

  /** Closed after a nil that was recorded; otherwise passed on with the error, or to be recorded again. */
  function DisposedAfter(raw: Message, outcome: Outcome, maxAttempts: nat, script: Script): Disposal {
    match outcome
    case Err(cause) => PassedOn(raw, cause, maxAttempts, script)
    case Nil =>
      if script.markWritten && script.markHeard then ClosedIf(script.ackArrives)
      else PassedOn(raw, Broken(true), maxAttempts, script)
  }

  method CloseDelivery(world: World, w: ConsumerId, raw: Message, script: Script) returns (end: Disposal)
    requires At(world.system, w, Acking(raw)) && Finished(world.system.db.runs, raw.envelope.run)
    requires ForeignScript(script, w)
    modifies world
    ensures IdleAt(world.system, w) && Finished(world.system.db.runs, raw.envelope.run)
    ensures end == ClosedIf(script.ackArrives)
  {
    Settle(world, w, raw, script.others(12), script.ackArrives);
    return if script.ackArrives then Closed else Redelivered;
  }

  /** safeHandle, the classification of its error, and MarkJobProcessed. */
  method HandleAndMark(world: World, w: ConsumerId, raw: Message, script: Script)
    returns (end: Disposal, ghost outcome: Outcome)
    requires At(world.system, w, Starting(raw)) && ForeignScript(script, w)
    modifies world
    ensures IdleAt(world.system, w)
    ensures end.Closed? ==> Finished(world.system.db.runs, raw.envelope.run)
    ensures script.publish == Confirmed && script.ackArrives ==> !end.Redelivered?
    ensures end == DisposedAfter(raw, outcome, world.system.maxAttempts, script)
  {
    var answer, grant := Sync(world, w, raw, script);
    outcome := answer;
    if answer.Err? {
      end := PassOn(world, w, raw, answer.cause, script);
      return;
    }
    AfterOthers(world.system, script.others(10), w, Marking(raw), Grant(0, 0));
    MarkLeads(Execute(world.system, script.others(10)), w, raw, script.markWritten, script.markHeard);
    world.Act(script.others(10), Consumer(w, Mark(script.markWritten, script.markHeard)));
    if script.markWritten && script.markHeard {
      end := CloseDelivery(world, w, raw, script);
    } else {
      end := PassOn(world, w, raw, Broken(true), script);
    }
  }
}
