/**
 What a worker may rely on while everybody else acts: its lease is its own, nobody
 else stores a mirror under it, its place in the code stays, and each action is at
 most one transaction.
 */
module SyncService {
  import opened Common
  import opened SyncDatabase
  import opened SyncInvariants
  import opened Queue
  import opened SyncProtocol
  import opened SyncProtocolInvariants

  // ---- Leases are private --------------------------------------------------------------------

  predicate HasLease(p: Phase) {
    p.Syncing? || p.Failing?
  }

  /** Two workers never hold the same lease, not even a superseded one. */
  ghost predicate LeasesApart(s: System) {
    && (forall v: ConsumerId :: HasLease(s.Of(v)) ==> s.Of(v).lease < s.db.nextId)
    && (forall v: ConsumerId, w: ConsumerId ::
          HasLease(s.Of(v)) && HasLease(s.Of(w)) && s.Of(v).lease == s.Of(w).lease ==> v == w)
  }

  lemma NextIdGrows(db: Database, t: Transaction)
    requires Tabled(db)
    ensures db.nextId <= Apply(db, t).nextId
  {
    if t.DoCommit? {
      CommitMirrorResult(db, t.tenant, t.run, t.lease, t.counts);
    }
  }

  /** A worker keeps its lease, drops it, or is granted the next identifier. */
  ghost predicate LeasesMove(s: System, after: System, w: ConsumerId) {
    && s.db.nextId <= after.db.nextId
    && (forall v: ConsumerId :: v != w ==> after.Of(v) == s.Of(v))
    && (HasLease(after.Of(w)) ==>
          || (HasLease(s.Of(w)) && s.Of(w).lease == after.Of(w).lease)
          || (after.Of(w).lease == s.db.nextId && s.db.nextId < after.db.nextId))
  }

  lemma MovedLeasesStayApart(s: System, after: System, w: ConsumerId)
    requires LeasesApart(s) && LeasesMove(s, after, w)
    ensures LeasesApart(after)
  {
  }

  lemma CommitMovesLeases(s: System, w: ConsumerId, counts: Counts, late: Option<bool>)
    requires Tabled(s.db) && s.Of(w).Syncing?
    ensures LeasesMove(s, StepSync(s, w, CommitSync(counts, late)), w)
  {
    var phase := s.Of(w);
    var e := phase.raw.envelope;
    var p := CommitMoves(s, w, phase.raw, phase.lease, counts, late);
    NextIdGrows(s.db, DoCommit(e.tenant, e.run, phase.lease, counts));
    assert p == StepCommit(s, w, phase.raw, phase.lease, counts, late).Of(w);
  }

  lemma OtherMovesLeases(s: System, w: ConsumerId, a: SyncAction)
    requires !a.CommitSync?
    ensures LeasesMove(s, StepSync(s, w, a), w)
  {
  }

  lemma SyncMovesLeases(s: System, w: ConsumerId, a: SyncAction)
    requires Tabled(s.db)
    ensures LeasesMove(s, StepSync(s, w, a), w)
  {
    match a
    case CommitSync(counts, late) => if s.Of(w).Syncing? { CommitMovesLeases(s, w, counts, late); }
    case _ => OtherMovesLeases(s, w, a);
  }

  lemma OutboxMovesLeases(s: System, a: OutboxAction)
    ensures LeasesMove(s, StepOutbox(s, a), 0)
  {
  }

  lemma DeliveryMovesLeases(s: System, w: ConsumerId, a: ConsumerAction)
    ensures LeasesMove(s, StepDelivery(s, w, a), w)
  {
  }

  lemma ApiMovesLeases(s: System, t: Transaction)
    requires Tabled(s.db) && IsApi(t)
    ensures LeasesMove(s, s.(db := Apply(s.db, t)), 0)
  {
    NextIdGrows(s.db, t);
  }

  lemma StepKeepsLeasesApart(s: System, a: Action)
    requires Tabled(s.db) && LeasesApart(s)
    ensures LeasesApart(Step(s, a))
  {
    match a
    case Api(t) => if IsApi(t) { ApiMovesLeases(s, t); MovedLeasesStayApart(s, Step(s, a), 0); }
    case Publisher(o) => OutboxMovesLeases(s, o); MovedLeasesStayApart(s, StepOutbox(s, o), 0);
    case Syncer(w, y) => SyncMovesLeases(s, w, y); MovedLeasesStayApart(s, StepSync(s, w, y), w);
    case Consumer(w, d) => DeliveryMovesLeases(s, w, d); MovedLeasesStayApart(s, StepDelivery(s, w, d), w);
    case Expire(m) => MovedLeasesStayApart(s, StepExpire(s, m), 0);
  }

  // ---- What the others can do to one worker's sync -------------------------------------------------

  /** Actions of everybody else, and of worker w's own heartbeat goroutine and connection. */
  predicate Foreign(a: Action, w: ConsumerId) {
    match a
    case Syncer(v, y) => v != w || y.Renew?
    case Consumer(v, d) => v != w || d.Disconnect?
    case _ => true
  }

  predicate AllForeign(actions: seq<Action>, w: ConsumerId) {
    forall i :: 0 <= i < |actions| ==> Foreign(actions[i], w)
  }

  /** No mirror has been stored under the lease taken at `tick`, and only its owner could store one. */
  ghost predicate Unspent(db: Database, run: RunId, lease: LeaseId, tick: nat) {
    && run in db.runs
    && tick < db.history.tick
    && (db.runs[run].status == Running && db.history.LeaseTick(run) == tick ==> db.runs[run].leaseOwner == Some(lease))
    && !StoredUnder(db, run, tick)
  }

  ghost predicate StoredUnder(db: Database, run: RunId, tick: nat) {
    exists i :: 0 <= i < |db.history.commits| && StoredAt(db.history.commits, i, run, tick)
  }

  ghost predicate StoredAt(commits: seq<Commit>, i: int, run: RunId, tick: nat) {
    0 <= i < |commits| && commits[i].run == run && commits[i].leaseTaken == tick
  }

  lemma CommitKeepsUnspent(db: Database, t: Transaction, run: RunId, lease: LeaseId, tick: nat)
    requires Tabled(db) && t.DoCommit? && t.lease != lease && Unspent(db, run, lease, tick)
    ensures Unspent(Apply(db, t), run, lease, tick)
  {
    CommitMirrorResult(db, t.tenant, t.run, t.lease, t.counts);
    NextIdIsFresh(db);
    var after := Apply(db, t);
    if i :| StoredAt(after.history.commits, i, run, tick) {
      assert i < |db.history.commits| ==> StoredAt(db.history.commits, i, run, tick);
    }
  }

  lemma RecordKeepsUnspent(db: Database, t: Transaction, run: RunId, lease: LeaseId, tick: nat)
    requires db.nextId !in db.runs && t.DoRecord? && Unspent(db, run, lease, tick)
    ensures Unspent(Apply(db, t), run, lease, tick)
  {
  }

  lemma OtherKeepsUnspent(db: Database, t: Transaction, run: RunId, lease: LeaseId, tick: nat)
    requires db.nextId !in db.runs && !t.DoRecord? && !t.DoCommit? && Unspent(db, run, lease, tick)
    ensures Unspent(Apply(db, t), run, lease, tick)
  {
  }

  lemma ApplyKeepsUnspent(db: Database, t: Transaction, run: RunId, lease: LeaseId, tick: nat)
    requires Tabled(db) && (t.DoCommit? ==> t.lease != lease) && Unspent(db, run, lease, tick)
    ensures Unspent(Apply(db, t), run, lease, tick)
  {
    NextIdIsFresh(db);
    match t
    case DoCommit(_, _, _, _) => CommitKeepsUnspent(db, t, run, lease, tick);
    case DoRecord(_, _, _) => RecordKeepsUnspent(db, t, run, lease, tick);
    case _ => OtherKeepsUnspent(db, t, run, lease, tick);
  }

  ghost predicate Safe(s: System) {
    Inv(s) && LeasesApart(s)
  }

  predicate ConcernsRun(t: Transaction) {
    t.DoTakeLease? || t.DoHeartbeat? || t.DoCommit? || t.DoFail?
  }

  /**
   Every action is at most one transaction. One that concerns a run is a worker's, for the run of its
   job, and a mirror commit presents the lease of its own worker.
   */
  lemma StepTransaction(s: System, a: Action) returns (t: Transaction)
    ensures Step(s, a).db == Apply(s.db, t)
    ensures t.DoCommit? ==> a.Syncer? && a.sync.CommitSync? && s.Of(a.w).Syncing? && s.Of(a.w).lease == t.lease
    ensures ConcernsRun(t) ==> a.Syncer? && !s.Of(a.w).Idle? && t.run == s.Of(a.w).raw.envelope.run
  {
    t := DoWait(0);
    match a
    case Api(x) => if IsApi(x) { t := x; }
    case Publisher(o) => t := OutboxTransaction(s, o);
    case Syncer(w, y) => t := SyncTransaction(s, w, y);
    case Consumer(w, d) => t := DeliveryTransaction(s, w, d);
    case Expire(_) =>
  }

  lemma OutboxTransaction(s: System, a: OutboxAction) returns (t: Transaction)
    ensures StepOutbox(s, a).db == Apply(s.db, t) && !ConcernsRun(t)
  {
    t := DoWait(0);
    match a
    case ClaimBatch(runs) => t := DoClaim(runs);
    case SettleClaim(id) => if id in s.claims && s.claims[id].sent.Some? { t := Settlement(s.claims[id]); }
    case _ =>
  }

  lemma SyncTransaction(s: System, w: ConsumerId, a: SyncAction) returns (t: Transaction)
    ensures StepSync(s, w, a).db == Apply(s.db, t)
    ensures t.DoCommit? ==> a.CommitSync? && s.Of(w).Syncing? && s.Of(w).lease == t.lease
    ensures ConcernsRun(t) ==> !s.Of(w).Idle? && t.run == s.Of(w).raw.envelope.run
  {
    t := DoWait(0);
    var phase := s.Of(w);
    match a
    case Start(_) => if phase.Starting? { t := DoTakeLease(phase.raw.envelope.tenant, phase.raw.envelope.run); }
    case Renew =>
      if phase.Syncing? { t := DoHeartbeat(phase.raw.envelope.tenant, phase.raw.envelope.run, phase.lease); }
    case CommitSync(counts, _) =>
      if phase.Syncing? { t := DoCommit(phase.raw.envelope.tenant, phase.raw.envelope.run, phase.lease, counts); }
    case FailSync(written) =>
      if phase.Failing? && written {
        t := DoFail(phase.raw.envelope.tenant, phase.raw.envelope.run, phase.lease, phase.cause.text);
      }
    case _ =>
  }

  lemma DeliveryTransaction(s: System, w: ConsumerId, a: ConsumerAction) returns (t: Transaction)
    ensures StepDelivery(s, w, a).db == Apply(s.db, t) && !ConcernsRun(t)
  {
    t := DoWait(0);
    if a.Mark? && s.Of(w).Marking? && a.written {
      t := DoMark(s.Of(w).raw.envelope.job);
    }
  }

  lemma ForeignKeepsPhase(s: System, a: Action, w: ConsumerId)
    requires Foreign(a, w)
    ensures Step(s, a).Of(w) == s.Of(w)
  {
    match a
    case Publisher(o) => OutboxMovesLeases(s, o);
    case Syncer(v, y) => if v != w { SyncKeepsOthers(s, v, y, w); }
    case Consumer(v, d) => if v != w { DeliveryMovesLeases(s, v, d); }
    case _ =>
  }

  lemma SyncKeepsOthers(s: System, v: ConsumerId, a: SyncAction, w: ConsumerId)
    requires v != w
    ensures StepSync(s, v, a).Of(w) == s.Of(w)
  {
  }

  lemma StepKeepsSafe(s: System, a: Action)
    requires Safe(s)
    ensures Safe(Step(s, a))
  {
    StepKeepsInv(s, a);
    StepKeepsLeasesApart(s, a);
  }

  ghost predicate HoldsLease(s: System, w: ConsumerId, lease: LeaseId) {
    HasLease(s.Of(w)) && s.Of(w).lease == lease
  }

  lemma ForeignStep(s: System, a: Action, w: ConsumerId, run: RunId, lease: LeaseId, tick: nat)
    requires Safe(s) && Foreign(a, w)
    ensures Step(s, a).Of(w) == s.Of(w)
    ensures Finished(s.db.runs, run) ==> Finished(Step(s, a).db.runs, run)
    ensures HoldsLease(s, w, lease) && Unspent(s.db, run, lease, tick) ==> Unspent(Step(s, a).db, run, lease, tick)
  {
    ForeignKeepsPhase(s, a, w);
    var t := StepTransaction(s, a);
    ApplyGrows(s.db, t);
    assert Persists(s.db.runs, Apply(s.db, t).runs, run);
    if HoldsLease(s, w, lease) && Unspent(s.db, run, lease, tick) {
      ApplyKeepsUnspent(s.db, t, run, lease, tick);
    }
  }

  /** Whatever the others do, this worker's lease is spent by nobody else and completed runs stay completed. */
  lemma {:induction false} ForeignExecution(
    s: System, actions: seq<Action>, w: ConsumerId, run: RunId, lease: LeaseId, tick: nat)
    requires Safe(s) && AllForeign(actions, w)
    ensures Safe(Execute(s, actions)) && Execute(s, actions).Of(w) == s.Of(w)
    ensures Finished(s.db.runs, run) ==> Finished(Execute(s, actions).db.runs, run)
    ensures HoldsLease(s, w, lease) && Unspent(s.db, run, lease, tick) ==>
              Unspent(Execute(s, actions).db, run, lease, tick)
    decreases |actions|
  {
    if actions != [] {
      assert Foreign(actions[0], w);
      assert AllForeign(actions[1..], w) by {
        assert forall i :: 0 <= i < |actions[1..]| ==> actions[1..][i] == actions[i + 1];
      }
      StepKeepsSafe(s, actions[0]);
      ForeignStep(s, actions[0], w, run, lease, tick);
      ForeignExecution(Step(s, actions[0]), actions[1..], w, run, lease, tick);
    }
  }
}
