/**
 The whole runtime together with the mirror tables: an action of the protocol that
 commits a mirror writes the tables with the batch, in the mode of its job.
 */
module MirrorExecution {
  import opened Common
  import opened MirrorBatch
  import opened MirrorTables
  import MirrorHistory
  import opened SyncDatabase
  import opened SyncInvariants
  import opened SyncProtocol
  import opened SyncProtocolInvariants
  import opened SyncService
  import opened SyncSafety

  /** The protocol's system, the mirror tables, and the mirrors stored so far. */
  datatype Runtime = Runtime(system: System, mirror: Mirror, stored: seq<MirrorHistory.Stored>)
  {
    function View(): MirrorHistory.State {
      MirrorHistory.State(system.db, mirror, stored)
    }
  }

  /** An action; if it commits a mirror, `batch` is what is written and `mirror` the tables that it leaves. */
  datatype Move = Move(action: Action, batch: Batch, mirror: Mirror)

  /** The action is a ReplaceMirror whose transaction commits. */
  predicate Commits(s: System, a: Action) {
    && a.Syncer? && a.sync.CommitSync? && s.Of(a.w).Syncing?
    && CommitMirror(s.db, s.Of(a.w).raw.envelope.tenant, s.Of(a.w).raw.envelope.run, s.Of(a.w).lease,
                    a.sync.counts).result.Success?
  }

  /** What ReplaceMirror does when it commits: the tables become the batch, in the job's mode. */
  ghost predicate Fits(x: Runtime, move: Move) {
    Commits(x.system, move.action) ==>
      var e := x.system.Of(move.action.w).raw.envelope;
      && move.action.sync.counts == CountsOf(move.batch) && ReadyToWrite(move.batch)
      && ReplacesMirror(x.mirror, move.mirror, e.tenant, move.batch, e.mode)
  }

  ghost function Do(x: Runtime, move: Move): Runtime {
    if !Fits(x, move) then x
    else if !Commits(x.system, move.action) then x.(system := Step(x.system, move.action))
    else
      var e := x.system.Of(move.action.w).raw.envelope;
      Runtime(Step(x.system, move.action), move.mirror,
              x.stored + [MirrorHistory.Stored(e.tenant, e.run, e.mode, move.batch)])
  }

  ghost function DoAll(x: Runtime, moves: seq<Move>): Runtime
    decreases |moves|
  {
    if moves == [] then x else DoAll(Do(x, moves[0]), moves[1..])
  }

  ghost predicate Fresh(x: Runtime) {
    InitialSystem(x.system) && MirrorHistory.Start(x.View())
  }

  // ---- Each move is a step of the tables' history ---------------------------------------------------

  lemma CommitStep(s: System, a: Action)
    requires Commits(s, a)
    ensures var p := s.Of(a.w);
            Step(s, a).db ==
            CommitMirror(s.db, p.raw.envelope.tenant, p.raw.envelope.run, p.lease, a.sync.counts).db
  {
  }

  lemma CommittingMove(x: Runtime, move: Move) returns (step: MirrorHistory.Step)
    requires Commits(x.system, move.action) && Fits(x, move)
    ensures MirrorHistory.Next(x.View(), step) == Do(x, move).View()
  {
    var p := x.system.Of(move.action.w);
    var e := p.raw.envelope;
    CommitStep(x.system, move.action);
    step := MirrorHistory.Replace(e.tenant, e.run, p.lease, e.mode, move.batch, move.mirror);
    assert MirrorHistory.Commits(x.View(), step);
  }

  lemma FailedCommit(s: System, a: Action)
    requires Tabled(s.db) && !Commits(s, a) && a.Syncer? && a.sync.CommitSync? && s.Of(a.w).Syncing?
    ensures Step(s, a).db == s.db
  {
    var p := s.Of(a.w);
    CommitMirrorResult(s.db, p.raw.envelope.tenant, p.raw.envelope.run, p.lease, a.sync.counts);
  }

  /** A commit that fails changes nothing, and no other action touches the mirror tables. */
  lemma OtherMove(x: Runtime, move: Move) returns (step: MirrorHistory.Step)
    requires Tabled(x.system.db) && !Commits(x.system, move.action)
    ensures MirrorHistory.Next(x.View(), step) == Do(x, move).View()
  {
    var t := StepTransaction(x.system, move.action);
    step := MirrorHistory.Other(t);
    if t.DoCommit? {
      FailedCommit(x.system, move.action);
    }
  }

  lemma MoveIsAStep(x: Runtime, move: Move) returns (step: MirrorHistory.Step)
    requires Tabled(x.system.db)
    ensures MirrorHistory.Next(x.View(), step) == Do(x, move).View()
  {
    if !Fits(x, move) {
      step := MirrorHistory.Other(DoCommit(Tenant("", ""), 0, 0, Counts(0, 0, 0, 0)));
    } else if Commits(x.system, move.action) {
      step := CommittingMove(x, move);
    } else {
      step := OtherMove(x, move);
    }
  }

  // ---- The mode of a stored mirror is its job's -------------------------------------------------------

  /** The mirror was stored for a run of its tenant, in the run's mode. */
  ghost predicate ForItsRun(runs: map<RunId, Run>, m: MirrorHistory.Stored) {
    m.run in runs && runs[m.run].tenant == m.tenant && runs[m.run].mode == m.mode
  }

  ghost predicate AllForTheirRuns(runs: map<RunId, Run>, stored: seq<MirrorHistory.Stored>) {
    forall i :: 0 <= i < |stored| ==> ForItsRun(runs, stored[i])
  }

  lemma GrowthKeepsModes(before: map<RunId, Run>, after: map<RunId, Run>, stored: seq<MirrorHistory.Stored>)
    requires Grows(before, after) && AllForTheirRuns(before, stored)
    ensures AllForTheirRuns(after, stored)
  {
    forall i | 0 <= i < |stored| ensures ForItsRun(after, stored[i]) {
      assert ForItsRun(before, stored[i]) && Persists(before, after, stored[i].run);
    }
  }

  lemma CommitIsForItsRun(s: System, a: Action)
    requires Inv(s) && Commits(s, a)
    ensures var e := s.Of(a.w).raw.envelope;
            e.run in s.db.runs && s.db.runs[e.run].tenant == e.tenant && s.db.runs[e.run].mode == e.mode
  {
    assert PhaseFits(s.db.runs, s.maxAttempts, s.queues, a.w, s.Of(a.w));
  }

  ghost predicate Good(x: Runtime) {
    Inv(x.system) && AllForTheirRuns(x.system.db.runs, x.stored)
  }

  lemma ActionGrows(s: System, a: Action)
    requires Tabled(s.db)
    ensures Grows(s.db.runs, Step(s, a).db.runs)
  {
    var t := StepTransaction(s, a);
    ApplyGrows(s.db, t);
  }

  lemma OneMore(runs: map<RunId, Run>, stored: seq<MirrorHistory.Stored>, m: MirrorHistory.Stored)
    requires AllForTheirRuns(runs, stored) && ForItsRun(runs, m)
    ensures AllForTheirRuns(runs, stored + [m])
  {
  }

  lemma CommittedStores(x: Runtime, move: Move)
    requires Good(x) && Fits(x, move) && Commits(x.system, move.action)
    ensures AllForTheirRuns(x.system.db.runs, Do(x, move).stored)
  {
    CommitIsForItsRun(x.system, move.action);
    var e := x.system.Of(move.action.w).raw.envelope;
    OneMore(x.system.db.runs, x.stored, MirrorHistory.Stored(e.tenant, e.run, e.mode, move.batch));
  }

  lemma MoveKeepsGood(x: Runtime, move: Move)
    requires Good(x)
    ensures Good(Do(x, move))
  {
    if Fits(x, move) {
      if Commits(x.system, move.action) {
        CommittedStores(x, move);
      }
      StepKeepsInv(x.system, move.action);
      ActionGrows(x.system, move.action);
      GrowthKeepsModes(x.system.db.runs, Step(x.system, move.action).db.runs, Do(x, move).stored);
    }
  }

  // ---- Every execution --------------------------------------------------------------------------------

  lemma {:induction false} ExecutionIsARun(x: Runtime, moves: seq<Move>) returns (steps: seq<MirrorHistory.Step>)
    requires Good(x)
    ensures Good(DoAll(x, moves)) && MirrorHistory.Run(x.View(), steps) == DoAll(x, moves).View()
    decreases |moves|
  {
    steps := [];
    if moves != [] {
      MoveKeepsGood(x, moves[0]);
      var first := MoveIsAStep(x, moves[0]);
      var rest := ExecutionIsARun(Do(x, moves[0]), moves[1..]);
      steps := [first] + rest;
      assert steps[0] == first && steps[1..] == rest;
    }
  }

  /** The tables apart, the runtime is the protocol. */
  lemma {:induction false} ExecutionIsTheProtocols(x: Runtime, moves: seq<Move>) returns (actions: seq<Action>)
    ensures Execute(x.system, actions) == DoAll(x, moves).system
    decreases |moves|
  {
    actions := [];
    if moves != [] {
      actions := ExecutionIsTheProtocols(Do(x, moves[0]), moves[1..]);
      if Fits(x, moves[0]) {
        var rest := actions;
        actions := [moves[0].action] + rest;
        assert actions[0] == moves[0].action && actions[1..] == rest;
      }
    }
  }

  lemma FreshIsGood(x: Runtime)
    requires Fresh(x)
    ensures Good(x)
  {
    InitialHolds(x.system);
  }

  /**
   In every execution the system is a reachable one, the four tables show the committed mirrors in
   the order of their commits, and each was stored in the mode of its run.
   */
  lemma EveryExecutionShowsTheLog(x: Runtime, moves: seq<Move>)
    requires Fresh(x)
    ensures var now := DoAll(x, moves);
            && Reachable(now.system)
            && MirrorHistory.TablesShow(now.mirror, now.stored)
            && MirrorHistory.Logged(now.stored, now.system.db.history.commits)
            && AllForTheirRuns(now.system.db.runs, now.stored)
  {
    FreshIsGood(x);
    var steps := ExecutionIsARun(x, moves);
    MirrorHistory.TablesShowTheLog(x.View(), steps);
    var actions := ExecutionIsTheProtocols(x, moves);
    assert Reaches(x.system, actions, DoAll(x, moves).system);
  }

  /**
   If the run whose mirror was committed last for its store is a full one, the store's four tables
   are exactly that batch, read after every earlier mirror of the store was committed.
   */
  lemma EveryExecutionShowsTheLastFullRun(x: Runtime, moves: seq<Move>, k: nat)
    requires Fresh(x)
    requires var now := DoAll(x, moves);
             && MirrorHistory.IsLast(now.stored, k)
             && now.stored[k].run in now.system.db.runs && now.system.db.runs[now.stored[k].run].mode == Full
    ensures var now := DoAll(x, moves);
            && now.stored[k].batch.syncedAt.Some?
            && MirrorHistory.MirrorIs(now.mirror, now.stored[k].tenant, now.stored[k].batch)
            && MirrorHistory.ReadLast(now.system.db.history.commits, k)
  {
    FreshIsGood(x);
    var steps := ExecutionIsARun(x, moves);
    assert ForItsRun(DoAll(x, moves).system.db.runs, DoAll(x, moves).stored[k]);
    MirrorHistory.LastFullMirrorIsShown(x.View(), steps, k);
  }
}
