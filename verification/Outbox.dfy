/** PublishOutboxBatch: claim a batch, publish each message, settle its row. */
module Outbox {
  import opened Common
  import opened SyncDatabase
  import opened Queue
  import Postgres

  /** What the publishes report; a message without an entry is refused. */
  datatype Outcomes = Outcomes(reported: map<RunId, PublishOutcome>)
  {
    function Of(r: RunId): PublishOutcome {
      if r in reported then reported[r] else Refused
    }
  }

  /** completeOutbox after a confirmation, retryOutbox after any error. */
  function SettledRow(row: OutboxRow, outcome: PublishOutcome, now: nat): OutboxRow {
    if outcome == Confirmed then row.(status := RowPublished, updatedAt := now)
    else row.(status := RowFailed, attempts := row.attempts + 1,
              availableAt := now + OutboxBackoff(row.attempts + 1), updatedAt := now)
  }

  function ClaimedRow(row: OutboxRow, now: nat): OutboxRow {
    row.(status := RowPublishing, updatedAt := now)
  }

  /** Every table but the outbox. */
  ghost function Others(db: Database): Database {
    db.(outbox := map[])
  }

  /** What the broker got: a copy for every message that was not refused. */
  function Copies(rows: map<RunId, OutboxRow>, tried: seq<RunId>, outcomes: Outcomes): multiset<Message>
    requires AllIn(rows, tried)
  {
    if tried == [] then multiset{}
    else
      var last := tried[|tried| - 1];
      var copy := if outcomes.Of(last) == Refused then multiset{} else multiset{FreshMessage(rows[last].envelope)};
      Copies(rows, tried[..|tried| - 1], outcomes) + copy
  }

  ghost predicate AllIn(rows: map<RunId, OutboxRow>, tried: seq<RunId>) {
    forall i :: 0 <= i < |tried| ==> tried[i] in rows
  }

  function Sent(q: Queues, rows: map<RunId, OutboxRow>, tried: seq<RunId>, outcomes: Outcomes): Queues
    requires AllIn(rows, tried)
  {
    q.(main := q.main + Copies(rows, tried, outcomes))
  }

  function CountConfirmed(runs: seq<RunId>, outcomes: Outcomes): nat {
    if runs == [] then 0
    else CountConfirmed(runs[..|runs| - 1], outcomes) + if outcomes.Of(runs[|runs| - 1]) == Confirmed then 1 else 0
  }

  ghost function ConfirmedOf(runs: seq<RunId>, outcomes: Outcomes): set<RunId> {
    set r | r in runs && outcomes.Of(r) == Confirmed
  }

  lemma OneMoreConfirmed(prefix: seq<RunId>, last: RunId, outcomes: Outcomes)
    requires last !in prefix
    ensures last !in ConfirmedOf(prefix, outcomes)
    ensures ConfirmedOf(prefix + [last], outcomes) ==
            if outcomes.Of(last) == Confirmed then ConfirmedOf(prefix, outcomes) + {last}
            else ConfirmedOf(prefix, outcomes)
  {
  }

  /** The number reported is the number of rows that were confirmed. */
  lemma {:induction false} CountIsOfConfirmed(runs: seq<RunId>, outcomes: Outcomes)
    requires forall i, j :: 0 <= i < j < |runs| ==> runs[i] != runs[j]
    ensures CountConfirmed(runs, outcomes) == |ConfirmedOf(runs, outcomes)|
  {
    if runs != [] {
      var prefix, last := runs[..|runs| - 1], runs[|runs| - 1];
      CountIsOfConfirmed(prefix, outcomes);
      assert runs == prefix + [last];
      OneMoreConfirmed(prefix, last, outcomes);
    }
  }

  lemma CountGrows(published: nat, done: seq<RunId>, settled: set<RunId>, r: RunId, outcomes: Outcomes)
    requires published == CountConfirmed(done, outcomes) && Lists(done, settled) && r !in settled
    ensures Lists(done + [r], settled + {r})
    ensures CountConfirmed(done + [r], outcomes) == if outcomes.Of(r) == Confirmed then published + 1 else published
  {
    assert (done + [r])[..|done|] == done && (done + [r])[|done|] == r;
    forall x ensures x in done + [r] <==> x in settled + {r} {
      assert x in done + [r] <==> x in done || x == r;
    }
  }

  function Tried(done: seq<RunId>, stuck: Option<RunId>): seq<RunId> {
    if stuck.Some? then done + [stuck.value] else done
  }

  /** The members of the set, once each. */
  ghost predicate Lists(tried: seq<RunId>, runs: set<RunId>) {
    && (forall i, j :: 0 <= i < j < |tried| ==> tried[i] != tried[j])
    && (forall r :: r in tried <==> r in runs)
  }

  /** Every row after the batch: settled by what its publish reported, still claimed, or untouched. */
  ghost predicate Progress(before: map<RunId, OutboxRow>, after: map<RunId, OutboxRow>, claimed: set<RunId>,
                           settled: set<RunId>, outcomes: Outcomes, now: nat)
  {
    && after.Keys == before.Keys && settled <= claimed <= before.Keys
    && forall r :: r in before ==>
         after[r] ==
         if r in settled then SettledRow(ClaimedRow(before[r], now), outcomes.Of(r), now)
         else if r in claimed then ClaimedRow(before[r], now) else before[r]
  }

  /** Where a batch stands: `start` and `queues` are what it found. */
  ghost predicate Stands(start: Database, queues: Queues, db: Database, q: Queues, claimed: set<RunId>,
                         settled: set<RunId>, tried: seq<RunId>, outcomes: Outcomes)
  {
    && Others(db) == Others(start) && Progress(start.outbox, db.outbox, claimed, settled, outcomes, start.now)
    && AllIn(start.outbox, tried) && q == Sent(queues, start.outbox, tried, outcomes)
  }

  /**
   `locked` rows are held by other claimers, and settling a row of `broken` fails, which ends the batch.
   Rows then left claimed become claimable again five minutes later. A picked row of `unreadable` holds
   an envelope that does not decode; then nothing is claimed and the call fails.
   */
  method PublishOutboxBatch(
    db: Postgres.Client, broker: Queue.Client, limit: int, locked: set<RunId>, unreadable: set<RunId>,
    outcomes: Outcomes, broken: set<RunId>)
    returns (published: nat, ok: bool, ghost picked: set<RunId>, ghost claimed: set<RunId>, ghost settled: set<RunId>,
             ghost done: seq<RunId>, stuck: Option<RunId>)
    modifies db, broker
    ensures Stands(old(db.View()), old(broker.State()), db.View(), broker.State(), claimed, settled, Tried(done, stuck),
                   outcomes)
    ensures Postgres.Picked(old(db.outbox), db.now, limit, locked, picked)
    ensures Postgres.TakesTheDue(old(db.outbox), Postgres.DueRows(old(db.outbox), db.now, locked), limit, picked)
    ensures ok <==> picked !! unreadable
    ensures claimed == if ok then picked else {}
    ensures Lists(done, settled) && published == CountConfirmed(done, outcomes)
    ensures if stuck.None? then settled == claimed else stuck.value in claimed - settled && stuck.value in broken
  {
    ghost var start, queues := db.View(), broker.State();
    var messages: set<RunId>;
    ok, messages := db.ClaimOutbox(limit, locked, unreadable);
    picked := messages;
    if !ok {
      NothingStands(start, queues, outcomes);
      published, claimed, settled, done, stuck := 0, {}, {}, [], None;
      return;
    }
    claimed := messages;
    BatchStands(start, queues, claimed, outcomes);
    published, settled, done, stuck := PublishClaimed(db, broker, messages, outcomes, broken, start, queues);
  }

  lemma BatchStands(start: Database, queues: Queues, claimed: set<RunId>, outcomes: Outcomes)
    requires claimed <= start.outbox.Keys && forall r :: r in claimed ==> Claimable(start.outbox[r], start.now)
    ensures Stands(start, queues, ClaimRows(start, claimed), queues, claimed, {}, [], outcomes)
  {
  }

  lemma NothingStands(start: Database, queues: Queues, outcomes: Outcomes)
    ensures Stands(start, queues, start, queues, {}, {}, [], outcomes)
  {
  }

  /** The loop over the claimed messages. */
  method PublishClaimed(
    db: Postgres.Client, broker: Queue.Client, claimed: set<RunId>, outcomes: Outcomes, broken: set<RunId>,
    ghost start: Database, ghost queues: Queues)
    returns (published: nat, ghost settled: set<RunId>, ghost done: seq<RunId>, stuck: Option<RunId>)
    requires Stands(start, queues, db.View(), broker.State(), claimed, {}, [], outcomes)
    modifies db, broker
    ensures Stands(start, queues, db.View(), broker.State(), claimed, settled, Tried(done, stuck), outcomes)
    ensures Lists(done, settled) && published == CountConfirmed(done, outcomes)
    ensures if stuck.None? then settled == claimed else stuck.value in claimed - settled && stuck.value in broken
  {
    settled, done, stuck, published := {}, [], None, 0;
    var rest := claimed;
    while rest != {}
      invariant rest == claimed - settled && stuck.None?
      invariant Lists(done, settled) && published == CountConfirmed(done, outcomes)
      invariant Stands(start, queues, db.View(), broker.State(), claimed, settled, done, outcomes)
      decreases rest
    {
      var r :| r in rest;
      CountGrows(published, done, settled, r, outcomes);
      var ok := PublishNext(db, broker, claimed, settled, done, r, outcomes, broken, start, queues);
      if !ok {
        stuck := Some(r);
        return;
      }
      published := if outcomes.Of(r) == Confirmed then published + 1 else published;
      done, settled, rest := done + [r], settled + {r}, rest - {r};
    }
  }

  method PublishNext(
    db: Postgres.Client, broker: Queue.Client, ghost claimed: set<RunId>, ghost settled: set<RunId>,
    ghost tried: seq<RunId>, r: RunId, outcomes: Outcomes, broken: set<RunId>, ghost start: Database,
    ghost queues: Queues)
    returns (ok: bool)
    requires Stands(start, queues, db.View(), broker.State(), claimed, settled, tried, outcomes) && r in claimed
             && r !in settled
    modifies db, broker
    ensures ok <==> r !in broken
    ensures Stands(start, queues, db.View(), broker.State(), claimed, if ok then settled + {r} else settled,
                   tried + [r], outcomes)
  {
    StandsClaimed(start, queues, db.View(), broker.State(), claimed, settled, tried, r, outcomes);
    ok := PublishOne(db, broker, r, db.outbox[r], outcomes.Of(r), r in broken);
  }

  /** What publishing and settling one more message does to a batch. */
  lemma StandsClaimed(start: Database, queues: Queues, db: Database, q: Queues, claimed: set<RunId>,
                      settled: set<RunId>, tried: seq<RunId>, r: RunId, outcomes: Outcomes)
    requires Stands(start, queues, db, q, claimed, settled, tried, outcomes) && r in claimed && r !in settled
    ensures r in db.outbox && db.outbox[r].status == RowPublishing
    ensures var sent := Published(q, MainQueue, FreshMessage(db.outbox[r].envelope), outcomes.Of(r));
            && Stands(start, queues, db, sent, claimed, settled, tried + [r], outcomes)
            && Stands(start, queues, db.(outbox := db.outbox[r := SettledRow(db.outbox[r], outcomes.Of(r), db.now)]),
                      sent, claimed, settled + {r}, tried + [r], outcomes)
  {
    SentMore(queues, start.outbox, tried, r, outcomes);
    assert db.outbox[r] == ClaimedRow(start.outbox[r], start.now);
    assert Others(db).now == Others(start).now;
    SettledProgress(start.outbox, db.outbox, claimed, settled, r, outcomes, start.now);
  }

  /** Publish, then completeOutbox or retryOutbox; false when that statement fails. */
  method PublishOne(db: Postgres.Client, broker: Queue.Client, r: RunId, row: OutboxRow, outcome: PublishOutcome,
                    broken: bool)
    returns (ok: bool)
    requires r in db.outbox && db.outbox[r] == row && row.status == RowPublishing
    modifies db, broker
    ensures ok <==> !broken
    ensures broker.State() == Published(old(broker.State()), MainQueue, FreshMessage(row.envelope), outcome)
    ensures db.View() ==
            if broken then old(db.View())
            else old(db.View()).(outbox := old(db.outbox)[r := SettledRow(row, outcome, db.now)])
  {
    var confirmed := broker.Publish(MainQueue, FreshMessage(row.envelope), outcome);
    if broken {
      return false;
    }
    if confirmed {
      db.CompleteOutbox(r);
    } else {
      db.RetryOutbox(r, row.attempts + 1);
    }
    return true;
  }

  lemma SentMore(q: Queues, rows: map<RunId, OutboxRow>, tried: seq<RunId>, r: RunId, outcomes: Outcomes)
    requires r in rows && AllIn(rows, tried)
    ensures AllIn(rows, tried + [r])
    ensures Sent(q, rows, tried + [r], outcomes) ==
            Published(Sent(q, rows, tried, outcomes), MainQueue, FreshMessage(rows[r].envelope), outcomes.Of(r))
  {
    assert (tried + [r])[..|tried|] == tried;
  }

  lemma SettledProgress(before: map<RunId, OutboxRow>, held: map<RunId, OutboxRow>, claimed: set<RunId>,
                        settled: set<RunId>, r: RunId, outcomes: Outcomes, now: nat)
    requires Progress(before, held, claimed, settled, outcomes, now) && r in claimed && r !in settled
    ensures Progress(before, held[r := SettledRow(held[r], outcomes.Of(r), now)], claimed, settled + {r}, outcomes, now)
  {
  }
}
