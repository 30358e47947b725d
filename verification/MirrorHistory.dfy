/**
 The mirror tables over whole runs: every mirror that commits, in the serial order of
 the database's transactions, and what the tables show afterwards.
 */
module MirrorHistory {
  import opened Common
  import opened MirrorBatch
  import opened MirrorTables
  import opened SyncDatabase
  import opened SyncInvariants

  // ---- What a sequence of replacements leaves of one table ------------------------------------

  /** One replacement, as one table sees it; `keep` when it was incremental. */
  datatype Write<+T> = Write(tenant: Tenant, items: seq<Item<T>>, at: int, keep: bool)

  datatype Shown<+T> = Shown(item: Item<T>, at: int)

  ghost function Find<T>(items: seq<Item<T>>, gid: string): (r: Option<Item<T>>)
    ensures r.Some? <==> gid in Gids(items)
    ensures r.Some? ==> r.value in items && r.value.gid == gid
  {
    if i :| 0 <= i < |items| && items[i].gid == gid then Some(items[i]) else None
  }

  /** The last write of the tenant that names the GID, unless a later full one left it out. */
  ghost function ShownBy<T>(writes: seq<Write<T>>, key: Key): Option<Shown<T>> {
    if writes == [] then None
    else
      var last := writes[|writes| - 1];
      var before := ShownBy(writes[..|writes| - 1], key);
      if last.tenant != key.tenant then before
      else if key.gid in Gids(last.items) then Some(Shown(Find(last.items, key.gid).value, last.at))
      else if last.keep then before
      else None
  }

  /** Row for row, but for the row identifiers. */
  ghost predicate ShowsAt<T>(table: Table<T>, writes: seq<Write<T>>, key: Key) {
    && (key in table.rows <==> ShownBy(writes, key).Some?)
    && (key in table.rows ==>
          var s := ShownBy(writes, key).value;
          table.rows[key] == Row(table.rows[key].id, s.item.updatedAt, s.at, s.item.body))
  }

  ghost predicate Shows<T(!new)>(table: Table<T>, writes: seq<Write<T>>) {
    forall key :: ShowsAt(table, writes, key)
  }

  lemma FoundIsIt<T>(items: seq<Item<T>>, i: nat)
    requires DistinctGids(items) && i < |items|
    ensures Find(items, items[i].gid) == Some(items[i])
  {
    var found := Find(items, items[i].gid).value;
    assert items[i].gid in Gids(items);
    var k :| 0 <= k < |items| && items[k] == found;
    assert k == i;
  }

  lemma ShownStep<T>(writes: seq<Write<T>>, w: Write<T>, key: Key)
    ensures ShownBy(writes + [w], key) ==
            if w.tenant != key.tenant then ShownBy(writes, key)
            else if key.gid in Gids(w.items) then Some(Shown(Find(w.items, key.gid).value, w.at))
            else if w.keep then ShownBy(writes, key)
            else None
  {
    assert (writes + [w])[..|writes|] == writes;
  }

  lemma WriteShows<T>(before: Table<T>, after: Table<T>, writes: seq<Write<T>>, w: Write<T>, key: Key)
    requires ShowsAt(before, writes, key) && DistinctGids(w.items)
    requires Replaces(before, after, w.tenant, w.items, w.at, w.keep)
    ensures ShowsAt(after, writes + [w], key)
  {
    ShownStep(writes, w, key);
    if key.tenant == w.tenant && key.gid in Gids(w.items) {
      var i :| 0 <= i < |w.items| && w.items[i].gid == key.gid;
      FoundIsIt(w.items, i);
      assert Stores(before, after, Key(w.tenant, w.items[i].gid), w.items[i], w.at);
    }
  }

  lemma TableShows<T(!new)>(before: Table<T>, after: Table<T>, writes: seq<Write<T>>, w: Write<T>)
    requires Shows(before, writes) && DistinctGids(w.items)
    requires Replaces(before, after, w.tenant, w.items, w.at, w.keep)
    ensures Shows(after, writes + [w])
  {
    forall key ensures ShowsAt(after, writes + [w], key) {
      assert ShowsAt(before, writes, key);
      WriteShows(before, after, writes, w, key);
    }
  }

  // ---- Variants and their parents ---------------------------------------------------------------

  /** A variant's row, with its parent's present row. */
  ghost predicate VariantAt(m: Mirror, writes: seq<Write<VariantBody>>, key: Key) {
    && (key in m.variants.rows <==> ShownBy(writes, key).Some?)
    && (key in m.variants.rows ==>
          var s := ShownBy(writes, key).value;
          var ids := ProductIds(m.products, key.tenant);
          && s.item.body.productGid in ids
          && m.variants.rows[key] ==
             Row(m.variants.rows[key].id, s.item.updatedAt, s.at, Resolve(s.item, ids).body))
  }

  ghost predicate VariantsShow(m: Mirror, writes: seq<Write<VariantBody>>) {
    forall key :: VariantAt(m, writes, key)
  }

  /** Replacing products never changes the row id of a product that stays. */
  lemma StayingProductKeepsId(before: Mirror, after: Mirror, tenant: Tenant, batch: Batch, mode: SyncMode, key: Key)
    requires batch.syncedAt.Some? && ReplacesMirror(before, after, tenant, batch, mode)
    requires key in before.products.rows && (key.tenant != tenant || mode == Incremental)
    ensures key in after.products.rows && after.products.rows[key].id == before.products.rows[key].id
  {
    if key.tenant == tenant && key.gid in Gids(batch.products) {
      var i :| 0 <= i < |batch.products| && batch.products[i].gid == key.gid;
      assert Stores(before.products, after.products, Key(tenant, batch.products[i].gid), batch.products[i],
                    batch.syncedAt.value);
    }
  }

  lemma WrittenVariant(before: Mirror, after: Mirror, tenant: Tenant, batch: Batch, mode: SyncMode, i: nat)
    requires ReadyToWrite(batch) && ReplacesMirror(before, after, tenant, batch, mode) && i < |batch.variants|
    ensures var v, key := batch.variants[i], Key(tenant, batch.variants[i].gid);
            var ids := ProductIds(after.products, tenant);
            && key in after.variants.rows && v.body.productGid in ids
            && after.variants.rows[key] ==
               Row(after.variants.rows[key].id, v.updatedAt, batch.syncedAt.value, Resolve(v, ids).body)
  {
    var items := ResolveAll(batch.variants, ProductIds(after.products, tenant));
    assert Stores(before.variants, after.variants, Key(tenant, items[i].gid), items[i], batch.syncedAt.value);
  }

  lemma SameGids(items: seq<Variant>, ids: map<string, nat>)
    requires forall i :: 0 <= i < |items| ==> items[i].body.productGid in ids
    ensures Gids(ResolveAll(items, ids)) == Gids(items)
  {
    var resolved := ResolveAll(items, ids);
    assert forall i :: 0 <= i < |items| ==> resolved[i].gid == items[i].gid;
  }

  lemma VariantStep(before: Mirror, after: Mirror, tenant: Tenant, batch: Batch, mode: SyncMode,
                    writes: seq<Write<VariantBody>>, key: Key)
    requires ReadyToWrite(batch) && ReplacesMirror(before, after, tenant, batch, mode) && VariantAt(before, writes, key)
    ensures VariantAt(after, writes + [VariantWrite(tenant, batch, mode)], key)
  {
    var w := VariantWrite(tenant, batch, mode);
    ShownStep(writes, w, key);
    SameGids(batch.variants, ProductIds(after.products, tenant));
    if key.tenant == tenant && key.gid in Gids(batch.variants) {
      var i :| 0 <= i < |batch.variants| && batch.variants[i].gid == key.gid;
      FoundIsIt(batch.variants, i);
      WrittenVariant(before, after, tenant, batch, mode, i);
    } else if key in before.variants.rows && (key.tenant != tenant || mode == Incremental) {
      var s := ShownBy(writes, key).value;
      StayingProductKeepsId(before, after, tenant, batch, mode, Key(key.tenant, s.item.body.productGid));
    }
  }

  // ---- Runs -----------------------------------------------------------------------------------------

  /** A mirror that committed. */
  datatype Stored = Stored(tenant: Tenant, run: RunId, mode: SyncMode, batch: Batch)

  function ProductWrite(s: Stored): Write<ProductBody>
    requires s.batch.syncedAt.Some?
  {
    Write(s.tenant, s.batch.products, s.batch.syncedAt.value, s.mode == Incremental)
  }

  function VariantWrite(tenant: Tenant, batch: Batch, mode: SyncMode): Write<VariantBody>
    requires batch.syncedAt.Some?
  {
    Write(tenant, batch.variants, batch.syncedAt.value, mode == Incremental)
  }

  function CollectionWrite(s: Stored): Write<CollectionBody>
    requires s.batch.syncedAt.Some?
  {
    Write(s.tenant, s.batch.collections, s.batch.syncedAt.value, s.mode == Incremental)
  }

  function ThemeWrite(s: Stored): Write<ThemeBody>
    requires s.batch.syncedAt.Some?
  {
    Write(s.tenant, s.batch.themes, s.batch.syncedAt.value, s.mode == Incremental)
  }

  ghost predicate AllReady(stored: seq<Stored>) {
    forall i :: 0 <= i < |stored| ==> ReadyToWrite(stored[i].batch)
  }

  function ProductWrites(stored: seq<Stored>): (r: seq<Write<ProductBody>>)
    requires forall i :: 0 <= i < |stored| ==> stored[i].batch.syncedAt.Some?
    ensures |r| == |stored| && forall i :: 0 <= i < |stored| ==> r[i] == ProductWrite(stored[i])
  {
    seq(|stored|, i requires 0 <= i < |stored| => ProductWrite(stored[i]))
  }

  function VariantWrites(stored: seq<Stored>): (r: seq<Write<VariantBody>>)
    requires forall i :: 0 <= i < |stored| ==> stored[i].batch.syncedAt.Some?
    ensures |r| == |stored|
    ensures forall i :: 0 <= i < |stored| ==> r[i] == VariantWrite(stored[i].tenant, stored[i].batch, stored[i].mode)
  {
    seq(|stored|, i requires 0 <= i < |stored| => VariantWrite(stored[i].tenant, stored[i].batch, stored[i].mode))
  }

  function CollectionWrites(stored: seq<Stored>): (r: seq<Write<CollectionBody>>)
    requires forall i :: 0 <= i < |stored| ==> stored[i].batch.syncedAt.Some?
    ensures |r| == |stored| && forall i :: 0 <= i < |stored| ==> r[i] == CollectionWrite(stored[i])
  {
    seq(|stored|, i requires 0 <= i < |stored| => CollectionWrite(stored[i]))
  }

  function ThemeWrites(stored: seq<Stored>): (r: seq<Write<ThemeBody>>)
    requires forall i :: 0 <= i < |stored| ==> stored[i].batch.syncedAt.Some?
    ensures |r| == |stored| && forall i :: 0 <= i < |stored| ==> r[i] == ThemeWrite(stored[i])
  {
    seq(|stored|, i requires 0 <= i < |stored| => ThemeWrite(stored[i]))
  }

  /** The bookkeeping, the tables, and the mirrors stored so far. */
  datatype State = State(db: Database, mirror: Mirror, stored: seq<Stored>)

  /** Any other transaction, or ReplaceMirror with the tables it leaves. */
  datatype Step =
    | Other(t: Transaction)
    | Replace(tenant: Tenant, run: RunId, lease: LeaseId, mode: SyncMode, batch: Batch, mirror: Mirror)

  /** ReplaceMirror commits its tables and its bookkeeping together, or neither. */
  ghost predicate Commits(s: State, step: Step)
    requires step.Replace?
  {
    && ReadyToWrite(step.batch)
    && ReplacesMirror(s.mirror, step.mirror, step.tenant, step.batch, step.mode)
    && CommitMirror(s.db, step.tenant, step.run, step.lease, CountsOf(step.batch)).result.Success?
  }

  ghost function Next(s: State, step: Step): State {
    match step
    case Other(t) => if t.DoCommit? then s else s.(db := Apply(s.db, t))
    case Replace(tenant, run, lease, mode, batch, mirror) =>
      if Commits(s, step)
      then State(CommitMirror(s.db, tenant, run, lease, CountsOf(batch)).db, mirror,
                 s.stored + [Stored(tenant, run, mode, batch)])
      else s
  }

  ghost function Run(s: State, steps: seq<Step>): State
    decreases |steps|
  {
    if steps == [] then s else Run(Next(s, steps[0]), steps[1..])
  }

  ghost predicate Start(s: State) {
    && Initial(s.db) && s.stored == []
    && s.mirror == Mirror(Table(map[], 0), Table(map[], 0), Table(map[], 0), Table(map[], 0))
  }

  /** The tables show the stored mirrors, one after the other. */
  ghost predicate TablesShow(m: Mirror, stored: seq<Stored>) {
    && AllReady(stored)
    && Shows(m.products, ProductWrites(stored)) && VariantsShow(m, VariantWrites(stored))
    && Shows(m.collections, CollectionWrites(stored)) && Shows(m.themes, ThemeWrites(stored))
  }

  /** The stored mirrors are the committed ones of the log, in its order. */
  ghost predicate Logged(stored: seq<Stored>, commits: seq<Commit>) {
    && |stored| == |commits|
    && forall i :: 0 <= i < |stored| ==> stored[i].tenant == commits[i].tenant && stored[i].run == commits[i].run
  }

  ghost predicate Holds(s: State) {
    Sound(s.db) && Logged(s.stored, s.db.history.commits) && TablesShow(s.mirror, s.stored)
  }

  lemma VariantsShowMore(before: Mirror, after: Mirror, stored: seq<Stored>, x: Stored)
    requires AllReady(stored) && ReadyToWrite(x.batch) && ReplacesMirror(before, after, x.tenant, x.batch, x.mode)
    requires VariantsShow(before, VariantWrites(stored))
    ensures AllReady(stored + [x]) && VariantsShow(after, VariantWrites(stored + [x]))
  {
    assert VariantWrites(stored + [x]) == VariantWrites(stored) + [VariantWrite(x.tenant, x.batch, x.mode)];
    forall key ensures VariantAt(after, VariantWrites(stored + [x]), key) {
      assert VariantAt(before, VariantWrites(stored), key);
      VariantStep(before, after, x.tenant, x.batch, x.mode, VariantWrites(stored), key);
    }
  }

  lemma TablesShowMore(before: Mirror, after: Mirror, stored: seq<Stored>, x: Stored)
    requires TablesShow(before, stored) && ReadyToWrite(x.batch)
             && ReplacesMirror(before, after, x.tenant, x.batch, x.mode)
    ensures TablesShow(after, stored + [x])
  {
    VariantsShowMore(before, after, stored, x);
    assert ProductWrites(stored + [x]) == ProductWrites(stored) + [ProductWrite(x)];
    assert CollectionWrites(stored + [x]) == CollectionWrites(stored) + [CollectionWrite(x)];
    assert ThemeWrites(stored + [x]) == ThemeWrites(stored) + [ThemeWrite(x)];
    TableShows(before.products, after.products, ProductWrites(stored), ProductWrite(x));
    TableShows(before.collections, after.collections, CollectionWrites(stored), CollectionWrite(x));
    TableShows(before.themes, after.themes, ThemeWrites(stored), ThemeWrite(x));
  }

  lemma OtherKeepsCommits(db: Database, t: Transaction)
    requires !t.DoCommit?
    ensures Apply(db, t).history.commits == db.history.commits
  {
  }

  lemma CommitIsLogged(db: Database, tenant: Tenant, run: RunId, lease: LeaseId, counts: Counts)
    requires Tabled(db) && CommitMirror(db, tenant, run, lease, counts).result.Success?
    ensures var after := CommitMirror(db, tenant, run, lease, counts).db;
            |after.history.commits| == |db.history.commits| + 1
            && after.history.commits[..|db.history.commits|] == db.history.commits
            && after.history.commits[|db.history.commits|].tenant == tenant
            && after.history.commits[|db.history.commits|].run == run
  {
    CommitMirrorResult(db, tenant, run, lease, counts);
  }

  lemma OtherHolds(s: State, t: Transaction)
    requires Holds(s) && !t.DoCommit?
    ensures Holds(s.(db := Apply(s.db, t)))
  {
    ApplyKeepsSound(s.db, t);
    OtherKeepsCommits(s.db, t);
  }

  lemma ReplaceHolds(s: State, step: Step)
    requires Holds(s) && step.Replace? && Commits(s, step)
    ensures Holds(Next(s, step))
  {
    var x := Stored(step.tenant, step.run, step.mode, step.batch);
    CommitKeepsSound(s.db, step.tenant, step.run, step.lease, CountsOf(step.batch));
    CommitIsLogged(s.db, step.tenant, step.run, step.lease, CountsOf(step.batch));
    LoggedMore(s.stored, x, s.db.history.commits,
               CommitMirror(s.db, step.tenant, step.run, step.lease, CountsOf(step.batch)).db.history.commits);
    TablesShowMore(s.mirror, step.mirror, s.stored, x);
  }

  lemma LoggedMore(stored: seq<Stored>, x: Stored, commits: seq<Commit>, more: seq<Commit>)
    requires Logged(stored, commits) && |more| == |commits| + 1 && more[..|commits|] == commits
    requires more[|commits|].tenant == x.tenant && more[|commits|].run == x.run
    ensures Logged(stored + [x], more)
  {
    assert forall i :: 0 <= i < |commits| ==> more[i] == more[..|commits|][i];
  }

  lemma NextHolds(s: State, step: Step)
    requires Holds(s)
    ensures Holds(Next(s, step))
  {
    if step.Other? && !step.t.DoCommit? {
      OtherHolds(s, step.t);
    } else if step.Replace? && Commits(s, step) {
      ReplaceHolds(s, step);
    }
  }

  lemma {:induction false} RunHolds(s: State, steps: seq<Step>)
    requires Holds(s)
    ensures Holds(Run(s, steps))
    decreases |steps|
  {
    if steps != [] {
      NextHolds(s, steps[0]);
      RunHolds(Next(s, steps[0]), steps[1..]);
    }
  }

  lemma StartHolds(s: State)
    requires Start(s)
    ensures Holds(s)
  {
    InitialIsSound(s.db);
  }

  /**
   After any transactions the four tables show, for every tenant, its committed mirrors in the
   order of the log: the last full one, overlaid by the incremental ones since.
   */
  lemma TablesShowTheLog(s: State, steps: seq<Step>)
    requires Start(s)
    ensures var now := Run(s, steps);
            TablesShow(now.mirror, now.stored) && Logged(now.stored, now.db.history.commits)
  {
    StartHolds(s);
    RunHolds(s, steps);
  }

  /** No later mirror of the tenant has been stored. */
  ghost predicate IsLast(stored: seq<Stored>, k: int) {
    0 <= k < |stored| && forall j :: k < j < |stored| ==> stored[j].tenant != stored[k].tenant
  }

  lemma {:induction false} LaterTenantsShowNothing<T>(writes: seq<Write<T>>, k: nat, key: Key)
    requires k < |writes| && writes[k].tenant == key.tenant
    requires forall j :: k < j < |writes| ==> writes[j].tenant != key.tenant
    ensures ShownBy(writes, key) == ShownBy(writes[..k + 1], key)
    decreases |writes|
  {
    if k + 1 < |writes| {
      var prefix := writes[..|writes| - 1];
      assert prefix[..k + 1] == writes[..k + 1];
      LaterTenantsShowNothing(prefix, k, key);
    } else {
      assert writes[..k + 1] == writes;
    }
  }

  /** The tenant's rows are the items, all of them and no others. */
  ghost predicate ShowsExactly<T>(table: Table<T>, tenant: Tenant, items: seq<Item<T>>, at: int) {
    && (forall gid :: Key(tenant, gid) in table.rows <==> gid in Gids(items))
    && (forall i :: 0 <= i < |items| ==> RowShows(table, Key(tenant, items[i].gid), items[i], at))
  }

  ghost predicate RowShows<T>(table: Table<T>, key: Key, item: Item<T>, at: int) {
    key in table.rows && table.rows[key] == Row(table.rows[key].id, item.updatedAt, at, item.body)
  }

  lemma LastFullWrite<T>(writes: seq<Write<T>>, k: nat, key: Key)
    requires k < |writes| && writes[k].tenant == key.tenant && !writes[k].keep
    requires forall j :: k < j < |writes| ==> writes[j].tenant != key.tenant
    ensures ShownBy(writes, key) ==
            if key.gid in Gids(writes[k].items) then Some(Shown(Find(writes[k].items, key.gid).value, writes[k].at))
            else None
  {
    LaterTenantsShowNothing(writes, k, key);
    assert writes[..k + 1] == writes[..k] + [writes[k]];
    ShownStep(writes[..k], writes[k], key);
  }

  lemma LastFullTable<T(!new)>(table: Table<T>, writes: seq<Write<T>>, k: nat)
    requires Shows(table, writes) && k < |writes| && !writes[k].keep && DistinctGids(writes[k].items)
    requires forall j :: k < j < |writes| ==> writes[j].tenant != writes[k].tenant
    ensures ShowsExactly(table, writes[k].tenant, writes[k].items, writes[k].at)
  {
    var w := writes[k];
    forall gid ensures Key(w.tenant, gid) in table.rows <==> gid in Gids(w.items) {
      LastFullWrite(writes, k, Key(w.tenant, gid));
      assert ShowsAt(table, writes, Key(w.tenant, gid));
    }
    forall i | 0 <= i < |w.items| ensures RowShows(table, Key(w.tenant, w.items[i].gid), w.items[i], w.at) {
      FoundIsIt(w.items, i);
      LastFullWrite(writes, k, Key(w.tenant, w.items[i].gid));
      assert ShowsAt(table, writes, Key(w.tenant, w.items[i].gid));
    }
  }

  /** The same for variants, each below the present row of its parent. */
  ghost predicate VariantsExactly(m: Mirror, tenant: Tenant, items: seq<Variant>, at: int) {
    && (forall gid :: Key(tenant, gid) in m.variants.rows <==> gid in Gids(items))
    && (forall i :: 0 <= i < |items| ==> VariantShows(m, tenant, items[i], at))
  }

  ghost predicate VariantShows(m: Mirror, tenant: Tenant, v: Variant, at: int) {
    var ids := ProductIds(m.products, tenant);
    v.body.productGid in ids && RowShows(m.variants, Key(tenant, v.gid), Resolve(v, ids), at)
  }

  lemma LastFullVariants(m: Mirror, writes: seq<Write<VariantBody>>, k: nat)
    requires VariantsShow(m, writes) && k < |writes| && !writes[k].keep && DistinctGids(writes[k].items)
    requires forall j :: k < j < |writes| ==> writes[j].tenant != writes[k].tenant
    ensures VariantsExactly(m, writes[k].tenant, writes[k].items, writes[k].at)
  {
    var w := writes[k];
    forall gid ensures Key(w.tenant, gid) in m.variants.rows <==> gid in Gids(w.items) {
      LastFullWrite(writes, k, Key(w.tenant, gid));
      assert VariantAt(m, writes, Key(w.tenant, gid));
    }
    forall i | 0 <= i < |w.items| ensures VariantShows(m, w.tenant, w.items[i], w.at) {
      FoundIsIt(w.items, i);
      LastFullWrite(writes, k, Key(w.tenant, w.items[i].gid));
      assert VariantAt(m, writes, Key(w.tenant, w.items[i].gid));
    }
  }

  /** The tenant's four tables are this batch. */
  ghost predicate MirrorIs(m: Mirror, tenant: Tenant, batch: Batch)
    requires batch.syncedAt.Some?
  {
    var at := batch.syncedAt.value;
    && ShowsExactly(m.products, tenant, batch.products, at) && VariantsExactly(m, tenant, batch.variants, at)
    && ShowsExactly(m.collections, tenant, batch.collections, at) && ShowsExactly(m.themes, tenant, batch.themes, at)
  }

  lemma LastFullMirror(m: Mirror, stored: seq<Stored>, k: nat)
    requires TablesShow(m, stored) && IsLast(stored, k) && stored[k].mode == Full
    ensures stored[k].batch.syncedAt.Some? && MirrorIs(m, stored[k].tenant, stored[k].batch)
  {
    assert ReadyToWrite(stored[k].batch);
    LastFullTable(m.products, ProductWrites(stored), k);
    LastFullVariants(m, VariantWrites(stored), k);
    LastFullTable(m.collections, CollectionWrites(stored), k);
    LastFullTable(m.themes, ThemeWrites(stored), k);
  }

  /**
   If the tenant's last committed mirror was full, its four tables are exactly that batch, and the
   store was read for it after every earlier mirror of the tenant had committed.
   */
  lemma LastFullMirrorIsShown(s: State, steps: seq<Step>, k: nat)
    requires Start(s)
    requires var now := Run(s, steps); IsLast(now.stored, k) && now.stored[k].mode == Full
    ensures var now := Run(s, steps);
            && now.stored[k].batch.syncedAt.Some? && MirrorIs(now.mirror, now.stored[k].tenant, now.stored[k].batch)
            && ReadLast(now.db.history.commits, k)
  {
    StartHolds(s);
    RunHolds(s, steps);
    var now := Run(s, steps);
    LastFullMirror(now.mirror, now.stored, k);
    assert Logged(now.stored, now.db.history.commits);
  }

  /** Commit k's lease was taken after every earlier commit of its store. */
  ghost predicate ReadLast(commits: seq<Commit>, k: int) {
    0 <= k < |commits| && forall j :: 0 <= j < k && commits[j].tenant == commits[k].tenant ==>
      commits[j].at < commits[k].leaseTaken
  }

  /** A ReplaceMirror that succeeds is such a step, with the normal form of its input. */
  lemma SuccessIsAStep(s: State, tenant: Tenant, run: RunId, lease: LeaseId, mode: SyncMode, input: Batch, now: int,
                       batch: Batch, after: Mirror)
    requires Acceptable(input) && NormalForm(input, now, batch)
    requires ReplacesMirror(s.mirror, after, tenant, batch, mode)
    requires CommitMirror(s.db, tenant, run, lease, CountsOf(batch)).result.Success?
    ensures Next(s, Replace(tenant, run, lease, mode, batch, after)) ==
            State(CommitMirror(s.db, tenant, run, lease, CountsOf(batch)).db, after,
                  s.stored + [Stored(tenant, run, mode, batch)])
  {
    NormalFormIsReady(input, now, batch);
  }
}
