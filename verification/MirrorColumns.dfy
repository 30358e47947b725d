/** What a replaced mirror shows, column by column, and which batches the tables accept. */
module MirrorColumns {
  import opened Common
  import opened MirrorBatch
  import opened MirrorTables
  import opened SyncDatabase

  /** The row was there under this GID, or it is new. */
  predicate SameOrNewId<T>(before: Table<T>, after: Table<T>, key: Key)
    requires key in after.rows
  {
    if key in before.rows then after.rows[key].id == before.rows[key].id else before.nextRow <= after.rows[key].id
  }

  lemma ProductColumns(before: Mirror, after: Mirror, tenant: Tenant, batch: Batch, mode: SyncMode, i: nat)
    requires batch.syncedAt.Some? && ReplacesMirror(before, after, tenant, batch, mode) && i < |batch.products|
    ensures var p, key := batch.products[i], Key(tenant, batch.products[i].gid);
            && key in after.products.rows && SameOrNewId(before.products, after.products, key)
            && var row := after.products.rows[key];
            && row.updatedAt == p.updatedAt && row.syncedAt == batch.syncedAt.value
            && row.body.handle == p.body.handle && row.body.title == p.body.title && row.body.status == p.body.status
            && row.body.vendor == p.body.vendor && row.body.productType == p.body.productType
            && row.body.payload == p.body.payload
  {
    assert Stores(before.products, after.products, Key(tenant, batch.products[i].gid), batch.products[i],
                  batch.syncedAt.value);
  }

  /** A variant hangs below its product's row; a price that is empty text is NULL. */
  lemma VariantRowColumns(before: Mirror, after: Mirror, tenant: Tenant, batch: Batch, mode: SyncMode, i: nat)
    requires batch.syncedAt.Some? && ReplacesMirror(before, after, tenant, batch, mode) && i < |batch.variants|
    ensures var v, key := batch.variants[i], Key(tenant, batch.variants[i].gid);
            && key in after.variants.rows && SameOrNewId(before.variants, after.variants, key)
            && Key(tenant, v.body.productGid) in after.products.rows
            && var row := after.variants.rows[key];
            && row.updatedAt == v.updatedAt && row.syncedAt == batch.syncedAt.value
            && row.body.productId == after.products.rows[Key(tenant, v.body.productGid)].id
            && row.body.sku == v.body.sku && row.body.title == v.body.title
            && row.body.price == (if v.body.price == "" then None else Some(v.body.price))
            && row.body.compareAtPrice == (if v.body.compareAtPrice == "" then None else Some(v.body.compareAtPrice))
            && row.body.inventoryQuantity == v.body.inventoryQuantity && row.body.payload == v.body.payload
  {
    var items := ResolveAll(batch.variants, ProductIds(after.products, tenant));
    assert Stores(before.variants, after.variants, Key(tenant, items[i].gid), items[i], batch.syncedAt.value);
  }

  lemma CollectionColumns(before: Mirror, after: Mirror, tenant: Tenant, batch: Batch, mode: SyncMode, i: nat)
    requires batch.syncedAt.Some? && ReplacesMirror(before, after, tenant, batch, mode) && i < |batch.collections|
    ensures var c, key := batch.collections[i], Key(tenant, batch.collections[i].gid);
            && key in after.collections.rows && SameOrNewId(before.collections, after.collections, key)
            && var row := after.collections.rows[key];
            && row.updatedAt == c.updatedAt && row.syncedAt == batch.syncedAt.value
            && row.body.handle == c.body.handle && row.body.title == c.body.title
            && row.body.collectionType == c.body.collectionType && row.body.productsCount == c.body.productsCount
            && row.body.payload == c.body.payload
  {
    assert Stores(before.collections, after.collections, Key(tenant, batch.collections[i].gid), batch.collections[i],
                  batch.syncedAt.value);
  }

  lemma ThemeColumns(before: Mirror, after: Mirror, tenant: Tenant, batch: Batch, mode: SyncMode, i: nat)
    requires batch.syncedAt.Some? && ReplacesMirror(before, after, tenant, batch, mode) && i < |batch.themes|
    ensures var t, key := batch.themes[i], Key(tenant, batch.themes[i].gid);
            && key in after.themes.rows && SameOrNewId(before.themes, after.themes, key)
            && var row := after.themes.rows[key];
            && row.updatedAt == t.updatedAt && row.syncedAt == batch.syncedAt.value
            && row.body.name == t.body.name && row.body.role == t.body.role
            && row.body.processing == t.body.processing && row.body.processingFailed == t.body.processingFailed
            && row.body.themeStoreId == t.body.themeStoreId && row.body.sourceReleaseId == t.body.sourceReleaseId
  {
    assert Stores(before.themes, after.themes, Key(tenant, batch.themes[i].gid), batch.themes[i],
                  batch.syncedAt.value);
  }

  // ---- The rows that the batch does not name ---------------------------------------------------------

  ghost predicate Names<T>(items: seq<Item<T>>, gid: string) {
    exists i :: 0 <= i < |items| && items[i].gid == gid
  }

  /** Another store's row stays; a row of this store that no item names stays only if the sync is incremental. */
  ghost predicate KeepsOrDrops<T, U>(before: Table<T>, after: Table<T>, tenant: Tenant, items: seq<Item<U>>,
                                     full: bool, key: Key) {
    (key.tenant != tenant || !Names(items, key.gid)) ==>
      if key.tenant == tenant && full then key !in after.rows
      else
        && (key in after.rows <==> key in before.rows)
        && (key in before.rows ==> after.rows[key] == before.rows[key])
  }

  lemma UnnamedRow<T>(before: Table<T>, after: Table<T>, tenant: Tenant, items: seq<Item<T>>, at: int, keep: bool,
                      key: Key)
    requires Replaces(before, after, tenant, items, at, keep)
    ensures KeepsOrDrops(before, after, tenant, items, !keep, key)
  {
    assert key.gid in Gids(items) <==> Names(items, key.gid);
  }

  lemma UnnamedVariant(before: Mirror, after: Mirror, tenant: Tenant, batch: Batch, mode: SyncMode, key: Key)
    requires batch.syncedAt.Some? && ReplacesMirror(before, after, tenant, batch, mode)
    ensures KeepsOrDrops(before.variants, after.variants, tenant, batch.variants, mode == Full, key)
  {
    var items := ResolveAll(batch.variants, ProductIds(after.products, tenant));
    UnnamedRow(before.variants, after.variants, tenant, items, batch.syncedAt.value, mode == Incremental, key);
    SameNames(batch.variants, items, key.gid);
  }

  lemma SameNames<T, U>(items: seq<Item<T>>, others: seq<Item<U>>, gid: string)
    requires |items| == |others| && forall i :: 0 <= i < |items| ==> items[i].gid == others[i].gid
    ensures Names(items, gid) <==> Names(others, gid)
  {
  }

  /** Of every table: what becomes of a row that the batch does not name. */
  lemma UnnamedRows(before: Mirror, after: Mirror, tenant: Tenant, batch: Batch, mode: SyncMode, key: Key)
    requires batch.syncedAt.Some? && ReplacesMirror(before, after, tenant, batch, mode)
    ensures KeepsOrDrops(before.products, after.products, tenant, batch.products, mode == Full, key)
    ensures KeepsOrDrops(before.variants, after.variants, tenant, batch.variants, mode == Full, key)
    ensures KeepsOrDrops(before.collections, after.collections, tenant, batch.collections, mode == Full, key)
    ensures KeepsOrDrops(before.themes, after.themes, tenant, batch.themes, mode == Full, key)
  {
    var at, keep := batch.syncedAt.value, mode == Incremental;
    UnnamedVariant(before, after, tenant, batch, mode, key);
    UnnamedRow(before.products, after.products, tenant, batch.products, at, keep, key);
    UnnamedRow(before.collections, after.collections, tenant, batch.collections, at, keep, key);
    UnnamedRow(before.themes, after.themes, tenant, batch.themes, at, keep, key);
  }

  /** Deleting a product's row takes the variants below it along, and no others. */
  lemma CascadeColumns(variants: Table<VariantColumns>, deleted: set<nat>, key: Key)
    ensures var after := Cascade(variants, deleted);
            && (key in after.rows <==> key in variants.rows && variants.rows[key].body.productId !in deleted)
            && (key in after.rows ==> after.rows[key] == variants.rows[key]) && after.nextRow == variants.nextRow
  {
  }

  // ---- What the tables accept ------------------------------------------------------------------------

  predicate IsThemeRole(role: string) {
    || role == "MAIN" || role == "UNPUBLISHED" || role == "DEMO" || role == "DEVELOPMENT"
    || role == "ARCHIVED" || role == "LOCKED" || role == "MOBILE"
  }

  predicate IsPrice(text: string, numeric: set<string>) {
    text != "" ==> text in numeric
  }

  lemma StorableMeans(batch: Batch, numeric: set<string>)
    ensures Storable(batch, numeric) <==>
              && (forall i :: 0 <= i < |batch.variants| ==>
                    IsPrice(batch.variants[i].body.price, numeric)
                    && IsPrice(batch.variants[i].body.compareAtPrice, numeric))
              && (forall i :: 0 <= i < |batch.collections| ==> batch.collections[i].body.productsCount >= 0)
              && (forall i :: 0 <= i < |batch.themes| ==> IsThemeRole(batch.themes[i].body.role))
  {
    assert forall i :: 0 <= i < |batch.variants| ==>
      (PricesAreNumeric(batch.variants[i], numeric) <==>
         IsPrice(batch.variants[i].body.price, numeric) && IsPrice(batch.variants[i].body.compareAtPrice, numeric));
    assert forall role :: role in THEME_ROLES <==> IsThemeRole(role);
  }

  /** The completed run counts what was stored. */
  lemma StoredCounts(db: Database, tenant: Tenant, run: RunId, lease: LeaseId, batch: Batch)
    requires CommitMirror(db, tenant, run, lease, CountsOf(batch)).result.Success? && run != db.nextId
    ensures var after := CommitMirror(db, tenant, run, lease, CountsOf(batch)).db;
            && run in after.runs && after.runs[run].counts.products == |batch.products|
            && after.runs[run].counts.variants == |batch.variants|
            && after.runs[run].counts.collections == |batch.collections|
            && after.runs[run].counts.themes == |batch.themes|
  {
  }
}
