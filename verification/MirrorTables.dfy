/**
 ReplaceMirror on the four mirror tables: upserts by GID, deletion of what a full
 read no longer contains, and the cascade from products to their variants, in one
 transaction with the bookkeeping of the sync run.
 */
module MirrorTables {
  import opened Common
  import opened Strings
  import opened MirrorBatch
  import opened SyncDatabase
  import Postgres

  /** UNIQUE (organization_id, store_id, shopify_gid) */
  datatype Key = Key(tenant: Tenant, gid: string)

  datatype Row<+T> = Row(id: nat, updatedAt: Option<int>, syncedAt: int, body: T)

  /** Row identifiers are generated and never reused. */
  datatype Table<+T> = Table(rows: map<Key, Row<T>>, nextRow: nat)

  datatype VariantColumns = VariantColumns(
    productId: nat, sku: string, title: string, price: Option<string>, compareAtPrice: Option<string>,
    inventoryQuantity: Option<int>, payload: Payload)

  datatype Mirror = Mirror(
    products: Table<ProductBody>, variants: Table<VariantColumns>,
    collections: Table<CollectionBody>, themes: Table<ThemeBody>)

  datatype ReplaceError = Invalid(reason: NormalizeError) | ConstraintViolation | Rejected(error: SyncError)

  const THEME_ROLES := {"ARCHIVED", "DEMO", "DEVELOPMENT", "LOCKED", "MAIN", "UNPUBLISHED", "MOBILE"}

  // ---- Statements ----------------------------------------------------------------------------

  /** INSERT ... ON CONFLICT (organization_id, store_id, shopify_gid) DO UPDATE */
  function Upsert<T>(t: Table<T>, tenant: Tenant, item: Item<T>, syncedAt: int): Table<T> {
    var key := Key(tenant, item.gid);
    if key in t.rows
    then t.(rows := t.rows[key := Row(t.rows[key].id, item.updatedAt, syncedAt, item.body)])
    else Table(t.rows[key := Row(t.nextRow, item.updatedAt, syncedAt, item.body)], t.nextRow + 1)
  }

  function UpsertAll<T>(t: Table<T>, tenant: Tenant, items: seq<Item<T>>, syncedAt: int): Table<T> {
    if items == [] then t
    else Upsert(UpsertAll(t, tenant, items[..|items| - 1], syncedAt), tenant, items[|items| - 1], syncedAt)
  }

  /** DELETE ... WHERE organization_id=$1 AND store_id=$2 AND NOT (shopify_gid = ANY($3)) */
  function DeleteMissing<T>(t: Table<T>, tenant: Tenant, gids: set<string>): Table<T> {
    t.(rows := map k | k in t.rows && (k.tenant != tenant || k.gid in gids) :: t.rows[k])
  }

  function RowIds<T>(t: Table<T>): set<nat> {
    set k | k in t.rows :: t.rows[k].id
  }

  /** product_id REFERENCES shopify_products ON DELETE CASCADE */
  function Cascade(variants: Table<VariantColumns>, deleted: set<nat>): Table<VariantColumns> {
    variants.(rows := map k | k in variants.rows && variants.rows[k].body.productId !in deleted :: variants.rows[k])
  }

  function NullIfBlank(s: string): Option<string> {
    if s == "" then None else Some(s)
  }

  function Resolve(v: Variant, productIds: map<string, nat>): Item<VariantColumns>
    requires v.body.productGid in productIds
  {
    Item(v.gid, v.updatedAt, VariantColumns(
      productIds[v.body.productGid], v.body.sku, v.body.title, NullIfBlank(v.body.price),
      NullIfBlank(v.body.compareAtPrice), v.body.inventoryQuantity, v.body.payload))
  }

  function ResolveAll(items: seq<Variant>, productIds: map<string, nat>): (r: seq<Item<VariantColumns>>)
    requires forall i :: 0 <= i < |items| ==> items[i].body.productGid in productIds
    ensures |r| == |items| && forall i :: 0 <= i < |items| ==> r[i] == Resolve(items[i], productIds)
  {
    seq(|items|, i requires 0 <= i < |items| => Resolve(items[i], productIds))
  }

  ghost function Gids<T>(items: seq<Item<T>>): set<string> {
    set i | 0 <= i < |items| :: items[i].gid
  }

  // ---- What holds of the tables between transactions ---------------------------------------------

  /** Primary keys. */
  ghost predicate UniqueIds<T>(t: Table<T>) {
    && (forall k :: k in t.rows ==> t.rows[k].id < t.nextRow)
    && (forall j, k :: j in t.rows && k in t.rows && t.rows[j].id == t.rows[k].id ==> j == k)
  }

  /** FOREIGN KEY (organization_id, store_id, product_id) */
  ghost predicate Parented(m: Mirror) {
    forall k :: k in m.variants.rows ==> HasProduct(m, k)
  }

  ghost predicate HasProduct(m: Mirror, k: Key)
    requires k in m.variants.rows
  {
    exists p ::
      p in m.products.rows && p.tenant == k.tenant && m.products.rows[p].id == m.variants.rows[k].body.productId
  }

  ghost predicate Consistent(m: Mirror) {
    UniqueIds(m.products) && UniqueIds(m.variants) && UniqueIds(m.collections) && UniqueIds(m.themes) && Parented(m)
  }

  // ---- Plain replacement --------------------------------------------------------------------------

  /** The row an item gets: its own columns, under the identifier its GID already had or a new one. */
  ghost predicate Stores<T>(before: Table<T>, after: Table<T>, key: Key, item: Item<T>, syncedAt: int) {
    && key in after.rows
    && after.rows[key] == Row(after.rows[key].id, item.updatedAt, syncedAt, item.body)
    && if key in before.rows then after.rows[key].id == before.rows[key].id
       else before.nextRow <= after.rows[key].id < after.nextRow
  }

  /** The tenant's rows are the items, and with `keep` also the rows no item names; nobody else's rows change. */
  ghost predicate Replaces<T>(
    before: Table<T>, after: Table<T>, tenant: Tenant, items: seq<Item<T>>, syncedAt: int, keep: bool)
  {
    && before.nextRow <= after.nextRow
    && (forall i :: 0 <= i < |items| ==> Stores(before, after, Key(tenant, items[i].gid), items[i], syncedAt))
    && (forall k :: k in after.rows && !(k.tenant == tenant && k.gid in Gids(items)) ==>
          k in before.rows && after.rows[k] == before.rows[k] && (k.tenant == tenant ==> keep))
    && (forall k :: k in before.rows && (k.tenant != tenant || keep) ==> k in after.rows)
  }

  /** The parents of the batch's variants, by the identifiers the product table now has. */
  function ProductIds(products: Table<ProductBody>, tenant: Tenant): (ids: map<string, nat>)
    ensures forall g :: g in ids <==> Key(tenant, g) in products.rows
    ensures forall g :: g in ids ==> ids[g] == products.rows[Key(tenant, g)].id
  {
    var gids := set k | k in products.rows && k.tenant == tenant :: k.gid;
    assert forall g :: Key(tenant, g) in products.rows ==> Key(tenant, g).gid in gids;
    map g | g in gids :: products.rows[Key(tenant, g)].id
  }

  ghost predicate ReplacesMirror(before: Mirror, after: Mirror, tenant: Tenant, batch: Batch, mode: SyncMode)
    requires batch.syncedAt.Some?
  {
    var at, keep := batch.syncedAt.value, mode == Incremental;
    && Replaces(before.products, after.products, tenant, batch.products, at, keep)
    && (forall i :: 0 <= i < |batch.variants| ==> Key(tenant, batch.variants[i].body.productGid) in after.products.rows)
    && Replaces(before.variants, after.variants, tenant,
                ResolveAll(batch.variants, ProductIds(after.products, tenant)), at, keep)
    && Replaces(before.collections, after.collections, tenant, batch.collections, at, keep)
    && Replaces(before.themes, after.themes, tenant, batch.themes, at, keep)
  }

  // ---- The upsert loops -------------------------------------------------------------------------

  ghost predicate DistinctGids<T>(items: seq<Item<T>>) {
    forall i, j :: 0 <= i < j < |items| ==> items[i].gid != items[j].gid
  }

  lemma SortedIsDistinct<T>(items: seq<Item<T>>)
    requires SortedByGid(items)
    ensures DistinctGids(items)
  {
    forall i, j | 0 <= i < j < |items| ensures items[i].gid != items[j].gid {
      LessIsIrreflexive(items[i].gid);
      assert Less(items[i].gid, items[j].gid);
    }
  }

  lemma {:induction false} UpsertsReplace<T>(t: Table<T>, tenant: Tenant, items: seq<Item<T>>, syncedAt: int)
    requires DistinctGids(items) && UniqueIds(t)
    ensures Replaces(t, UpsertAll(t, tenant, items, syncedAt), tenant, items, syncedAt, true)
    ensures UniqueIds(UpsertAll(t, tenant, items, syncedAt))
  {
    if items != [] {
      var prefix, x := items[..|items| - 1], items[|items| - 1];
      UpsertsReplace(t, tenant, prefix, syncedAt);
      assert items == prefix + [x];
      UpsertAfter(t, UpsertAll(t, tenant, prefix, syncedAt), tenant, prefix, x, syncedAt);
    }
  }

  lemma GidsAfter<T>(prefix: seq<Item<T>>, x: Item<T>)
    ensures Gids(prefix + [x]) == Gids(prefix) + {x.gid}
  {
    var items := prefix + [x];
    assert items[|prefix|] == x;
    assert forall i :: 0 <= i < |prefix| ==> items[i] == prefix[i];
  }

  lemma UpsertKeepsIds<T>(u: Table<T>, tenant: Tenant, x: Item<T>, syncedAt: int)
    requires UniqueIds(u)
    ensures UniqueIds(Upsert(u, tenant, x, syncedAt))
  {
  }

  lemma UpsertAfter<T>(t: Table<T>, u: Table<T>, tenant: Tenant, prefix: seq<Item<T>>, x: Item<T>, syncedAt: int)
    requires DistinctGids(prefix + [x]) && Replaces(t, u, tenant, prefix, syncedAt, true) && UniqueIds(u)
    ensures Replaces(t, Upsert(u, tenant, x, syncedAt), tenant, prefix + [x], syncedAt, true)
    ensures UniqueIds(Upsert(u, tenant, x, syncedAt))
  {
    var items, after, key := prefix + [x], Upsert(u, tenant, x, syncedAt), Key(tenant, x.gid);
    UpsertKeepsIds(u, tenant, x, syncedAt);
    GidsAfter(prefix, x);
    assert x.gid !in Gids(prefix) by {
      assert items[|prefix|] == x && forall i :: 0 <= i < |prefix| ==> items[i] == prefix[i];
    }
    forall i | 0 <= i < |items| ensures Stores(t, after, Key(tenant, items[i].gid), items[i], syncedAt) {
      if i < |prefix| {
        assert Stores(t, u, Key(tenant, prefix[i].gid), prefix[i], syncedAt) && prefix[i].gid in Gids(prefix);
      } else {
        NewcomerIsStored(t, u, tenant, prefix, x, syncedAt);
      }
    }
  }

  lemma NewcomerIsStored<T>(t: Table<T>, u: Table<T>, tenant: Tenant, prefix: seq<Item<T>>, x: Item<T>, syncedAt: int)
    requires x.gid !in Gids(prefix) && Replaces(t, u, tenant, prefix, syncedAt, true)
    ensures Stores(t, Upsert(u, tenant, x, syncedAt), Key(tenant, x.gid), x, syncedAt)
  {
  }

  // ---- Deleting what is missing ---------------------------------------------------------------

  lemma DeletionReplaces<T>(
    before: Table<T>, upserted: Table<T>, tenant: Tenant, items: seq<Item<T>>, syncedAt: int)
    requires Replaces(before, upserted, tenant, items, syncedAt, true)
    ensures Replaces(before, DeleteMissing(upserted, tenant, Gids(items)), tenant, items, syncedAt, false)
  {
    var after := DeleteMissing(upserted, tenant, Gids(items));
    forall i | 0 <= i < |items| ensures Stores(before, after, Key(tenant, items[i].gid), items[i], syncedAt) {
      assert Stores(before, upserted, Key(tenant, items[i].gid), items[i], syncedAt);
      assert items[i].gid in Gids(items);
    }
  }

  /** A variant names a surviving product: its own, or one of the batch. */
  ghost predicate ParentSurvives(products: Table<ProductBody>, k: Key, tenant: Tenant, gids: set<string>, id: nat) {
    exists p ::
      p in products.rows && (p.tenant != tenant || p.gid in gids) && p.tenant == k.tenant && products.rows[p].id == id
  }

  /** The cascade of the product deletion finds no variant left to delete. */
  lemma CascadeFindsNothing(products: Table<ProductBody>, variants: Table<VariantColumns>, tenant: Tenant,
                            gids: set<string>)
    requires UniqueIds(products)
    requires forall k :: k in variants.rows ==>
               ParentSurvives(products, k, tenant, gids, variants.rows[k].body.productId)
    ensures Cascade(variants, RowIds(products) - RowIds(DeleteMissing(products, tenant, gids))) == variants
  {
    var kept := DeleteMissing(products, tenant, gids);
    forall k | k in variants.rows ensures variants.rows[k].body.productId in RowIds(kept) {
      var p :| p in products.rows && (p.tenant != tenant || p.gid in gids) && p.tenant == k.tenant
               && products.rows[p].id == variants.rows[k].body.productId;
      assert p in kept.rows;
    }
  }

  /** After the upserts, each remaining variant hangs below a product that stays, even if its old parent goes. */
  lemma ParentsSurvive(before: Mirror, products: Table<ProductBody>, variants: Table<VariantColumns>,
                       tenant: Tenant, batch: Batch, syncedAt: int)
    requires Parented(before) && Replaces(before.products, products, tenant, batch.products, syncedAt, true)
    requires forall i :: 0 <= i < |batch.variants| ==> batch.variants[i].body.productGid in Gids(batch.products)
    requires forall g :: g in Gids(batch.products) ==> Key(tenant, g) in products.rows
    requires Replaces(before.variants, variants, tenant, ResolveAll(batch.variants, ProductIds(products, tenant)),
                      syncedAt, false)
    ensures forall k :: k in variants.rows ==>
              ParentSurvives(products, k, tenant, Gids(batch.products), variants.rows[k].body.productId)
  {
    var items := ResolveAll(batch.variants, ProductIds(products, tenant));
    forall k | k in variants.rows
      ensures ParentSurvives(products, k, tenant, Gids(batch.products), variants.rows[k].body.productId)
    {
      if k.tenant == tenant && k.gid in Gids(items) {
        var i :| 0 <= i < |items| && items[i].gid == k.gid;
        assert Stores(before.variants, variants, Key(tenant, items[i].gid), items[i], syncedAt);
        var p := Key(tenant, batch.variants[i].body.productGid);
        assert p in products.rows && products.rows[p].id == variants.rows[k].body.productId;
      } else {
        assert HasProduct(before, k);
        StrangerKeepsParent(before, products, tenant, batch.products, syncedAt, k);
      }
    }
  }

  lemma StrangerKeepsParent(before: Mirror, products: Table<ProductBody>, tenant: Tenant, items: seq<Product>,
                            syncedAt: int, k: Key)
    requires Replaces(before.products, products, tenant, items, syncedAt, true)
    requires k in before.variants.rows && HasProduct(before, k) && k.tenant != tenant
    ensures ParentSurvives(products, k, tenant, Gids(items), before.variants.rows[k].body.productId)
  {
    var p :| p in before.products.rows && p.tenant == k.tenant
             && before.products.rows[p].id == before.variants.rows[k].body.productId;
    assert p in products.rows && products.rows[p] == before.products.rows[p];
  }

  // ---- The transaction ----------------------------------------------------------------------------

  predicate PricesAreNumeric(v: Variant, numeric: set<string>) {
    && (v.body.price == "" || v.body.price in numeric)
    && (v.body.compareAtPrice == "" || v.body.compareAtPrice in numeric)
  }

  /** What the casts and the CHECK constraints accept. */
  ghost predicate Storable(batch: Batch, numeric: set<string>) {
    && (forall i :: 0 <= i < |batch.variants| ==> PricesAreNumeric(batch.variants[i], numeric))
    && (forall i :: 0 <= i < |batch.collections| ==> batch.collections[i].body.productsCount >= 0)
    && (forall i :: 0 <= i < |batch.themes| ==> batch.themes[i].body.role in THEME_ROLES)
  }

  function CountsOf(batch: Batch): Counts {
    Counts(|batch.products|, |batch.variants|, |batch.collections|, |batch.themes|)
  }

  function GidList<T>(items: seq<Item<T>>): (r: set<string>)
    ensures r == Gids(items)
  {
    set i | 0 <= i < |items| :: items[i].gid
  }

  lemma UpsertStep<T>(t: Table<T>, tenant: Tenant, items: seq<Item<T>>, syncedAt: int, i: nat)
    requires i < |items|
    ensures UpsertAll(t, tenant, items[..i + 1], syncedAt) ==
            Upsert(UpsertAll(t, tenant, items[..i], syncedAt), tenant, items[i], syncedAt)
  {
    assert items[..i + 1][..i] == items[..i];
  }

  lemma SameResolution(products: Table<ProductBody>, tenant: Tenant, items: seq<Variant>, productIds: map<string, nat>)
    requires forall i :: 0 <= i < |items| ==> items[i].body.productGid in productIds
    requires forall g :: g in productIds ==>
               Key(tenant, g) in products.rows && productIds[g] == products.rows[Key(tenant, g)].id
    ensures forall i :: 0 <= i < |items| ==> Key(tenant, items[i].body.productGid) in products.rows
    ensures ResolveAll(items, productIds) == ResolveAll(items, ProductIds(products, tenant))
  {
  }

  class Client {
    const client: Postgres.Client
    var products: Table<ProductBody>
    var variants: Table<VariantColumns>
    var collections: Table<CollectionBody>
    var themes: Table<ThemeBody>

    function View(): Mirror
      reads this
    {
      Mirror(products, variants, collections, themes)
    }

    constructor (client: Postgres.Client)
      ensures this.client == client && Consistent(View())
      ensures View() == Mirror(Table(map[], 0), Table(map[], 0), Table(map[], 0), Table(map[], 0))
    {
      this.client := client;
      products, variants, collections, themes := Table(map[], 0), Table(map[], 0), Table(map[], 0), Table(map[], 0);
    }

    method UpsertProducts(tenant: Tenant, items: seq<Product>, syncedAt: int) returns (productIds: map<string, nat>)
      modifies `products
      ensures products == UpsertAll(old(products), tenant, items, syncedAt)
      ensures forall i :: 0 <= i < |items| ==> items[i].gid in productIds
      ensures forall g :: g in productIds ==>
                Key(tenant, g) in products.rows && productIds[g] == products.rows[Key(tenant, g)].id
    {
      productIds := map[];
      for i := 0 to |items|
        invariant products == UpsertAll(old(products), tenant, items[..i], syncedAt)
        invariant forall k :: 0 <= k < i ==> items[k].gid in productIds
        invariant forall g :: g in productIds ==>
                    Key(tenant, g) in products.rows && productIds[g] == products.rows[Key(tenant, g)].id
      {
        UpsertStep(old(products), tenant, items, syncedAt, i);
        products := Upsert(products, tenant, items[i], syncedAt);
        productIds := productIds[items[i].gid := products.rows[Key(tenant, items[i].gid)].id];
      }
      assert items[..|items|] == items;
    }

    method UpsertVariants(
      tenant: Tenant, items: seq<Variant>, productIds: map<string, nat>, syncedAt: int, numeric: set<string>)
      returns (ok: bool)
      requires forall i :: 0 <= i < |items| ==> items[i].body.productGid in productIds
      modifies `variants
      ensures ok <==> forall i :: 0 <= i < |items| ==> PricesAreNumeric(items[i], numeric)
      ensures ok ==> variants == UpsertAll(old(variants), tenant, ResolveAll(items, productIds), syncedAt)
    {
      ghost var resolved := ResolveAll(items, productIds);
      for i := 0 to |items|
        invariant variants == UpsertAll(old(variants), tenant, resolved[..i], syncedAt)
        invariant forall k :: 0 <= k < i ==> PricesAreNumeric(items[k], numeric)
      {
        if !PricesAreNumeric(items[i], numeric) {
          return false;
        }
        UpsertStep(old(variants), tenant, resolved, syncedAt, i);
        variants := Upsert(variants, tenant, Resolve(items[i], productIds), syncedAt);
      }
      assert resolved[..|items|] == resolved;
      return true;
    }

    method UpsertCollections(tenant: Tenant, items: seq<Collection>, syncedAt: int) returns (ok: bool)
      modifies `collections
      ensures ok <==> forall i :: 0 <= i < |items| ==> items[i].body.productsCount >= 0
      ensures ok ==> collections == UpsertAll(old(collections), tenant, items, syncedAt)
    {
      for i := 0 to |items|
        invariant collections == UpsertAll(old(collections), tenant, items[..i], syncedAt)
        invariant forall k :: 0 <= k < i ==> items[k].body.productsCount >= 0
      {
        if items[i].body.productsCount < 0 {
          return false;
        }
        UpsertStep(old(collections), tenant, items, syncedAt, i);
        collections := Upsert(collections, tenant, items[i], syncedAt);
      }
      assert items[..|items|] == items;
      return true;
    }

    method UpsertThemes(tenant: Tenant, items: seq<Theme>, syncedAt: int) returns (ok: bool)
      modifies `themes
      ensures ok <==> forall i :: 0 <= i < |items| ==> items[i].body.role in THEME_ROLES
      ensures ok ==> themes == UpsertAll(old(themes), tenant, items, syncedAt)
    {
      for i := 0 to |items|
        invariant themes == UpsertAll(old(themes), tenant, items[..i], syncedAt)
        invariant forall k :: 0 <= k < i ==> items[k].body.role in THEME_ROLES
      {
        if items[i].body.role !in THEME_ROLES {
          return false;
        }
        UpsertStep(old(themes), tenant, items, syncedAt, i);
        themes := Upsert(themes, tenant, items[i], syncedAt);
      }
      assert items[..|items|] == items;
      return true;
    }

    /** removeMissingMirrorRows: variants first, then products with their cascade. */
    method RemoveMissing(tenant: Tenant, batch: Batch)
      modifies this
      ensures Removed(old(View()), View(), tenant, batch)
    {
      variants := DeleteMissing(variants, tenant, GidList(batch.variants));
      var before := RowIds(products);
      products := DeleteMissing(products, tenant, GidList(batch.products));
      variants := Cascade(variants, before - RowIds(products));
      collections := DeleteMissing(collections, tenant, GidList(batch.collections));
      themes := DeleteMissing(themes, tenant, GidList(batch.themes));
    }

    /** The four upsert loops; the caller rolls back when a statement fails. */
    method UpsertMirror(tenant: Tenant, batch: Batch, numeric: set<string>) returns (ok: bool)
      requires ReadyToWrite(batch)
      modifies this
      ensures ok <==> Storable(batch, numeric)
      ensures ok ==> Upserted(old(View()), View(), tenant, batch)
    {
      var syncedAt := batch.syncedAt.value;
      var productIds := UpsertProducts(tenant, batch.products, syncedAt);
      ok := UpsertVariants(tenant, batch.variants, productIds, syncedAt, numeric);
      if !ok { return; }
      SameResolution(products, tenant, batch.variants, productIds);
      ok := UpsertCollections(tenant, batch.collections, syncedAt);
      if !ok { return; }
      ok := UpsertThemes(tenant, batch.themes, syncedAt);
    }

    /** The statements on the mirror tables. */
    method WriteTables(tenant: Tenant, batch: Batch, mode: SyncMode, numeric: set<string>) returns (ok: bool)
      requires Consistent(View()) && ReadyToWrite(batch)
      modifies this
      ensures ok <==> Storable(batch, numeric)
      ensures ok ==> ReplacesMirror(old(View()), View(), tenant, batch, mode) && Consistent(View())
    {
      ok := UpsertMirror(tenant, batch, numeric);
      if !ok { return; }
      ghost var upserted := View();
      UpsertsReplaceMirror(old(View()), upserted, tenant, batch);
      if mode != Incremental {
        RemoveMissing(tenant, batch);
        DeletionsReplaceMirror(old(View()), upserted, View(), tenant, batch);
      }
    }

    /** The transaction, once the batch is normalised. */
    method StoreMirror(tenant: Tenant, run: RunId, lease: LeaseId, mode: SyncMode, batch: Batch, numeric: set<string>)
      returns (result: Result<(), ReplaceError>)
      requires Consistent(View()) && ReadyToWrite(batch)
      modifies this, client
      ensures Stored(old(View()), View(), tenant, batch, mode, numeric, result)
      ensures result.Success? ==>
                client.View() == CommitMirror(old(client.View()), tenant, run, lease, CountsOf(batch)).db
      ensures result.Failure? ==> client.View() == old(client.View())
      ensures result.Success? <==>
                && Storable(batch, numeric)
                && CommitMirror(old(client.View()), tenant, run, lease, CountsOf(batch)).result.Success?
    {
      var saved := View();
      var ok := WriteTables(tenant, batch, mode, numeric);
      if !ok {
        Rollback(saved);
        return Failure(ConstraintViolation);
      }
      result := Finish(tenant, run, lease, CountsOf(batch), saved);
    }

    /** The bookkeeping, which decides whether the tables keep what was written. */
    method Finish(tenant: Tenant, run: RunId, lease: LeaseId, counts: Counts, saved: Mirror)
      returns (result: Result<(), ReplaceError>)
      modifies this, client
      ensures var tx := CommitMirror(old(client.View()), tenant, run, lease, counts);
              client.View() == tx.db && (result.Success? <==> tx.result.Success?)
      ensures result.Success? ==> View() == old(View())
      ensures result.Failure? ==> View() == saved && client.View() == old(client.View())
    {
      var committed := client.CommitMirror(tenant, run, lease, counts);
      if committed.Failure? {
        Rollback(saved);
        return Failure(Rejected(committed.error));
      }
      return Success(());
    }

    method ReplaceMirror(
      tenant: Tenant, run: RunId, lease: LeaseId, mode: SyncMode, input: Batch, numeric: set<string>, now: int)
      returns (result: Result<(), ReplaceError>, ghost batch: Batch)
      requires Consistent(View())
      modifies this, client
      ensures Acceptable(input) ==>
                NormalForm(input, now, batch) && Stored(old(View()), View(), tenant, batch, mode, numeric, result)
      ensures !Acceptable(input) ==> result.Failure? && View() == old(View())
      ensures result.Success? ==>
                client.View() == CommitMirror(old(client.View()), tenant, run, lease, CountsOf(batch)).db
      ensures result.Failure? ==> client.View() == old(client.View())
      ensures result.Success? <==>
                && Acceptable(input) && Storable(batch, numeric)
                && CommitMirror(old(client.View()), tenant, run, lease, CountsOf(batch)).result.Success?
    {
      batch := input;
      var normalized := NormalizeMirrorBatch(input, now);
      if normalized.Failure? {
        return Failure(Invalid(normalized.error)), batch;
      }
      batch := normalized.value;
      NormalFormIsReady(input, now, batch);
      result := StoreMirror(tenant, run, lease, mode, normalized.value, numeric);
    }

    method Rollback(saved: Mirror)
      modifies this
      ensures View() == saved
    {
      products, variants, collections, themes := saved.products, saved.variants, saved.collections, saved.themes;
    }
  }

  /** All of the batch or nothing; the tables stay consistent. */
  ghost predicate Stored(
    before: Mirror, after: Mirror, tenant: Tenant, batch: Batch, mode: SyncMode, numeric: set<string>,
    result: Result<(), ReplaceError>)
  {
    && Consistent(after)
    && (result.Success? ==>
          batch.syncedAt.Some? && Storable(batch, numeric) && ReplacesMirror(before, after, tenant, batch, mode))
    && (result.Failure? ==> after == before)
  }

  ghost predicate ReadyToWrite(batch: Batch) {
    && batch.syncedAt.Some?
    && DistinctGids(batch.products) && DistinctGids(batch.variants)
    && DistinctGids(batch.collections) && DistinctGids(batch.themes)
    && forall i :: 0 <= i < |batch.variants| ==> batch.variants[i].body.productGid in Gids(batch.products)
  }

  lemma NormalFormIsReady(input: Batch, now: int, batch: Batch)
    requires Acceptable(input) && NormalForm(input, now, batch)
    ensures ReadyToWrite(batch)
  {
    SortedIsDistinct(batch.products);
    SortedIsDistinct(batch.variants);
    SortedIsDistinct(batch.collections);
    SortedIsDistinct(batch.themes);
    forall i | 0 <= i < |batch.variants| ensures batch.variants[i].body.productGid in Gids(batch.products) {
      VariantsKeepTheirParents(input, now, batch, i);
    }
  }

  ghost predicate Upserted(before: Mirror, after: Mirror, tenant: Tenant, batch: Batch)
    requires batch.syncedAt.Some?
  {
    var at := batch.syncedAt.value;
    && after.products == UpsertAll(before.products, tenant, batch.products, at)
    && (forall i :: 0 <= i < |batch.variants| ==> Key(tenant, batch.variants[i].body.productGid) in after.products.rows)
    && after.variants == UpsertAll(before.variants, tenant,
                                   ResolveAll(batch.variants, ProductIds(after.products, tenant)), at)
    && after.collections == UpsertAll(before.collections, tenant, batch.collections, at)
    && after.themes == UpsertAll(before.themes, tenant, batch.themes, at)
  }

  ghost predicate Removed(before: Mirror, after: Mirror, tenant: Tenant, batch: Batch) {
    && after.products == DeleteMissing(before.products, tenant, Gids(batch.products))
    && after.variants == Cascade(DeleteMissing(before.variants, tenant, Gids(batch.variants)),
                                 RowIds(before.products) - RowIds(after.products))
    && after.collections == DeleteMissing(before.collections, tenant, Gids(batch.collections))
    && after.themes == DeleteMissing(before.themes, tenant, Gids(batch.themes))
  }

  lemma UpsertsReplaceMirror(before: Mirror, after: Mirror, tenant: Tenant, batch: Batch)
    requires Consistent(before) && ReadyToWrite(batch) && Upserted(before, after, tenant, batch)
    ensures ReplacesMirror(before, after, tenant, batch, Incremental) && Consistent(after)
  {
    var at := batch.syncedAt.value;
    UpsertsReplace(before.products, tenant, batch.products, at);
    UpsertsReplace(before.variants, tenant, ResolveAll(batch.variants, ProductIds(after.products, tenant)), at);
    UpsertsReplace(before.collections, tenant, batch.collections, at);
    UpsertsReplace(before.themes, tenant, batch.themes, at);
    UpsertsKeepParents(before, after, tenant, batch);
  }

  lemma UpsertsKeepParents(before: Mirror, after: Mirror, tenant: Tenant, batch: Batch)
    requires Parented(before) && batch.syncedAt.Some? && ReplacesMirror(before, after, tenant, batch, Incremental)
    ensures Parented(after)
  {
    var items, at := ResolveAll(batch.variants, ProductIds(after.products, tenant)), batch.syncedAt.value;
    forall k | k in after.variants.rows ensures HasProduct(after, k) {
      if k.tenant == tenant && k.gid in Gids(items) {
        var i :| 0 <= i < |items| && items[i].gid == k.gid;
        assert Stores(before.variants, after.variants, Key(tenant, items[i].gid), items[i], at);
        var p := Key(tenant, batch.variants[i].body.productGid);
        assert p in after.products.rows && after.products.rows[p].id == after.variants.rows[k].body.productId;
      } else {
        assert HasProduct(before, k);
        ParentKeepsId(before, after, tenant, batch, k);
      }
    }
  }

  lemma ParentKeepsId(before: Mirror, after: Mirror, tenant: Tenant, batch: Batch, k: Key)
    requires batch.syncedAt.Some?
    requires Replaces(before.products, after.products, tenant, batch.products, batch.syncedAt.value, true)
    requires k in before.variants.rows && HasProduct(before, k)
    requires k in after.variants.rows && after.variants.rows[k] == before.variants.rows[k]
    ensures HasProduct(after, k)
  {
    var p :| p in before.products.rows && p.tenant == k.tenant
             && before.products.rows[p].id == before.variants.rows[k].body.productId;
    if p.tenant == tenant && p.gid in Gids(batch.products) {
      var i :| 0 <= i < |batch.products| && batch.products[i].gid == p.gid;
      assert Stores(before.products, after.products, Key(tenant, batch.products[i].gid), batch.products[i],
                    batch.syncedAt.value);
    }
    assert p in after.products.rows && after.products.rows[p].id == before.products.rows[p].id;
  }

  lemma VariantsOutliveTheCascade(before: Mirror, upserted: Mirror, after: Mirror, tenant: Tenant, batch: Batch)
    requires Parented(before) && ReadyToWrite(batch) && UniqueIds(upserted.products)
    requires ReplacesMirror(before, upserted, tenant, batch, Incremental) && Removed(upserted, after, tenant, batch)
    ensures after.variants == DeleteMissing(upserted.variants, tenant, Gids(batch.variants))
    ensures Replaces(before.variants, after.variants, tenant,
                     ResolveAll(batch.variants, ProductIds(upserted.products, tenant)), batch.syncedAt.value, false)
    ensures Parented(after)
  {
    var at := batch.syncedAt.value;
    var resolved := ResolveAll(batch.variants, ProductIds(upserted.products, tenant));
    var variants := DeleteMissing(upserted.variants, tenant, Gids(batch.variants));
    assert Gids(resolved) == Gids(batch.variants);
    DeletionReplaces(before.variants, upserted.variants, tenant, resolved, at);
    BatchProductsAreThere(before.products, upserted.products, tenant, batch.products, at);
    ParentsSurvive(before, upserted.products, variants, tenant, batch, at);
    CascadeFindsNothing(upserted.products, variants, tenant, Gids(batch.products));
    SurvivorsKeepParents(upserted.products, after, tenant, batch);
  }

  lemma BatchProductsAreThere(before: Table<ProductBody>, after: Table<ProductBody>, tenant: Tenant,
                              items: seq<Product>, at: int)
    requires Replaces(before, after, tenant, items, at, true)
    ensures forall g :: g in Gids(items) ==> Key(tenant, g) in after.rows
  {
    forall g | g in Gids(items) ensures Key(tenant, g) in after.rows {
      var i :| 0 <= i < |items| && items[i].gid == g;
      assert Stores(before, after, Key(tenant, items[i].gid), items[i], at);
    }
  }

  lemma DeletionKeepsIds<T>(t: Table<T>, tenant: Tenant, gids: set<string>)
    requires UniqueIds(t)
    ensures UniqueIds(DeleteMissing(t, tenant, gids))
  {
  }

  lemma DeletionsKeepIds(upserted: Mirror, after: Mirror, tenant: Tenant, batch: Batch)
    requires Consistent(upserted) && Removed(upserted, after, tenant, batch)
    requires after.variants == DeleteMissing(upserted.variants, tenant, Gids(batch.variants))
    ensures UniqueIds(after.products) && UniqueIds(after.variants) && UniqueIds(after.collections)
            && UniqueIds(after.themes)
  {
    DeletionKeepsIds(upserted.products, tenant, Gids(batch.products));
    DeletionKeepsIds(upserted.variants, tenant, Gids(batch.variants));
    DeletionKeepsIds(upserted.collections, tenant, Gids(batch.collections));
    DeletionKeepsIds(upserted.themes, tenant, Gids(batch.themes));
  }

  lemma DeletionsReplaceMirror(before: Mirror, upserted: Mirror, after: Mirror, tenant: Tenant, batch: Batch)
    requires Consistent(before) && ReadyToWrite(batch)
    requires ReplacesMirror(before, upserted, tenant, batch, Incremental) && Consistent(upserted)
    requires Removed(upserted, after, tenant, batch)
    ensures ReplacesMirror(before, after, tenant, batch, Full) && Consistent(after)
  {
    var at := batch.syncedAt.value;
    VariantsOutliveTheCascade(before, upserted, after, tenant, batch);
    DeletionsKeepIds(upserted, after, tenant, batch);
    DeletionReplaces(before.products, upserted.products, tenant, batch.products, at);
    DeletionReplaces(before.collections, upserted.collections, tenant, batch.collections, at);
    DeletionReplaces(before.themes, upserted.themes, tenant, batch.themes, at);
    DeletionResolves(before.products, upserted.products, after.products, tenant, batch);
  }

  /** Deleting other products leaves the batch's parents where they are. */
  lemma DeletionResolves(before: Table<ProductBody>, upserted: Table<ProductBody>, after: Table<ProductBody>,
                         tenant: Tenant, batch: Batch)
    requires ReadyToWrite(batch) && Replaces(before, upserted, tenant, batch.products, batch.syncedAt.value, true)
    requires after == DeleteMissing(upserted, tenant, Gids(batch.products))
    ensures forall i :: 0 <= i < |batch.variants| ==>
              var parent := Key(tenant, batch.variants[i].body.productGid);
              parent in upserted.rows && parent in after.rows
    ensures ResolveAll(batch.variants, ProductIds(upserted, tenant)) ==
            ResolveAll(batch.variants, ProductIds(after, tenant))
  {
    BatchProductsAreThere(before, upserted, tenant, batch.products, batch.syncedAt.value);
  }

  lemma SurvivorsKeepParents(products: Table<ProductBody>, after: Mirror, tenant: Tenant, batch: Batch)
    requires after.products == DeleteMissing(products, tenant, Gids(batch.products))
    requires forall k :: k in after.variants.rows ==>
               ParentSurvives(products, k, tenant, Gids(batch.products), after.variants.rows[k].body.productId)
    ensures Parented(after)
  {
    forall k | k in after.variants.rows ensures HasProduct(after, k) {
      assert ParentSurvives(products, k, tenant, Gids(batch.products), after.variants.rows[k].body.productId);
      var p :| p in products.rows && (p.tenant != tenant || p.gid in Gids(batch.products)) && p.tenant == k.tenant
               && products.rows[p].id == after.variants.rows[k].body.productId;
      assert p in after.products.rows;
    }
  }

  // ---- What replacement means -----------------------------------------------------------------

  /** After a full replacement the tenant's keys are the batch's GIDs, no more and no fewer. */
  lemma FullMirrorIsTheBatch<T>(before: Table<T>, after: Table<T>, tenant: Tenant, items: seq<Item<T>>, syncedAt: int,
                                gid: string)
    requires Replaces(before, after, tenant, items, syncedAt, false)
    ensures Key(tenant, gid) in after.rows <==> gid in Gids(items)
  {
    if gid in Gids(items) {
      var i :| 0 <= i < |items| && items[i].gid == gid;
      assert Stores(before, after, Key(tenant, items[i].gid), items[i], syncedAt);
    }
  }

  /** The specification leaves nothing open but the identifiers of new rows. */
  lemma ReplacementIsDetermined<T>(
    before: Table<T>, a: Table<T>, b: Table<T>, tenant: Tenant, items: seq<Item<T>>, syncedAt: int, keep: bool, k: Key)
    requires Replaces(before, a, tenant, items, syncedAt, keep) && Replaces(before, b, tenant, items, syncedAt, keep)
    ensures k in a.rows <==> k in b.rows
    ensures k in a.rows && k in b.rows ==> a.rows[k] == b.rows[k].(id := a.rows[k].id)
    ensures k in a.rows && k in b.rows && k in before.rows ==> a.rows[k].id == before.rows[k].id == b.rows[k].id
  {
    if k.tenant == tenant && k.gid in Gids(items) {
      var i :| 0 <= i < |items| && items[i].gid == k.gid;
      assert Stores(before, a, Key(tenant, items[i].gid), items[i], syncedAt);
      assert Stores(before, b, Key(tenant, items[i].gid), items[i], syncedAt);
    }
  }
}
