/**
 The normal form against the batch as it was read: which items survive, with which
 columns, and which batches are refused.
 */
module MirrorInput {
  import opened Common
  import opened MirrorBatch
  import opened Strings

  // ---- Which item of a group survives ------------------------------------------------------------

  predicate InGroup<T>(items: seq<Item<T>>, gid: string, i: int) {
    0 <= i < |items| && Trim(items[i].gid) == gid
  }

  /** Item i is no newer than item w: it has no timestamp, or one that is not greater. */
  predicate NoNewer<T>(items: seq<Item<T>>, i: nat, w: nat)
    requires i < |items| && w < |items|
  {
    items[i].updatedAt.Some? ==> items[w].updatedAt.Some? && items[w].updatedAt.value >= items[i].updatedAt.value
  }

  /**
   Item w has the greatest timestamp of its group, and of those the first place; in a group without
   timestamps it has the last.
   */
  ghost predicate Survives<T>(items: seq<Item<T>>, gid: string, w: int) {
    && InGroup(items, gid, w)
    && (forall i :: InGroup(items, gid, i) ==> NoNewer(items, i, w))
    && (forall i :: InGroup(items, gid, i) && items[i].updatedAt == items[w].updatedAt ==>
          if items[w].updatedAt.Some? then w <= i else i <= w)
  }

  /** Cleaning trims the GIDs and keeps the timestamps. */
  ghost predicate Cleans<T>(items: seq<Item<T>>, clean: seq<Item<T>>) {
    && |clean| == |items|
    && forall i :: 0 <= i < |items| ==>
         clean[i].gid == Trim(items[i].gid) && clean[i].updatedAt == items[i].updatedAt
  }

  lemma WinnerSurvives<T>(items: seq<Item<T>>, clean: seq<Item<T>>, gid: string, w: int)
    requires Cleans(items, clean) && IsWinner(clean, gid, w)
    ensures Survives(items, gid, w)
  {
    forall i | InGroup(items, gid, i) ensures NoNewer(items, i, w) {
      assert items[i].updatedAt.Some? ==> Dated(clean, gid, i);
    }
    forall i | InGroup(items, gid, i) && items[i].updatedAt == items[w].updatedAt
      ensures if items[w].updatedAt.Some? then w <= i else i <= w
    {
      assert items[i].updatedAt.Some? ==> Dated(clean, gid, i) && Dated(clean, gid, w);
    }
  }

  lemma ListedSurvives<T>(items: seq<Item<T>>, clean: seq<Item<T>>, listed: seq<Item<T>>, k: nat) returns (w: int)
    requires Cleans(items, clean) && IsListing(listed, Kept(clean)) && k < |listed|
    ensures Survives(items, listed[k].gid, w) && listed[k] == clean[w]
  {
    ListingHoldsWinners(clean, listed, k);
    w :| IsWinner(clean, listed[k].gid, w) && listed[k] == clean[w];
    WinnerSurvives(items, clean, listed[k].gid, w);
  }

  /** Every GID of the input is listed, once, in ascending order. */
  ghost predicate ListsTheGids<T>(items: seq<Item<T>>, listed: seq<Item<T>>) {
    && (forall i :: 0 <= i < |items| ==> exists k :: 0 <= k < |listed| && listed[k].gid == Trim(items[i].gid))
    && (forall j, k :: 0 <= j < k < |listed| ==> Less(listed[j].gid, listed[k].gid))
  }

  lemma ListingListsTheGids<T>(items: seq<Item<T>>, clean: seq<Item<T>>, listed: seq<Item<T>>)
    requires Cleans(items, clean) && IsListing(listed, Kept(clean))
    ensures ListsTheGids(items, listed)
  {
    forall i | 0 <= i < |items| ensures exists k :: 0 <= k < |listed| && listed[k].gid == Trim(items[i].gid) {
      ListingHoldsGroups(clean, listed, i);
    }
  }

  // ---- Column by column -------------------------------------------------------------------------

  /** A payload is kept if it is valid and not empty; otherwise it becomes the empty object. */
  predicate PayloadFrom(was: Payload, now: Payload) {
    match was
    case Json(text) => now == Json(if text == "" then "{}" else text)
    case _ => now == Json("{}")
  }

  predicate ProductFrom(p: Product, q: Product) {
    && q.gid == Trim(p.gid) && q.updatedAt == p.updatedAt
    && q.body.handle == p.body.handle && q.body.title == p.body.title && q.body.status == p.body.status
    && q.body.vendor == p.body.vendor && q.body.productType == p.body.productType
    && PayloadFrom(p.body.payload, q.body.payload)
  }

  predicate VariantFrom(v: Variant, q: Variant) {
    && q.gid == Trim(v.gid) && q.updatedAt == v.updatedAt && q.body.productGid == Trim(v.body.productGid)
    && q.body.sku == v.body.sku && q.body.title == v.body.title && q.body.price == v.body.price
    && q.body.compareAtPrice == v.body.compareAtPrice && q.body.inventoryQuantity == v.body.inventoryQuantity
    && PayloadFrom(v.body.payload, q.body.payload)
  }

  predicate CollectionFrom(c: Collection, q: Collection) {
    && q.gid == Trim(c.gid) && q.updatedAt == c.updatedAt
    && q.body.handle == c.body.handle && q.body.title == c.body.title
    && q.body.collectionType == c.body.collectionType && q.body.productsCount == c.body.productsCount
    && PayloadFrom(c.body.payload, q.body.payload)
  }

  predicate ThemeFrom(t: Theme, q: Theme) {
    q.gid == Trim(t.gid) && q.updatedAt == t.updatedAt && q.body == t.body
  }

  ghost predicate ProductComes(batch: Batch, q: Product) {
    exists w :: Survives(batch.products, q.gid, w) && ProductFrom(batch.products[w], q)
  }

  ghost predicate VariantComes(batch: Batch, q: Variant) {
    exists w :: Survives(batch.variants, q.gid, w) && VariantFrom(batch.variants[w], q)
  }

  ghost predicate CollectionComes(batch: Batch, q: Collection) {
    exists w :: Survives(batch.collections, q.gid, w) && CollectionFrom(batch.collections[w], q)
  }

  ghost predicate ThemeComes(batch: Batch, q: Theme) {
    exists w :: Survives(batch.themes, q.gid, w) && ThemeFrom(batch.themes[w], q)
  }

  /** Each item of the result is the survivor of its group, with that item's columns. */
  ghost predicate FromTheInput(batch: Batch, r: Batch) {
    && (forall k :: 0 <= k < |r.products| ==> ProductComes(batch, r.products[k]))
    && (forall k :: 0 <= k < |r.variants| ==> VariantComes(batch, r.variants[k]))
    && (forall k :: 0 <= k < |r.collections| ==> CollectionComes(batch, r.collections[k]))
    && (forall k :: 0 <= k < |r.themes| ==> ThemeComes(batch, r.themes[k]))
  }

  lemma CleaningCleans(batch: Batch)
    ensures Cleans(batch.products, CleanProducts(batch.products))
    ensures Cleans(batch.variants, CleanVariants(batch.variants))
    ensures Cleans(batch.collections, CleanCollections(batch.collections))
    ensures Cleans(batch.themes, CleanThemes(batch.themes))
  {
  }

  lemma CleaningKeepsColumns(p: Product, v: Variant, c: Collection, t: Theme)
    ensures ProductFrom(p, CleanProduct(p)) && VariantFrom(v, CleanVariant(v))
    ensures CollectionFrom(c, CleanCollection(c)) && ThemeFrom(t, CleanTheme(t))
  {
  }

  lemma ProductsAreFromTheInput(batch: Batch, now: int, r: Batch, k: nat)
    requires NormalForm(batch, now, r) && k < |r.products|
    ensures ProductComes(batch, r.products[k])
  {
    CleaningCleans(batch);
    var w := ListedSurvives(batch.products, CleanProducts(batch.products), r.products, k);
    assert ProductFrom(batch.products[w], r.products[k]);
  }

  lemma VariantsAreFromTheInput(batch: Batch, now: int, r: Batch, k: nat)
    requires NormalForm(batch, now, r) && k < |r.variants|
    ensures VariantComes(batch, r.variants[k])
  {
    CleaningCleans(batch);
    var w := ListedSurvives(batch.variants, CleanVariants(batch.variants), r.variants, k);
    assert VariantFrom(batch.variants[w], r.variants[k]);
  }

  lemma CollectionsAreFromTheInput(batch: Batch, now: int, r: Batch, k: nat)
    requires NormalForm(batch, now, r) && k < |r.collections|
    ensures CollectionComes(batch, r.collections[k])
  {
    CleaningCleans(batch);
    var w := ListedSurvives(batch.collections, CleanCollections(batch.collections), r.collections, k);
    assert CollectionFrom(batch.collections[w], r.collections[k]);
  }

  lemma ThemesAreFromTheInput(batch: Batch, now: int, r: Batch, k: nat)
    requires NormalForm(batch, now, r) && k < |r.themes|
    ensures ThemeComes(batch, r.themes[k])
  {
    CleaningCleans(batch);
    var w := ListedSurvives(batch.themes, CleanThemes(batch.themes), r.themes, k);
    assert ThemeFrom(batch.themes[w], r.themes[k]);
  }

  ghost predicate ListsAllGids(batch: Batch, r: Batch) {
    && ListsTheGids(batch.products, r.products) && ListsTheGids(batch.variants, r.variants)
    && ListsTheGids(batch.collections, r.collections) && ListsTheGids(batch.themes, r.themes)
  }

  lemma NormalFormListsTheGids(batch: Batch, now: int, r: Batch)
    requires NormalForm(batch, now, r)
    ensures ListsAllGids(batch, r)
  {
    CleaningCleans(batch);
    ListingListsTheGids(batch.products, CleanProducts(batch.products), r.products);
    ListingListsTheGids(batch.variants, CleanVariants(batch.variants), r.variants);
    ListingListsTheGids(batch.collections, CleanCollections(batch.collections), r.collections);
    ListingListsTheGids(batch.themes, CleanThemes(batch.themes), r.themes);
  }

  /** The normal form is the survivors of the input's groups, none missing, in ascending order of their GIDs. */
  lemma NormalFormIsTheInputs(batch: Batch, now: int, r: Batch)
    requires NormalForm(batch, now, r)
    ensures FromTheInput(batch, r) && ListsAllGids(batch, r)
    ensures r.syncedAt == if batch.syncedAt.Some? then batch.syncedAt else Some(now)
  {
    NormalFormListsTheGids(batch, now, r);
    forall k | 0 <= k < |r.products| ensures ProductComes(batch, r.products[k]) {
      ProductsAreFromTheInput(batch, now, r, k);
    }
    forall k | 0 <= k < |r.variants| ensures VariantComes(batch, r.variants[k]) {
      VariantsAreFromTheInput(batch, now, r, k);
    }
    forall k | 0 <= k < |r.collections| ensures CollectionComes(batch, r.collections[k]) {
      CollectionsAreFromTheInput(batch, now, r, k);
    }
    forall k | 0 <= k < |r.themes| ensures ThemeComes(batch, r.themes[k]) {
      ThemesAreFromTheInput(batch, now, r, k);
    }
  }

  // ---- Which batches are refused --------------------------------------------------------------------

  predicate AllNamed<T>(items: seq<Item<T>>) {
    forall i :: 0 <= i < |items| ==> Trim(items[i].gid) != ""
  }

  /** Of the batch as it was read: GIDs that are not blank, and for each variant a product of the same trimmed GID. */
  ghost predicate AcceptableInput(batch: Batch) {
    && AllNamed(batch.products) && AllNamed(batch.variants) && AllNamed(batch.collections) && AllNamed(batch.themes)
    && forall i :: 0 <= i < |batch.variants| ==> HasProduct(batch, Trim(batch.variants[i].body.productGid))
  }

  ghost predicate HasProduct(batch: Batch, gid: string) {
    gid != "" && exists p :: InGroup(batch.products, gid, p)
  }

  lemma ParentsAreProducts(batch: Batch, i: nat)
    requires i < |batch.variants|
    ensures HasParent(CleanVariants(batch.variants)[i], ProductGids(batch)) <==>
            Trim(batch.variants[i].gid) != "" && HasProduct(batch, Trim(batch.variants[i].body.productGid))
  {
    var clean, gid := CleanProducts(batch.products), Trim(batch.variants[i].body.productGid);
    WinnersAreKept(clean);
    CleaningCleans(batch);
    assert gid in Kept(clean) <==> exists p :: 0 <= p < |clean| && clean[p].gid == gid;
    assert (exists p :: InGroup(batch.products, gid, p)) ==> exists p :: 0 <= p < |clean| && clean[p].gid == gid;
    assert forall p :: 0 <= p < |clean| && clean[p].gid == gid ==> InGroup(batch.products, gid, p);
  }

  lemma AcceptableMeans(batch: Batch)
    ensures Acceptable(batch) <==> AcceptableInput(batch)
  {
    forall i | 0 <= i < |batch.variants|
      ensures HasParent(CleanVariants(batch.variants)[i], ProductGids(batch)) <==>
              Trim(batch.variants[i].gid) != "" && HasProduct(batch, Trim(batch.variants[i].body.productGid))
    {
      ParentsAreProducts(batch, i);
    }
  }
}
