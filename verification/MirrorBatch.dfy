/**
 normalizeMirrorBatch: newest-wins deduplication through maps, then a sort by GID.
 Items are cleaned (GIDs trimmed, payloads made valid) before they are compared.
 Whether a payload is valid JSON is decided before the model.
 */
module MirrorBatch {
  import opened Common
  import opened Strings

  datatype Payload = NoPayload | Broken(text: string) | Json(text: string)

  /** What every mirrored resource has, and the rest of its columns. */
  datatype Item<+T> = Item(gid: string, updatedAt: Option<int>, body: T)

  datatype ProductBody = ProductBody(
    handle: string, title: string, status: string, vendor: string, productType: string, payload: Payload)

  datatype VariantBody = VariantBody(
    productGid: string, sku: string, title: string, price: string, compareAtPrice: string,
    inventoryQuantity: Option<int>, payload: Payload)

  datatype CollectionBody = CollectionBody(
    handle: string, title: string, collectionType: string, productsCount: int, payload: Payload)

  datatype ThemeBody = ThemeBody(
    name: string, role: string, processing: bool, processingFailed: bool,
    themeStoreId: Option<int>, sourceReleaseId: Option<string>)

  type Product = Item<ProductBody>
  type Variant = Item<VariantBody>
  type Collection = Item<CollectionBody>
  type Theme = Item<ThemeBody>

  datatype Batch = Batch(
    products: seq<Product>, variants: seq<Variant>, collections: seq<Collection>, themes: seq<Theme>,
    syncedAt: Option<int>)

  datatype NormalizeError =
    | BlankProduct | BlankVariant | MissingParent(variant: string, product: string) | BlankCollection | BlankTheme

  function ValidPayload(p: Payload): Payload {
    if p.Json? && p.text != "" then p else Json("{}")
  }

  /** resourceIsNewer */
  predicate Newer(previous: Option<int>, candidate: Option<int>) {
    previous.None? || (candidate.Some? && candidate.value > previous.value)
  }

  function CleanProduct(p: Product): Product {
    Item(Trim(p.gid), p.updatedAt, p.body.(payload := ValidPayload(p.body.payload)))
  }

  function CleanVariant(v: Variant): Variant {
    Item(Trim(v.gid), v.updatedAt,
         v.body.(productGid := Trim(v.body.productGid), payload := ValidPayload(v.body.payload)))
  }

  function CleanCollection(c: Collection): Collection {
    Item(Trim(c.gid), c.updatedAt, c.body.(payload := ValidPayload(c.body.payload)))
  }

  function CleanTheme(t: Theme): Theme {
    t.(gid := Trim(t.gid))
  }

  function CleanProducts(items: seq<Product>): (r: seq<Product>)
    ensures |r| == |items| && forall i :: 0 <= i < |items| ==> r[i] == CleanProduct(items[i])
  {
    seq(|items|, i requires 0 <= i < |items| => CleanProduct(items[i]))
  }

  function CleanVariants(items: seq<Variant>): (r: seq<Variant>)
    ensures |r| == |items| && forall i :: 0 <= i < |items| ==> r[i] == CleanVariant(items[i])
  {
    seq(|items|, i requires 0 <= i < |items| => CleanVariant(items[i]))
  }

  function CleanCollections(items: seq<Collection>): (r: seq<Collection>)
    ensures |r| == |items| && forall i :: 0 <= i < |items| ==> r[i] == CleanCollection(items[i])
  {
    seq(|items|, i requires 0 <= i < |items| => CleanCollection(items[i]))
  }

  function CleanThemes(items: seq<Theme>): (r: seq<Theme>)
    ensures |r| == |items| && forall i :: 0 <= i < |items| ==> r[i] == CleanTheme(items[i])
  {
    seq(|items|, i requires 0 <= i < |items| => CleanTheme(items[i]))
  }

  // ---- Newest wins -------------------------------------------------------------------------

  /** One turn of a deduplication loop. */
  function Keep<T>(m: map<string, Item<T>>, x: Item<T>): map<string, Item<T>> {
    if x.gid !in m || Newer(m[x.gid].updatedAt, x.updatedAt) then m[x.gid := x] else m
  }

  /** The map a deduplication loop fills. */
  function Kept<T>(items: seq<Item<T>>): map<string, Item<T>> {
    if items == [] then map[] else Keep(Kept(items[..|items| - 1]), items[|items| - 1])
  }

  predicate Dated<T>(items: seq<Item<T>>, g: string, i: int) {
    0 <= i < |items| && items[i].gid == g && items[i].updatedAt.Some?
  }

  /** The first item with the greatest timestamp, if the group has any timestamp; otherwise its last item. */
  ghost predicate IsWinner<T>(items: seq<Item<T>>, g: string, w: int) {
    && 0 <= w < |items| && items[w].gid == g
    && if exists i :: Dated(items, g, i)
       then
         && Dated(items, g, w)
         && (forall i :: Dated(items, g, i) && i < w ==> items[i].updatedAt.value < items[w].updatedAt.value)
         && (forall i :: Dated(items, g, i) && i > w ==> items[i].updatedAt.value <= items[w].updatedAt.value)
       else
         forall i :: 0 <= i < |items| && items[i].gid == g ==> i <= w
  }

  lemma WinnerIsUnique<T>(items: seq<Item<T>>, g: string, v: int, w: int)
    requires IsWinner(items, g, v) && IsWinner(items, g, w)
    ensures v == w
  {
  }

  lemma DatedPrefix<T>(items: seq<Item<T>>, x: Item<T>, g: string)
    ensures forall i :: Dated(items + [x], g, i) <==>
              Dated(items, g, i) || (i == |items| && x.gid == g && x.updatedAt.Some?)
  {
  }

  lemma NewcomerLoses<T>(items: seq<Item<T>>, x: Item<T>, g: string, b: int)
    requires IsWinner(items, g, b) && (x.gid != g || !Newer(items[b].updatedAt, x.updatedAt))
    ensures IsWinner(items + [x], g, b)
  {
    DatedPrefix(items, x, g);
    assert Dated(items + [x], g, b) || forall i :: !Dated(items, g, i);
  }

  lemma NewcomerWins<T>(items: seq<Item<T>>, x: Item<T>, b: int)
    requires IsWinner(items, x.gid, b) && Newer(items[b].updatedAt, x.updatedAt)
    ensures IsWinner(items + [x], x.gid, |items|)
  {
    DatedPrefix(items, x, x.gid);
    assert items[b].updatedAt.Some? ==> Dated(items, x.gid, b);
  }

  lemma NewcomerIsAlone<T>(items: seq<Item<T>>, x: Item<T>)
    requires forall i :: 0 <= i < |items| ==> items[i].gid != x.gid
    ensures IsWinner(items + [x], x.gid, |items|)
  {
    DatedPrefix(items, x, x.gid);
  }

  /** The map holds, for each GID that occurs, the group's winner, and nothing else. */
  lemma {:induction false} WinnersAreKept<T>(items: seq<Item<T>>)
    ensures forall g :: g in Kept(items) <==> exists i :: 0 <= i < |items| && items[i].gid == g
    ensures forall g :: g in Kept(items) ==> exists w :: IsWinner(items, g, w) && Kept(items)[g] == items[w]
  {
    if items != [] {
      var prefix, x := items[..|items| - 1], items[|items| - 1];
      assert items == prefix + [x];
      WinnersAreKept(prefix);
      forall g | g in Kept(items) ensures exists w :: IsWinner(items, g, w) && Kept(items)[g] == items[w] {
        WinnerAfter(prefix, x, g);
      }
      assert forall g :: g in Kept(items) <==> g == x.gid || g in Kept(prefix);
    }
  }

  lemma WinnerAfter<T>(prefix: seq<Item<T>>, x: Item<T>, g: string)
    requires g in Keep(Kept(prefix), x)
    requires forall h :: h in Kept(prefix) <==> exists i :: 0 <= i < |prefix| && prefix[i].gid == h
    requires g in Kept(prefix) ==> exists w :: IsWinner(prefix, g, w) && Kept(prefix)[g] == prefix[w]
    ensures exists w :: IsWinner(prefix + [x], g, w) && Keep(Kept(prefix), x)[g] == (prefix + [x])[w]
  {
    if g !in Kept(prefix) {
      NewcomerIsAlone(prefix, x);
      assert (prefix + [x])[|prefix|] == x;
    } else {
      var w :| IsWinner(prefix, g, w) && Kept(prefix)[g] == prefix[w];
      if x.gid == g && Newer(prefix[w].updatedAt, x.updatedAt) {
        NewcomerWins(prefix, x, w);
        assert (prefix + [x])[|prefix|] == x;
      } else {
        NewcomerLoses(prefix, x, g, w);
        assert (prefix + [x])[w] == prefix[w];
      }
    }
  }

  // ---- The loops --------------------------------------------------------------------------------

  lemma KeptStep<T>(items: seq<Item<T>>, i: nat)
    requires i < |items|
    ensures Kept(items[..i + 1]) == Keep(Kept(items[..i]), items[i])
  {
    assert items[..i + 1][..i] == items[..i];
  }

  ghost predicate Named<T>(items: seq<Item<T>>) {
    forall i :: 0 <= i < |items| ==> items[i].gid != ""
  }

  lemma NamedStep<T>(items: seq<Item<T>>, i: nat)
    requires i < |items| && Named(items[..i]) && items[i].gid != ""
    ensures Named(items[..i + 1])
  {
    assert items[..i + 1] == items[..i] + [items[i]];
  }

  method DedupeProducts(items: seq<Product>) returns (result: Result<map<string, Product>, NormalizeError>)
    ensures result.Success? <==> Named(CleanProducts(items))
    ensures result.Success? ==> result.value == Kept(CleanProducts(items))
    ensures result.Failure? ==> result.error == BlankProduct
  {
    ghost var clean := CleanProducts(items);
    var products: map<string, Product> := map[];
    for i := 0 to |items|
      invariant products == Kept(clean[..i]) && Named(clean[..i])
    {
      var item := CleanProduct(items[i]);
      assert item == clean[i];
      if item.gid == "" {
        return Failure(BlankProduct);
      }
      NamedStep(clean, i);
      KeptStep(clean, i);
      if item.gid !in products || Newer(products[item.gid].updatedAt, item.updatedAt) {
        products := products[item.gid := item];
      }
    }
    assert clean[..|items|] == clean;
    return Success(products);
  }

  /** Of a cleaned variant: neither GID is blank and the parent is in the batch. */
  predicate HasParent(v: Variant, products: set<string>) {
    v.gid != "" && v.body.productGid != "" && v.body.productGid in products
  }

  ghost predicate HaveParents(items: seq<Variant>, products: set<string>) {
    forall i :: 0 <= i < |items| ==> HasParent(items[i], products)
  }

  lemma HaveParentsStep(items: seq<Variant>, i: nat, products: set<string>)
    requires i < |items| && HaveParents(items[..i], products) && HasParent(items[i], products)
    ensures HaveParents(items[..i + 1], products)
  {
    assert items[..i + 1] == items[..i] + [items[i]];
  }

  method DedupeVariants(items: seq<Variant>, products: set<string>)
    returns (result: Result<map<string, Variant>, NormalizeError>)
    ensures result.Success? <==> HaveParents(CleanVariants(items), products)
    ensures result.Success? ==> result.value == Kept(CleanVariants(items))
    ensures result.Failure? ==> result.error.BlankVariant? || result.error.MissingParent?
  {
    ghost var clean := CleanVariants(items);
    var variants: map<string, Variant> := map[];
    for i := 0 to |items|
      invariant variants == Kept(clean[..i]) && HaveParents(clean[..i], products)
    {
      var item := CleanVariant(items[i]);
      assert item == clean[i];
      if item.gid == "" || item.body.productGid == "" {
        assert !HasParent(clean[i], products);
        return Failure(BlankVariant);
      }
      if item.body.productGid !in products {
        assert !HasParent(clean[i], products);
        return Failure(MissingParent(item.gid, item.body.productGid));
      }
      HaveParentsStep(clean, i, products);
      KeptStep(clean, i);
      if item.gid !in variants || Newer(variants[item.gid].updatedAt, item.updatedAt) {
        variants := variants[item.gid := item];
      }
    }
    assert clean[..|items|] == clean;
    return Success(variants);
  }

  method DedupeCollections(items: seq<Collection>) returns (result: Result<map<string, Collection>, NormalizeError>)
    ensures result.Success? <==> Named(CleanCollections(items))
    ensures result.Success? ==> result.value == Kept(CleanCollections(items))
    ensures result.Failure? ==> result.error == BlankCollection
  {
    ghost var clean := CleanCollections(items);
    var collections: map<string, Collection> := map[];
    for i := 0 to |items|
      invariant collections == Kept(clean[..i]) && Named(clean[..i])
    {
      var item := CleanCollection(items[i]);
      assert item == clean[i];
      if item.gid == "" {
        return Failure(BlankCollection);
      }
      NamedStep(clean, i);
      KeptStep(clean, i);
      if item.gid !in collections || Newer(collections[item.gid].updatedAt, item.updatedAt) {
        collections := collections[item.gid := item];
      }
    }
    assert clean[..|items|] == clean;
    return Success(collections);
  }

  method DedupeThemes(items: seq<Theme>) returns (result: Result<map<string, Theme>, NormalizeError>)
    ensures result.Success? <==> Named(CleanThemes(items))
    ensures result.Success? ==> result.value == Kept(CleanThemes(items))
    ensures result.Failure? ==> result.error == BlankTheme
  {
    ghost var clean := CleanThemes(items);
    var themes: map<string, Theme> := map[];
    for i := 0 to |items|
      invariant themes == Kept(clean[..i]) && Named(clean[..i])
    {
      var item := CleanTheme(items[i]);
      assert item == clean[i];
      if item.gid == "" {
        return Failure(BlankTheme);
      }
      NamedStep(clean, i);
      KeptStep(clean, i);
      if item.gid !in themes || Newer(themes[item.gid].updatedAt, item.updatedAt) {
        themes := themes[item.gid := item];
      }
    }
    assert clean[..|items|] == clean;
    return Success(themes);
  }

  // ---- Collecting and sorting -----------------------------------------------------------------

  ghost predicate SortedByGid<T>(items: seq<Item<T>>) {
    forall i, j :: 0 <= i < j < |items| ==> Less(items[i].gid, items[j].gid)
  }

  ghost predicate Indexed<T>(m: map<string, Item<T>>) {
    forall g :: g in m ==> m[g].gid == g
  }

  /** The map's items, once each, in GID order. */
  ghost predicate IsListing<T>(items: seq<Item<T>>, m: map<string, Item<T>>) {
    && SortedByGid(items)
    && (forall i :: 0 <= i < |items| ==> items[i].gid in m && m[items[i].gid] == items[i])
    && (forall g :: g in m ==> m[g].gid == g && m[g] in items)
  }

  /** Where an item belongs among sorted ones: after everything less than it. */
  method Position<T>(items: seq<Item<T>>, g: string) returns (k: nat)
    requires SortedByGid(items) && forall i :: 0 <= i < |items| ==> items[i].gid != g
    ensures k <= |items|
    ensures forall i :: 0 <= i < k ==> Less(items[i].gid, g)
    ensures forall i :: k <= i < |items| ==> Less(g, items[i].gid)
  {
    k := |items|;
    while k > 0 && Less(g, items[k - 1].gid)
      invariant k <= |items|
      invariant forall i :: k <= i < |items| ==> Less(g, items[i].gid)
    {
      k := k - 1;
    }
    if k > 0 {
      LessIsTotal(g, items[k - 1].gid);
      forall i | 0 <= i < k ensures Less(items[i].gid, g) {
        if i < k - 1 {
          LessIsTransitive(items[i].gid, items[k - 1].gid, g);
        }
      }
    }
  }

  function InsertAt<T>(items: seq<T>, k: nat, x: T): (r: seq<T>)
    requires k <= |items|
    ensures |r| == |items| + 1 && r[k] == x
    ensures forall i :: 0 <= i < k ==> r[i] == items[i]
    ensures forall i :: k < i < |r| ==> r[i] == items[i - 1]
    ensures forall y :: y in items ==> y in r
  {
    assert items == items[..k] + items[k..];
    items[..k] + [x] + items[k..]
  }

  /** Ranging over the map in any order, then sort.Slice. */
  method Listing<T>(m: map<string, Item<T>>) returns (items: seq<Item<T>>)
    requires Indexed(m)
    ensures IsListing(items, m)
  {
    items := [];
    var rest := m.Keys;
    while rest != {}
      invariant rest <= m.Keys && SortedByGid(items)
      invariant forall i :: 0 <= i < |items| ==> items[i].gid in m && m[items[i].gid] == items[i]
      invariant forall i :: 0 <= i < |items| ==> items[i].gid !in rest
      invariant forall g :: g in m && g !in rest ==> m[g] in items
      decreases rest
    {
      var g :| g in rest;
      var k := Position(items, g);
      items := InsertAt(items, k, m[g]);
      rest := rest - {g};
    }
  }

  // ---- normalizeMirrorBatch --------------------------------------------------------------------

  ghost predicate NoBlank<T>(items: seq<Item<T>>) {
    forall i :: 0 <= i < |items| ==> Trim(items[i].gid) != ""
  }

  ghost function ProductGids(batch: Batch): set<string> {
    Kept(CleanProducts(batch.products)).Keys
  }

  /** No GID is blank, and every variant, even one that loses, names a product of the batch. */
  ghost predicate Acceptable(batch: Batch) {
    && NoBlank(batch.products) && NoBlank(batch.collections) && NoBlank(batch.themes)
    && HaveParents(CleanVariants(batch.variants), ProductGids(batch))
  }

  lemma NamedWhenCleaned(batch: Batch)
    ensures Named(CleanProducts(batch.products)) <==> NoBlank(batch.products)
    ensures Named(CleanCollections(batch.collections)) <==> NoBlank(batch.collections)
    ensures Named(CleanThemes(batch.themes)) <==> NoBlank(batch.themes)
  {
    assert forall i :: 0 <= i < |batch.products| ==>
             CleanProducts(batch.products)[i].gid == Trim(batch.products[i].gid);
    assert forall i :: 0 <= i < |batch.collections| ==>
             CleanCollections(batch.collections)[i].gid == Trim(batch.collections[i].gid);
    assert forall i :: 0 <= i < |batch.themes| ==> CleanThemes(batch.themes)[i].gid == Trim(batch.themes[i].gid);
  }

  ghost predicate NormalForm(batch: Batch, now: int, r: Batch) {
    && IsListing(r.products, Kept(CleanProducts(batch.products)))
    && IsListing(r.variants, Kept(CleanVariants(batch.variants)))
    && IsListing(r.collections, Kept(CleanCollections(batch.collections)))
    && IsListing(r.themes, Kept(CleanThemes(batch.themes)))
    && r.syncedAt == Some(if batch.syncedAt.Some? then batch.syncedAt.value else now)
  }

  lemma {:induction false} KeptIsIndexed<T>(items: seq<Item<T>>)
    ensures Indexed(Kept(items))
  {
    if items != [] {
      KeptIsIndexed(items[..|items| - 1]);
    }
  }

  method NormalizeMirrorBatch(batch: Batch, now: int) returns (result: Result<Batch, NormalizeError>)
    ensures result.Success? <==> Acceptable(batch)
    ensures result.Success? ==> NormalForm(batch, now, result.value)
    ensures result.Failure? ==>
              match result.error
              case BlankProduct => !NoBlank(batch.products)
              case BlankVariant => NoBlank(batch.products)
              case MissingParent(_, _) => NoBlank(batch.products)
              case BlankCollection => NoBlank(batch.products) && !NoBlank(batch.collections)
              case BlankTheme => NoBlank(batch.products) && NoBlank(batch.collections) && !NoBlank(batch.themes)
  {
    NamedWhenCleaned(batch);
    var syncedAt := if batch.syncedAt.Some? then batch.syncedAt else Some(now);
    var products := DedupeProducts(batch.products);
    if products.Failure? { return Failure(products.error); }
    var variants := DedupeVariants(batch.variants, products.value.Keys);
    if variants.Failure? { return Failure(variants.error); }
    var collections := DedupeCollections(batch.collections);
    if collections.Failure? { return Failure(collections.error); }
    var themes := DedupeThemes(batch.themes);
    if themes.Failure? { return Failure(themes.error); }
    KeptIsIndexed(CleanProducts(batch.products));
    KeptIsIndexed(CleanVariants(batch.variants));
    KeptIsIndexed(CleanCollections(batch.collections));
    KeptIsIndexed(CleanThemes(batch.themes));
    var p := Listing(products.value);
    var v := Listing(variants.value);
    var c := Listing(collections.value);
    var t := Listing(themes.value);
    return Success(Batch(p, v, c, t, syncedAt));
  }

  // ---- What the normal form is -------------------------------------------------------------------

  /** Sorting by distinct keys leaves one possible order, whatever order the map was ranged over in. */
  lemma {:induction false} ListingIsUnique<T>(s: seq<Item<T>>, t: seq<Item<T>>, m: map<string, Item<T>>)
    requires IsListing(s, m) && IsListing(t, m)
    ensures s == t
    decreases |s|
  {
    EmptyListing(s, t, m);
    EmptyListing(t, s, m);
    if s != [] {
      var x, y := s[|s| - 1], t[|t| - 1];
      LastIsGreatest(s, m, y);
      LastIsGreatest(t, m, x);
      assert x == y by {
        if x.gid != y.gid {
          LessIsTransitive(x.gid, y.gid, x.gid);
          LessIsIrreflexive(x.gid);
        }
      }
      WithoutLast(s, m);
      WithoutLast(t, m);
      ListingIsUnique(s[..|s| - 1], t[..|t| - 1], m - {x.gid});
      assert s == s[..|s| - 1] + [x] && t == t[..|t| - 1] + [y];
    }
  }

  lemma EmptyListing<T>(s: seq<Item<T>>, t: seq<Item<T>>, m: map<string, Item<T>>)
    requires IsListing(s, m) && IsListing(t, m)
    ensures s == [] ==> t == []
  {
    if t != [] {
      assert m[t[0].gid] in s;
    }
  }

  lemma LastIsGreatest<T>(s: seq<Item<T>>, m: map<string, Item<T>>, y: Item<T>)
    requires IsListing(s, m) && s != [] && y.gid in m && m[y.gid] == y
    ensures y == s[|s| - 1] || Less(y.gid, s[|s| - 1].gid)
  {
    assert m[y.gid] in s;
  }

  lemma WithoutLast<T>(s: seq<Item<T>>, m: map<string, Item<T>>)
    requires IsListing(s, m) && s != []
    ensures IsListing(s[..|s| - 1], m - {s[|s| - 1].gid})
  {
    var g := s[|s| - 1].gid;
    forall i | 0 <= i < |s| - 1 ensures s[i].gid != g {
      LessIsIrreflexive(g);
      assert Less(s[i].gid, s[|s| - 1].gid);
    }
    forall h | h in m - {g} ensures (m - {g})[h] in s[..|s| - 1] {
      var i :| 0 <= i < |s| && s[i] == m[h];
      assert i < |s| - 1;
      assert s[..|s| - 1][i] == m[h];
    }
  }

  lemma NormalFormIsUnique(batch: Batch, now: int, r: Batch, q: Batch)
    requires NormalForm(batch, now, r) && NormalForm(batch, now, q)
    ensures r == q
  {
    ListingIsUnique(r.products, q.products, Kept(CleanProducts(batch.products)));
    ListingIsUnique(r.variants, q.variants, Kept(CleanVariants(batch.variants)));
    ListingIsUnique(r.collections, q.collections, Kept(CleanCollections(batch.collections)));
    ListingIsUnique(r.themes, q.themes, Kept(CleanThemes(batch.themes)));
  }

  /** Reading a listing back: its items are the winners of their groups. */
  lemma ListingHoldsWinners<T>(clean: seq<Item<T>>, r: seq<Item<T>>, k: nat)
    requires IsListing(r, Kept(clean)) && k < |r|
    ensures exists w :: IsWinner(clean, r[k].gid, w) && r[k] == clean[w]
  {
    WinnersAreKept(clean);
    assert r[k].gid in Kept(clean);
  }

  /** Every group is there. */
  lemma ListingHoldsGroups<T>(clean: seq<Item<T>>, r: seq<Item<T>>, i: nat)
    requires IsListing(r, Kept(clean)) && i < |clean|
    ensures exists k :: 0 <= k < |r| && r[k].gid == clean[i].gid
  {
    WinnersAreKept(clean);
    assert clean[i].gid in Kept(clean);
    var k :| 0 <= k < |r| && r[k] == Kept(clean)[clean[i].gid];
  }

  lemma VariantsKeepTheirParents(batch: Batch, now: int, r: Batch, k: nat)
    requires Acceptable(batch) && NormalForm(batch, now, r) && k < |r.variants|
    ensures exists p :: 0 <= p < |r.products| && r.products[p].gid == r.variants[k].body.productGid
  {
    var clean := CleanVariants(batch.variants);
    ListingHoldsWinners(clean, r.variants, k);
    var w :| IsWinner(clean, r.variants[k].gid, w) && r.variants[k] == clean[w];
    assert HasParent(clean[w], ProductGids(batch));
    var g := r.variants[k].body.productGid;
    KeptIsIndexed(CleanProducts(batch.products));
    var p :| 0 <= p < |r.products| && r.products[p] == Kept(CleanProducts(batch.products))[g];
  }

  // ---- Normalising twice ---------------------------------------------------------------------------

  lemma ListedNewcomer<T>(prefix: seq<Item<T>>, x: Item<T>, m: map<string, Item<T>>)
    requires IsListing(prefix, m) && SortedByGid(prefix + [x])
    ensures x.gid !in m && IsListing(prefix + [x], m[x.gid := x])
  {
    var items := prefix + [x];
    assert x.gid !in m by {
      if x.gid in m {
        var i :| 0 <= i < |prefix| && prefix[i] == m[x.gid];
        assert Less(items[i].gid, items[|prefix|].gid);
        LessIsIrreflexive(x.gid);
      }
    }
    var after := m[x.gid := x];
    forall g | g in after ensures after[g].gid == g && after[g] in items {
      assert g != x.gid ==> m[g] in prefix;
      assert items[|prefix|] == x;
    }
  }

  lemma {:induction false} SortedItemsAreKept<T>(items: seq<Item<T>>)
    requires SortedByGid(items)
    ensures IsListing(items, Kept(items))
  {
    if items != [] {
      var prefix, x := items[..|items| - 1], items[|items| - 1];
      SortedItemsAreKept(prefix);
      assert items == prefix + [x];
      ListedNewcomer(prefix, x, Kept(prefix));
    }
  }

  lemma ProductCleanTwice(p: Product)
    ensures CleanProduct(CleanProduct(p)) == CleanProduct(p)
  {
    TrimmedOnce(p.gid);
  }

  lemma VariantCleanTwice(v: Variant)
    ensures CleanVariant(CleanVariant(v)) == CleanVariant(v)
  {
    TrimmedOnce(v.gid);
    TrimmedOnce(v.body.productGid);
  }

  lemma CollectionCleanTwice(c: Collection)
    ensures CleanCollection(CleanCollection(c)) == CleanCollection(c)
  {
    TrimmedOnce(c.gid);
  }

  lemma CleanListing<T>(clean: seq<Item<T>>, r: seq<Item<T>>, k: nat) returns (w: int)
    requires IsListing(r, Kept(clean)) && k < |r|
    ensures 0 <= w < |clean| && r[k] == clean[w]
  {
    ListingHoldsWinners(clean, r, k);
    w :| IsWinner(clean, r[k].gid, w) && r[k] == clean[w];
  }

  /** What the loops cleaned once stays as it is. */
  lemma NormalFormIsClean(batch: Batch, now: int, r: Batch)
    requires NormalForm(batch, now, r)
    ensures CleanProducts(r.products) == r.products && CleanVariants(r.variants) == r.variants
    ensures CleanCollections(r.collections) == r.collections && CleanThemes(r.themes) == r.themes
  {
    forall k | 0 <= k < |r.products| ensures CleanProduct(r.products[k]) == r.products[k] {
      var w := CleanListing(CleanProducts(batch.products), r.products, k);
      ProductCleanTwice(batch.products[w]);
    }
    forall k | 0 <= k < |r.variants| ensures CleanVariant(r.variants[k]) == r.variants[k] {
      var w := CleanListing(CleanVariants(batch.variants), r.variants, k);
      VariantCleanTwice(batch.variants[w]);
    }
    forall k | 0 <= k < |r.collections| ensures CleanCollection(r.collections[k]) == r.collections[k] {
      var w := CleanListing(CleanCollections(batch.collections), r.collections, k);
      CollectionCleanTwice(batch.collections[w]);
    }
    forall k | 0 <= k < |r.themes| ensures CleanTheme(r.themes[k]) == r.themes[k] {
      var w := CleanListing(CleanThemes(batch.themes), r.themes, k);
      TrimTrims(batch.themes[w].gid);
      TrimTrims(Trim(batch.themes[w].gid));
    }
  }

  /** Normalising a normalised batch changes nothing, at whatever time it happens. */
  lemma NormalisingTwice(batch: Batch, now: int, r: Batch, later: int)
    requires Acceptable(batch) && NormalForm(batch, now, r)
    ensures Acceptable(r) && NormalForm(r, later, r)
  {
    NormalFormIsClean(batch, now, r);
    SortedItemsAreKept(r.products);
    SortedItemsAreKept(r.variants);
    SortedItemsAreKept(r.collections);
    SortedItemsAreKept(r.themes);
    NormalFormIsAcceptable(batch, now, r);
  }

  lemma NoBlankAgain<T>(clean: seq<Item<T>>, r: seq<Item<T>>)
    requires IsListing(r, Kept(clean))
    requires forall i :: 0 <= i < |clean| ==> clean[i].gid != "" && Trim(clean[i].gid) == clean[i].gid
    ensures NoBlank(r)
  {
    forall k | 0 <= k < |r| ensures Trim(r[k].gid) != "" {
      var w := CleanListing(clean, r, k);
    }
  }

  lemma TrimmedOnce(s: string)
    ensures Trim(Trim(s)) == Trim(s)
  {
    TrimTrims(s);
    TrimTrims(Trim(s));
  }

  lemma NormalFormIsAcceptable(batch: Batch, now: int, r: Batch)
    requires Acceptable(batch) && NormalForm(batch, now, r)
    ensures Acceptable(r)
  {
    NormalFormHasNoBlank(batch, now, r);
    NormalFormIsClean(batch, now, r);
    SortedItemsAreKept(r.products);
    forall k | 0 <= k < |r.variants| ensures HasParent(CleanVariants(r.variants)[k], ProductGids(r)) {
      VariantsKeepTheirParents(batch, now, r, k);
      var w := CleanListing(CleanVariants(batch.variants), r.variants, k);
      assert HasParent(CleanVariants(batch.variants)[w], ProductGids(batch));
    }
  }

  lemma NormalFormHasNoBlank(batch: Batch, now: int, r: Batch)
    requires Acceptable(batch) && NormalForm(batch, now, r)
    ensures NoBlank(r.products) && NoBlank(r.collections) && NoBlank(r.themes)
  {
    forall i | 0 <= i < |batch.products| ensures Trim(Trim(batch.products[i].gid)) == Trim(batch.products[i].gid) {
      TrimmedOnce(batch.products[i].gid);
    }
    NoBlankAgain(CleanProducts(batch.products), r.products);
    forall i | 0 <= i < |batch.collections|
      ensures Trim(Trim(batch.collections[i].gid)) == Trim(batch.collections[i].gid)
    {
      TrimmedOnce(batch.collections[i].gid);
    }
    NoBlankAgain(CleanCollections(batch.collections), r.collections);
    forall i | 0 <= i < |batch.themes| ensures Trim(Trim(batch.themes[i].gid)) == Trim(batch.themes[i].gid) {
      TrimmedOnce(batch.themes[i].gid);
    }
    NoBlankAgain(CleanThemes(batch.themes), r.themes);
  }
}
