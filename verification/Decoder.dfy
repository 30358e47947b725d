/**
 Decoding of bulk-operation lines into products, variants and collections, and how
 the result meets the normaliser. Lines arrive parsed; a timestamp is absent, a
 time or malformed.
 */
module Decoder {
  import opened Common
  import opened MirrorBatch
  import opened Strings

  datatype Stamp = NoStamp | At(time: int) | Malformed

  datatype Resource = Resource(
    text: string, id: string, parentId: string, handle: string, title: string, status: string, vendor: string,
    productType: string, sku: string, price: string, compareAtPrice: string, inventoryQuantity: Option<int>,
    updatedAt: Stamp, productsCount: int)

  datatype Line = BlankLine | InvalidJson | Bulk(resource: Resource)

  /** How the scanner stops: at the end of the input, at a line over 4 MiB, or because reading failed. */
  datatype Ending = EndOfInput | LineTooLong | ReadFailed

  datatype DecodeError = BulkInvalidJson | BulkInvalidTimestamp | BulkLineTooLarge | BulkReadFailed | BulkParentMissing

  const PRODUCT_PREFIX := "gid://shopify/Product/"
  const VARIANT_PREFIX := "gid://shopify/ProductVariant/"
  const COLLECTION_PREFIX := "gid://shopify/Collection/"

  predicate IsVariantLine(l: Line) {
    l.Bulk? && l.resource.id != "" && (VARIANT_PREFIX <= l.resource.id || l.resource.parentId != "")
  }

  predicate IsProductLine(l: Line) {
    l.Bulk? && PRODUCT_PREFIX <= l.resource.id && l.resource.parentId == ""
  }

  predicate IsCollectionLine(l: Line) {
    l.Bulk? && COLLECTION_PREFIX <= l.resource.id
  }

  function Time(s: Stamp): Option<int> {
    if s.At? then Some(s.time) else None
  }

  function ProductOf(r: Resource): Product {
    Item(r.id, Time(r.updatedAt), ProductBody(r.handle, r.title, r.status, r.vendor, r.productType, Json(r.text)))
  }

  function VariantOf(r: Resource): Variant {
    Item(r.id, Time(r.updatedAt),
         VariantBody(r.parentId, r.sku, r.title, r.price, r.compareAtPrice, r.inventoryQuantity, Json(r.text)))
  }

  function CollectionOf(r: Resource): Collection {
    Item(r.id, Time(r.updatedAt), CollectionBody(r.handle, r.title, "", r.productsCount, Json(r.text)))
  }

  /** The lines of one kind, in their order. */
  function ProductsOf(lines: seq<Line>): seq<Product> {
    if lines == [] then []
    else
      var last := lines[|lines| - 1];
      ProductsOf(lines[..|lines| - 1]) + if IsProductLine(last) then [ProductOf(last.resource)] else []
  }

  function VariantsOf(lines: seq<Line>): seq<Variant> {
    if lines == [] then []
    else
      var last := lines[|lines| - 1];
      VariantsOf(lines[..|lines| - 1]) + if IsVariantLine(last) then [VariantOf(last.resource)] else []
  }

  function CollectionsOf(lines: seq<Line>): seq<Collection> {
    if lines == [] then []
    else
      var last := lines[|lines| - 1];
      CollectionsOf(lines[..|lines| - 1]) + if IsCollectionLine(last) then [CollectionOf(last.resource)] else []
  }

  function Ignored(lines: seq<Line>): nat {
    if lines == [] then 0
    else
      var last := lines[|lines| - 1];
      Ignored(lines[..|lines| - 1]) + if IsProductLine(last) || IsVariantLine(last) then 0 else 1
  }

  /** Every line is a product, a variant or ignored, and none is two of these. */
  lemma {:induction false} LinesAreSplit(lines: seq<Line>)
    ensures |ProductsOf(lines)| + |VariantsOf(lines)| + Ignored(lines) == |lines|
  {
    if lines != [] {
      LinesAreSplit(lines[..|lines| - 1]);
      assert VARIANT_PREFIX[21] != PRODUCT_PREFIX[21];
    }
  }

  /** Splitting respects the order of the lines: it distributes over concatenation. */
  lemma {:induction false} SplitInOrder(a: seq<Line>, b: seq<Line>)
    ensures ProductsOf(a + b) == ProductsOf(a) + ProductsOf(b)
    ensures VariantsOf(a + b) == VariantsOf(a) + VariantsOf(b)
    ensures CollectionsOf(a + b) == CollectionsOf(a) + CollectionsOf(b)
    decreases |b|
  {
    if b == [] {
      assert a + b == a;
    } else {
      assert (a + b)[..|a + b| - 1] == a + b[..|b| - 1];
      SplitInOrder(a, b[..|b| - 1]);
    }
  }

  // ---- The decoders ------------------------------------------------------------------------------

  /** The scan of the products file gets past the line. */
  predicate Readable(l: Line) {
    !l.InvalidJson? && (l.Bulk? && l.resource.id != "" ==> !l.resource.updatedAt.Malformed?)
  }

  /** The scan of the collections file looks at the timestamp of collections only. */
  predicate ReadableCollection(l: Line) {
    !l.InvalidJson? && (IsCollectionLine(l) ==> !l.resource.updatedAt.Malformed?)
  }

  ghost predicate AllReadableCollections(lines: seq<Line>) {
    forall i :: 0 <= i < |lines| ==> ReadableCollection(lines[i])
  }

  /** Each variant's parent is a product somewhere in the input. */
  ghost predicate ParentsOccur(lines: seq<Line>) {
    forall v :: v in VariantsOf(lines) ==> exists p :: p in ProductsOf(lines) && p.gid == v.body.productGid
  }

  ghost predicate AllReadable(lines: seq<Line>) {
    forall i :: 0 <= i < |lines| ==> Readable(lines[i])
  }

  ghost function GidsOf(products: seq<Product>): set<string> {
    set p | p in products :: p.gid
  }

  function EndingError(ending: Ending): DecodeError {
    if ending.LineTooLong? then BulkLineTooLarge else BulkReadFailed
  }

  lemma FirstErrorStays(lines: seq<Line>, i: nat, j: nat)
    requires i < |lines| && j < |lines| && AllReadable(lines[..i]) && !Readable(lines[i])
    requires AllReadable(lines[..j]) && !Readable(lines[j])
    ensures i == j
  {
    assert forall k :: 0 <= k < i ==> lines[..i][k] == lines[k];
    assert forall k :: 0 <= k < j ==> lines[..j][k] == lines[k];
  }

  method DecodeProducts(lines: seq<Line>, ending: Ending)
    returns (result: Result<(seq<Product>, seq<Variant>), DecodeError>)
    ensures result.Success? <==> AllReadable(lines) && ending.EndOfInput? && ParentsOccur(lines)
    ensures result.Success? ==> result.value == (ProductsOf(lines), VariantsOf(lines))
    ensures result.Failure? ==> (result.error == BulkParentMissing <==> AllReadable(lines) && ending.EndOfInput?)
    ensures AllReadable(lines) && ending.LineTooLong? ==> result == Failure(BulkLineTooLarge)
    ensures AllReadable(lines) && ending.ReadFailed? ==> result == Failure(BulkReadFailed)
    ensures forall i :: 0 <= i < |lines| && AllReadable(lines[..i]) && !Readable(lines[i]) ==>
              result == Failure(if lines[i].InvalidJson? then BulkInvalidJson else BulkInvalidTimestamp)
  {
    var products: seq<Product>, variants: seq<Variant> := [], [];
    var productIds: set<string> := {};
    for i := 0 to |lines|
      invariant products == ProductsOf(lines[..i]) && variants == VariantsOf(lines[..i])
      invariant productIds == GidsOf(products) && AllReadable(lines[..i])
    {
      assert lines[..i + 1][..i] == lines[..i] && lines[..i + 1][i] == lines[i];
      if !Readable(lines[i]) {
        forall j | 0 <= j < |lines| && AllReadable(lines[..j]) && !Readable(lines[j]) ensures i == j {
          FirstErrorStays(lines, i, j);
        }
      }
      if lines[i].InvalidJson? {
        return Failure(BulkInvalidJson);
      }
      if lines[i].Bulk? && lines[i].resource.id != "" {
        var resource := lines[i].resource;
        if resource.updatedAt.Malformed? {
          return Failure(BulkInvalidTimestamp);
        }
        if VARIANT_PREFIX <= resource.id || resource.parentId != "" {
          variants := variants + [VariantOf(resource)];
        } else if PRODUCT_PREFIX <= resource.id {
          GidsGrow(products, ProductOf(resource));
          products := products + [ProductOf(resource)];
          productIds := productIds + {resource.id};
        }
      }
      KindsAreDisjoint(lines[i]);
    }
    assert lines[..|lines|] == lines;
    if !ending.EndOfInput? {
      return Failure(EndingError(ending));
    }
    for i := 0 to |variants|
      invariant forall k :: 0 <= k < i ==> variants[k].body.productGid in productIds
    {
      if variants[i].body.productGid !in productIds {
        assert variants[i] in VariantsOf(lines);
        return Failure(BulkParentMissing);
      }
    }
    return Success((products, variants));
  }

  lemma GidsGrow(products: seq<Product>, p: Product)
    ensures GidsOf(products + [p]) == GidsOf(products) + {p.gid}
  {
    assert (products + [p])[|products|] == p;
    forall q | q in products ensures q in products + [p] {
    }
  }

  lemma KindsAreDisjoint(l: Line)
    ensures !(IsProductLine(l) && IsVariantLine(l))
  {
    assert VARIANT_PREFIX[21] != PRODUCT_PREFIX[21];
  }

  lemma FirstCollectionErrorStays(lines: seq<Line>, i: nat, j: nat)
    requires i < |lines| && j < |lines| && AllReadableCollections(lines[..i]) && !ReadableCollection(lines[i])
    requires AllReadableCollections(lines[..j]) && !ReadableCollection(lines[j])
    ensures i == j
  {
    assert forall k :: 0 <= k < i ==> lines[..i][k] == lines[k];
    assert forall k :: 0 <= k < j ==> lines[..j][k] == lines[k];
  }

  method DecodeCollections(lines: seq<Line>, ending: Ending) returns (result: Result<seq<Collection>, DecodeError>)
    ensures result.Success? <==> AllReadableCollections(lines) && ending.EndOfInput?
    ensures result.Success? ==> result.value == CollectionsOf(lines)
    ensures AllReadableCollections(lines) && ending.LineTooLong? ==> result == Failure(BulkLineTooLarge)
    ensures AllReadableCollections(lines) && ending.ReadFailed? ==> result == Failure(BulkReadFailed)
    ensures forall i :: 0 <= i < |lines| && AllReadableCollections(lines[..i]) && !ReadableCollection(lines[i]) ==>
              result == Failure(if lines[i].InvalidJson? then BulkInvalidJson else BulkInvalidTimestamp)
  {
    var collections: seq<Collection> := [];
    for i := 0 to |lines|
      invariant collections == CollectionsOf(lines[..i]) && AllReadableCollections(lines[..i])
    {
      assert lines[..i + 1][..i] == lines[..i] && lines[..i + 1][i] == lines[i];
      if !ReadableCollection(lines[i]) {
        forall j | 0 <= j < |lines| && AllReadableCollections(lines[..j]) && !ReadableCollection(lines[j])
          ensures i == j
        {
          FirstCollectionErrorStays(lines, i, j);
        }
      }
      if lines[i].InvalidJson? {
        return Failure(BulkInvalidJson);
      }
      if lines[i].Bulk? && COLLECTION_PREFIX <= lines[i].resource.id {
        if lines[i].resource.updatedAt.Malformed? {
          return Failure(BulkInvalidTimestamp);
        }
        collections := collections + [CollectionOf(lines[i].resource)];
      }
    }
    assert lines[..|lines|] == lines;
    if !ending.EndOfInput? {
      return Failure(EndingError(ending));
    }
    return Success(collections);
  }

  // ---- Line by line --------------------------------------------------------------------------------

  /** Where the line's item comes among the items of its kind: after those of the earlier lines. */
  lemma ItemOfLine(lines: seq<Line>, i: nat)
    requires i < |lines|
    ensures IsProductLine(lines[i]) ==>
              |ProductsOf(lines[..i])| < |ProductsOf(lines)|
              && ProductsOf(lines)[|ProductsOf(lines[..i])|] == ProductOf(lines[i].resource)
    ensures IsVariantLine(lines[i]) ==>
              |VariantsOf(lines[..i])| < |VariantsOf(lines)|
              && VariantsOf(lines)[|VariantsOf(lines[..i])|] == VariantOf(lines[i].resource)
    ensures IsCollectionLine(lines[i]) ==>
              |CollectionsOf(lines[..i])| < |CollectionsOf(lines)|
              && CollectionsOf(lines)[|CollectionsOf(lines[..i])|] == CollectionOf(lines[i].resource)
  {
    var before, line, rest := lines[..i], [lines[i]], lines[i + 1..];
    assert lines == before + line + rest;
    SplitInOrder(before + line, rest);
    SplitInOrder(before, line);
    assert line[..0] == [];
  }

  /** The time that a readable stamp means. */
  predicate Means(stamp: Stamp, time: Option<int>) {
    match stamp
    case NoStamp => time.None?
    case At(t) => time == Some(t)
    case Malformed => true
  }

  /** A line with a product's id and no parent is a product, with the line as its payload. */
  lemma ProductLineColumns(lines: seq<Line>, i: nat)
    requires i < |lines| && lines[i].Bulk?
    requires "gid://shopify/Product/" <= lines[i].resource.id && lines[i].resource.parentId == ""
    ensures var k, r := |ProductsOf(lines[..i])|, lines[i].resource;
            && k < |ProductsOf(lines)|
            && var p := ProductsOf(lines)[k];
            && p.gid == r.id && Means(r.updatedAt, p.updatedAt) && p.body.payload == Json(r.text)
            && p.body.handle == r.handle && p.body.title == r.title && p.body.status == r.status
            && p.body.vendor == r.vendor && p.body.productType == r.productType
  {
    ItemOfLine(lines, i);
  }

  /** A line with a variant's id, or with a parent, is a variant of that parent. */
  lemma VariantLineColumns(lines: seq<Line>, i: nat)
    requires i < |lines| && lines[i].Bulk? && lines[i].resource.id != ""
    requires "gid://shopify/ProductVariant/" <= lines[i].resource.id || lines[i].resource.parentId != ""
    ensures var k, r := |VariantsOf(lines[..i])|, lines[i].resource;
            && k < |VariantsOf(lines)|
            && var v := VariantsOf(lines)[k];
            && v.gid == r.id && Means(r.updatedAt, v.updatedAt) && v.body.payload == Json(r.text)
            && v.body.productGid == r.parentId && v.body.sku == r.sku && v.body.title == r.title
            && v.body.price == r.price && v.body.compareAtPrice == r.compareAtPrice
            && v.body.inventoryQuantity == r.inventoryQuantity
  {
    ItemOfLine(lines, i);
  }

  lemma CollectionLineColumns(lines: seq<Line>, i: nat)
    requires i < |lines| && lines[i].Bulk? && "gid://shopify/Collection/" <= lines[i].resource.id
    ensures var k, r := |CollectionsOf(lines[..i])|, lines[i].resource;
            && k < |CollectionsOf(lines)|
            && var c := CollectionsOf(lines)[k];
            && c.gid == r.id && Means(r.updatedAt, c.updatedAt) && c.body.payload == Json(r.text)
            && c.body.handle == r.handle && c.body.title == r.title && c.body.collectionType == ""
            && c.body.productsCount == r.productsCount
  {
    ItemOfLine(lines, i);
  }

  /** Any other line adds nothing. */
  lemma OtherLinesAddNothing(lines: seq<Line>, l: Line)
    ensures !l.Bulk? || l.resource.id == ""
            || (l.resource.parentId == "" && !("gid://shopify/Product/" <= l.resource.id)
                && !("gid://shopify/ProductVariant/" <= l.resource.id)) ==>
              ProductsOf(lines + [l]) == ProductsOf(lines) && VariantsOf(lines + [l]) == VariantsOf(lines)
    ensures l.Bulk? && (l.resource.parentId != "" || "gid://shopify/ProductVariant/" <= l.resource.id) ==>
              ProductsOf(lines + [l]) == ProductsOf(lines)
    ensures l.Bulk? && l.resource.parentId == "" && "gid://shopify/Product/" <= l.resource.id ==>
              VariantsOf(lines + [l]) == VariantsOf(lines)
    ensures !l.Bulk? || !("gid://shopify/Collection/" <= l.resource.id) ==>
              CollectionsOf(lines + [l]) == CollectionsOf(lines)
  {
    assert (lines + [l])[..|lines|] == lines;
    KindsAreDisjoint(l);
  }

  lemma {:induction false} ItemsComeFromLines(lines: seq<Line>)
    ensures forall p :: p in ProductsOf(lines) ==>
              exists i :: 0 <= i < |lines| && IsProductLine(lines[i]) && p == ProductOf(lines[i].resource)
    ensures forall v :: v in VariantsOf(lines) ==>
              exists i :: 0 <= i < |lines| && IsVariantLine(lines[i]) && v == VariantOf(lines[i].resource)
  {
    if lines != [] {
      var prefix := lines[..|lines| - 1];
      ItemsComeFromLines(prefix);
      assert forall i :: 0 <= i < |prefix| ==> prefix[i] == lines[i];
    }
  }

  /** The line is one of a product, or of a variant with this parent. */
  predicate IsProductWith(l: Line, id: string) {
    l.Bulk? && "gid://shopify/Product/" <= l.resource.id && l.resource.parentId == "" && l.resource.id == id
  }

  predicate IsVariantBelow(l: Line, id: string) {
    && l.Bulk? && l.resource.id != "" && l.resource.parentId == id
    && ("gid://shopify/ProductVariant/" <= l.resource.id || l.resource.parentId != "")
  }

  ghost predicate HasProductLine(lines: seq<Line>, id: string) {
    exists k :: 0 <= k < |lines| && IsProductWith(lines[k], id)
  }

  /** Which files are refused: unreadable JSON, a malformed time, or a variant without a product line for its parent. */
  lemma RefusedLines(lines: seq<Line>)
    ensures AllReadable(lines) <==>
            forall i :: 0 <= i < |lines| ==>
              lines[i] != InvalidJson
              && (lines[i].Bulk? && lines[i].resource.id != "" ==> lines[i].resource.updatedAt != Malformed)
    ensures AllReadableCollections(lines) <==>
            forall i :: 0 <= i < |lines| ==>
              lines[i] != InvalidJson
              && (lines[i].Bulk? && "gid://shopify/Collection/" <= lines[i].resource.id ==>
                    lines[i].resource.updatedAt != Malformed)
    ensures ParentsOccur(lines) <==> ParentsHaveLines(lines)
  {
    if ParentsOccur(lines) {
      ParentsAreLines(lines);
    }
    if ParentsHaveLines(lines) {
      LinesAreParents(lines);
    }
  }

  /** For each line of a variant, whatever its parent, there is a product's line. */
  ghost predicate ParentsHaveLines(lines: seq<Line>) {
    forall i :: 0 <= i < |lines| && IsVariantBelow(lines[i], ParentId(lines[i])) ==>
      HasProductLine(lines, ParentId(lines[i]))
  }

  function ParentId(l: Line): string {
    if l.Bulk? then l.resource.parentId else ""
  }

  lemma ParentsAreLines(lines: seq<Line>)
    requires ParentsOccur(lines)
    ensures ParentsHaveLines(lines)
  {
    ItemsComeFromLines(lines);
    forall i | 0 <= i < |lines| && IsVariantBelow(lines[i], ParentId(lines[i]))
      ensures HasProductLine(lines, ParentId(lines[i]))
    {
      ItemOfLine(lines, i);
      var v := VariantsOf(lines)[|VariantsOf(lines[..i])|];
      assert v in VariantsOf(lines) && v.body.productGid == ParentId(lines[i]);
      var p :| p in ProductsOf(lines) && p.gid == v.body.productGid;
      var k :| 0 <= k < |lines| && IsProductLine(lines[k]) && p == ProductOf(lines[k].resource);
      assert IsProductWith(lines[k], ParentId(lines[i]));
    }
  }

  lemma LinesAreParents(lines: seq<Line>)
    requires ParentsHaveLines(lines)
    ensures ParentsOccur(lines)
  {
    ItemsComeFromLines(lines);
    forall v | v in VariantsOf(lines) ensures exists p :: p in ProductsOf(lines) && p.gid == v.body.productGid {
      var i :| 0 <= i < |lines| && IsVariantLine(lines[i]) && v == VariantOf(lines[i].resource);
      assert IsVariantBelow(lines[i], ParentId(lines[i]));
      var k :| 0 <= k < |lines| && IsProductWith(lines[k], ParentId(lines[i]));
      ItemOfLine(lines, k);
      assert ProductsOf(lines)[|ProductsOf(lines[..k])|] in ProductsOf(lines);
    }
  }

  // ---- Meeting the normaliser ----------------------------------------------------------------------

  lemma {:induction false} ProductsHavePrefix(lines: seq<Line>)
    ensures forall p :: p in ProductsOf(lines) ==> PRODUCT_PREFIX <= p.gid
  {
    if lines != [] {
      ProductsHavePrefix(lines[..|lines| - 1]);
    }
  }

  lemma PrefixIsText(gid: string)
    requires PRODUCT_PREFIX <= gid
    ensures Trim(gid) != ""
  {
    assert gid[0] == PRODUCT_PREFIX[0] == 'g';
    TextStays(gid);
  }

  lemma CleanedProductIsKept(products: seq<Product>, i: nat)
    requires i < |products|
    ensures Trim(products[i].gid) in Kept(CleanProducts(products))
  {
    WinnersAreKept(CleanProducts(products));
    assert CleanProducts(products)[i].gid == Trim(products[i].gid);
  }

  lemma DecodedProductsAreNamed(lines: seq<Line>)
    ensures NoBlank(ProductsOf(lines))
  {
    ProductsHavePrefix(lines);
    forall i | 0 <= i < |ProductsOf(lines)| ensures Trim(ProductsOf(lines)[i].gid) != "" {
      assert ProductsOf(lines)[i] in ProductsOf(lines);
      PrefixIsText(ProductsOf(lines)[i].gid);
    }
  }

  lemma DecodedVariantsHaveParents(lines: seq<Line>, batch: Batch)
    requires ParentsOccur(lines) && batch.products == ProductsOf(lines) && batch.variants == VariantsOf(lines)
    ensures forall i :: 0 <= i < |batch.variants| ==>
              (HasParent(CleanVariants(batch.variants)[i], ProductGids(batch)) <==> Trim(batch.variants[i].gid) != "")
  {
    ProductsHavePrefix(lines);
    forall i | 0 <= i < |batch.variants|
      ensures HasParent(CleanVariants(batch.variants)[i], ProductGids(batch)) <==> Trim(batch.variants[i].gid) != ""
    {
      VariantHasParent(lines, batch, i);
    }
  }

  /**
   What the products decoder accepts the normaliser accepts as well, exactly when no
   variant's id is blank: a line with a parent may carry an id of spaces.
   */
  lemma DecodedIsAcceptable(lines: seq<Line>, batch: Batch)
    requires AllReadable(lines) && ParentsOccur(lines)
    requires batch.products == ProductsOf(lines) && batch.variants == VariantsOf(lines)
    requires NoBlank(batch.collections) && NoBlank(batch.themes)
    ensures Acceptable(batch) <==> forall v :: v in batch.variants ==> Trim(v.gid) != ""
  {
    DecodedProductsAreNamed(lines);
    DecodedVariantsHaveParents(lines, batch);
    if v :| v in batch.variants && Trim(v.gid) == "" {
      var i :| 0 <= i < |batch.variants| && batch.variants[i] == v;
      assert !HasParent(CleanVariants(batch.variants)[i], ProductGids(batch));
    }
  }

  lemma VariantHasParent(lines: seq<Line>, batch: Batch, i: nat)
    requires ParentsOccur(lines) && batch.products == ProductsOf(lines) && batch.variants == VariantsOf(lines)
    requires i < |batch.variants| && forall p :: p in ProductsOf(lines) ==> PRODUCT_PREFIX <= p.gid
    ensures HasParent(CleanVariants(batch.variants)[i], ProductGids(batch)) <==> Trim(batch.variants[i].gid) != ""
  {
    var v := batch.variants[i];
    assert v in VariantsOf(lines);
    var p :| p in ProductsOf(lines) && p.gid == v.body.productGid;
    var k :| 0 <= k < |batch.products| && batch.products[k] == p;
    PrefixIsText(p.gid);
    CleanedProductIsKept(batch.products, k);
  }

  /** Such a line: the decoder reads it, and the normaliser refuses the batch. */
  lemma BlankVariantIdIsRefused(product: Resource, variant: Resource, batch: Batch)
    requires product.id == "gid://shopify/Product/1" && product.parentId == "" && !product.updatedAt.Malformed?
    requires variant.id == " " && variant.parentId == product.id && !variant.updatedAt.Malformed?
    requires batch.products == ProductsOf([Bulk(product), Bulk(variant)])
    requires batch.variants == VariantsOf([Bulk(product), Bulk(variant)])
    requires batch.collections == [] && batch.themes == []
    ensures AllReadable([Bulk(product), Bulk(variant)]) && ParentsOccur([Bulk(product), Bulk(variant)])
    ensures !Acceptable(batch)
  {
    var lines := [Bulk(product), Bulk(variant)];
    assert lines[..1] == [Bulk(product)] && lines[..1][..0] == [];
    KindsAreDisjoint(lines[0]);
    assert product.id[..22] == PRODUCT_PREFIX && IsProductLine(lines[0]) && IsVariantLine(lines[1]);
    assert ProductsOf(lines[..1]) == [ProductOf(product)] && VariantsOf(lines[..1]) == [];
    KindsAreDisjoint(lines[1]);
    assert ProductsOf(lines) == [ProductOf(product)] && VariantsOf(lines) == [VariantOf(variant)];
    assert ProductOf(product) in ProductsOf(lines);
    assert Trim(variant.id) == "" by {
      assert " "[1..] == "";
    }
    assert VariantOf(variant) in batch.variants;
    DecodedIsAcceptable(lines, batch);
  }
}
