/** The catalogue routes of backend/routes/products.js: the field whitelist
    applied to request bodies, the SKU-uniqueness checks of create and
    update, the `limit` clamp and page count of the listing, and the soft
    delete. */
module ProductRoutes {
  import opened Common
  import opened Products
  import opened Ledger
  import SaleModel

  // ---------------------------------------------------------------------
  // Request bodies and pickProductFields.

  /** A JSON value as the body parser produces it (integers only). */
  datatype Json = JNull | JBool(b: bool) | JNum(n: int) | JStr(s: string) | JArray(elems: seq<Json>) | JObject(fields: map<string, Json>)

  /** A body: the keys that are present; an absent key reads `undefined`. */
  type Body = map<string, Json>

  /** JavaScript truthiness. */
  predicate Truthy(v: Json) {
    match v
    case JNull => false
    case JBool(b) => b
    case JNum(n) => n != 0
    case JStr(s) => s != ""
    case JArray(_) => true
    case JObject(_) => true
  }

  /** `String(n)` of an integer. */
  function IntString(n: int): string {
    if n >= 0 then SaleModel.DecimalString(n) else "-" + SaleModel.DecimalString(-n)
  }

  /** `String(v)`; an array is joined with commas, a null element giving
      the empty string. */
  function JsString(v: Json): string
    decreases v, 1, 0
  {
    match v
    case JNull => "null"
    case JBool(b) => if b then "true" else "false"
    case JNum(n) => IntString(n)
    case JStr(s) => s
    case JArray(_) => JoinFrom(v, 0)
    case JObject(_) => "[object Object]"
  }

  function JoinFrom(v: Json, i: nat): string
    requires v.JArray? && i <= |v.elems|
    decreases v, 0, |v.elems| - i
  {
    if i == |v.elems| then ""
    else
      var e := v.elems[i];
      (if i > 0 then "," else "") + (if e.JNull? then "" else JsString(e)) + JoinFrom(v, i + 1)
  }

  /** The whitelist, in the loop's order. */
  const AllowedFields: seq<string> :=
    ["name", "sku", "barcode", "brand", "description", "category", "supplier", "pricing", "inventory", "isActive", "images"]

  /** The whitelisted keys of the body that are present. */
  function Copied(body: Body): (r: Body)
    ensures forall k :: k in r <==> k in body && k in AllowedFields
    ensures forall k :: k in r ==> r[k] == body[k]
  {
    map k | k in body && k in AllowedFields :: body[k]
  }

  /** `pickProductFields`: the whitelisted keys that are not undefined, a
      truthy SKU converted to a string, trimmed and upper-cased, and
      `isActive` true unless given. */
  function PickSpec(body: Body): (data: Body)
    ensures forall k :: k in data <==> (k in body && k in AllowedFields) || k == "isActive"
    ensures forall k :: k in data && k != "sku" && k != "isActive" ==> data[k] == body[k]
    ensures "sku" in data ==>
              data["sku"] == if Truthy(body["sku"]) then JStr(NormalizeSku(JsString(body["sku"]))) else body["sku"]
    ensures data["isActive"] == if "isActive" in body then body["isActive"] else JBool(true)
  {
    var copied := Copied(body);
    var withSku := if "sku" in copied && Truthy(copied["sku"])
                   then copied["sku" := JStr(NormalizeSku(JsString(copied["sku"])))]
                   else copied;
    if "isActive" !in withSku then withSku["isActive" := JBool(true)] else withSku
  }

  method PickProductFields(body: Body) returns (data: Body)
    ensures data == PickSpec(body)
  {
    data := map[];
    var i := 0;
    while i < |AllowedFields|
      invariant 0 <= i <= |AllowedFields|
      invariant forall k :: k in data <==> k in body && k in AllowedFields[..i]
      invariant forall k :: k in data ==> data[k] == body[k]
    {
      var k := AllowedFields[i];
      if k in body {
        data := data[k := body[k]];
      }
      assert AllowedFields[..i + 1] == AllowedFields[..i] + [k];
      i := i + 1;
    }
    assert AllowedFields[..i] == AllowedFields;
    assert data == Copied(body);
    if "sku" in data && Truthy(data["sku"]) {
      data := data["sku" := JStr(NormalizeSku(JsString(data["sku"])))];
    }
    if "isActive" !in data {
      data := data["isActive" := JBool(true)];
    }
  }

  /** Whitelisting a whitelisted body changes nothing: no key is added or
      dropped, the SKU is already normal and `isActive` already present. */
  lemma PickIdempotent(body: Body)
    ensures PickSpec(PickSpec(body)) == PickSpec(body)
  {
    var d := PickSpec(body);
    assert "isActive" in AllowedFields;
    assert Copied(d) == d;
    if "sku" in d && Truthy(d["sku"]) {
      assert Truthy(body["sku"]);
      NormalizeSkuIdempotent(JsString(body["sku"]));
      assert d["sku" := JStr(NormalizeSku(JsString(d["sku"])))] == d;
    }
  }

  /** A string SKU comes out trimmed and upper-cased. Whitespace around it
      and its letter case do not change what is stored
      (`NormalizeSkuIgnoresPadding`, `NormalizeSkuIgnoresCase`). */
  lemma PickSkuString(body: Body, s: string)
    requires "sku" in body && body["sku"] == JStr(s) && s != ""
    ensures PickSpec(body)["sku"] == JStr(NormalizeSku(s))
    ensures IsTrimmed(NormalizeSku(s))
  {
  }

  // ---------------------------------------------------------------------
  // SKU uniqueness.

  predicate SkuTaken(products: map<ProductId, Product>, sku: string) {
    exists q :: q in products && products[q].sku == sku
  }

  /** The update's lookup: a product other than `id` with this SKU. */
  predicate SkuTakenByOther(products: map<ProductId, Product>, id: ProductId, sku: string) {
    exists q :: q in products && q != id && products[q].sku == sku
  }

  /** No two products share a SKU (the schema's unique index). */
  predicate DistinctSkus(products: map<ProductId, Product>) {
    forall p, q :: p in products && q in products && p != q ==> products[p].sku != products[q].sku
  }

  /** `POST /`: refused when any product already has the SKU; otherwise the
      product is created with the schema's validators. The store assigns a
      fresh id. */
  function CreateProduct(products: map<ProductId, Product>, id: ProductId, candidate: Product)
    : Result<map<ProductId, Product>>
    requires id !in products
  {
    if SkuTaken(products, candidate.sku) then Err(DuplicateSku)
    else if !ValidProduct(candidate) then Err(SchemaViolation)
    else Ok(products[id := candidate])
  }

  /** `PUT /:id`: when the body carries a (truthy) SKU, refused if a
      different product has it; then the update with validators. `updated`
      is the stored product with the body's fields merged in. */
  function UpdateProduct(products: map<ProductId, Product>, id: ProductId, sku: Option<string>, updated: Product)
    : Result<map<ProductId, Product>>
  {
    if sku.Some? && SkuTakenByOther(products, id, sku.value) then Err(DuplicateSku)
    else if id !in products then Err(ProductNotFound(id))
    else if !ValidProduct(updated) then Err(SchemaViolation)
    else Ok(products[id := updated])
  }

  /** Create refuses exactly the SKUs in use; a valid product with a new
      SKU is added, and the SKUs stay distinct. */
  lemma CreateChecksSku(products: map<ProductId, Product>, id: ProductId, candidate: Product)
    requires id !in products
    ensures CreateProduct(products, id, candidate) == Err(DuplicateSku) <==> SkuTaken(products, candidate.sku)
    ensures CreateProduct(products, id, candidate).Ok? <==> !SkuTaken(products, candidate.sku) && ValidProduct(candidate)
    ensures DistinctSkus(products) && CreateProduct(products, id, candidate).Ok? ==>
              DistinctSkus(CreateProduct(products, id, candidate).value)
  {
  }

  /** Update refuses a SKU only when another product holds it: keeping the
      product's own SKU is accepted, although create would refuse it. */
  lemma UpdateChecksSku(products: map<ProductId, Product>, id: ProductId, updated: Product)
    requires DistinctSkus(products) && id in products && ValidProduct(updated)
    requires updated.sku == products[id].sku
    ensures UpdateProduct(products, id, Some(updated.sku), updated).Ok?
    ensures SkuTaken(products, updated.sku)
  {
  }

  /** An update of the SKU the body names (or of none) keeps the SKUs
      distinct. */
  lemma UpdateKeepsSkusDistinct(products: map<ProductId, Product>, id: ProductId, sku: Option<string>, updated: Product)
    requires DistinctSkus(products) && UpdateProduct(products, id, sku, updated).Ok?
    requires updated.sku == if sku.Some? then sku.value else products[id].sku
    ensures DistinctSkus(UpdateProduct(products, id, sku, updated).value)
    ensures sku.Some? ==> !SkuTakenByOther(products, id, sku.value)
  {
    var r := UpdateProduct(products, id, sku, updated).value;
    forall p, q | p in r && q in r && p != q ensures r[p].sku != r[q].sku {
      if p == id {
        assert r[q] == products[q];
        if sku.Some? { assert !(q in products && q != id && products[q].sku == sku.value); }
      } else if q == id {
        assert r[p] == products[p];
        if sku.Some? { assert !(p in products && p != id && products[p].sku == sku.value); }
      }
    }
  }

  // ---------------------------------------------------------------------
  // GET /: the page size and the page count.

  /** The end of the run of decimal digits of `s` starting at `i`. */
  function DigitRun(s: string, i: nat): (r: nat)
    requires i <= |s|
    ensures i <= r <= |s|
    ensures SaleModel.AllDigits(s[i..r])
    ensures r == |s| || !SaleModel.IsDigit(s[r])
    decreases |s| - i
  {
    if i < |s| && SaleModel.IsDigit(s[i]) then
      var r := DigitRun(s, i + 1);
      assert forall k :: 1 <= k < r - i ==> s[i..r][k] == s[i + 1..r][k - 1];
      r
    else i
  }

  /** `parseInt(s, 10)`: leading whitespace skipped, an optional sign, then
      the longest run of digits; no digit at all gives NaN (`None`). */
  function ParseInt(s: string): Option<int> {
    var i := SkipLeading(s, 0);
    var neg := i < |s| && s[i] == '-';
    var start := if i < |s| && (s[i] == '-' || s[i] == '+') then i + 1 else i;
    var end := DigitRun(s, start);
    if end == start then None
    else
      var v: int := SaleModel.DigitsValue(s[start..end]);
      Some(if neg then -v else v)
  }

  /** `parseInt` reads back the decimal form of a number, with or without
      a minus sign. */
  lemma ParseIntDecimal(n: nat)
    ensures ParseInt(SaleModel.DecimalString(n)) == Some(n)
    ensures ParseInt("-" + SaleModel.DecimalString(n)) == Some(-(n as int))
  {
    var d := SaleModel.DecimalString(n);
    SaleModel.DecimalStringValue(n);
    assert SkipLeading(d, 0) == 0 by { assert SaleModel.IsDigit(d[0]); }
    AllDigitsRun(d, 0);
    assert d[0..|d|] == d;
    var m := "-" + d;
    assert SkipLeading(m, 0) == 0;
    assert m[1..] == d;
    AllDigitsRun(m, 1);
    assert m[1..|m|] == d;
  }

  lemma {:induction false} AllDigitsRun(s: string, i: nat)
    requires i <= |s| && SaleModel.AllDigits(s[i..])
    ensures DigitRun(s, i) == |s|
    decreases |s| - i
  {
    if i < |s| {
      assert s[i..][0] == s[i];
      assert s[i + 1..] == s[i..][1..];
      AllDigitsRun(s, i + 1);
    }
  }

  /** `Math.min(parseInt(limit, 10) || 20, 100)`: NaN and 0 fall back to 20. A
      negative value is kept. */
  function ListLimit(query: Option<string>): (limit: int)
    ensures limit <= 100
    ensures limit != 0
  {
    var parsed := if query.Some? then ParseInt(query.value) else Some(20);
    var wanted := if parsed.None? || parsed.value == 0 then 20 else parsed.value;
    if wanted < 100 then wanted else 100
  }

  /** The clamp in full: an absent, non-numeric or zero limit gives 20, one
      up to 100 is kept, a larger one gives 100. */
  lemma ListLimitCases(query: Option<string>)
    ensures query.None? ==> ListLimit(query) == 20
    ensures query.Some? && (ParseInt(query.value).None? || ParseInt(query.value) == Some(0)) ==> ListLimit(query) == 20
    ensures query.Some? && ParseInt(query.value).Some? && ParseInt(query.value).value != 0 ==>
              ListLimit(query) == if ParseInt(query.value).value < 100 then ParseInt(query.value).value else 100
  {
  }

  /** A negative limit passes the clamp: `limit=-n` is used as -n. */
  lemma NegativeLimitKept(n: nat)
    requires n > 0
    ensures ListLimit(Some("-" + SaleModel.DecimalString(n))) == -(n as int)
  {
    ParseIntDecimal(n);
  }

  /** `Math.ceil(total / limit)` for a limit the clamp can return. */
  function Pages(total: nat, limit: int): int
    requires limit != 0
  {
    if limit > 0 then (total + limit - 1) / limit else -(total / -limit)
  }

  /** For a positive limit the page count is the least number of pages of
      `limit` items that hold all `total` items. */
  lemma PagesIsCeiling(total: nat, limit: int)
    requires limit > 0
    ensures Pages(total, limit) >= 0
    ensures Pages(total, limit) * limit >= total
    ensures Pages(total, limit) == 0 || (Pages(total, limit) - 1) * limit < total
  {
    var p := Pages(total, limit);
    assert p * limit <= total + limit - 1 < (p + 1) * limit;
  }

  // ---------------------------------------------------------------------
  // DELETE /:id

  /** `findByIdAndUpdate(id, { isActive: false })`: no hook, no validator. */
  function SoftDeleteSpec(s: State, id: ProductId): Result<State> {
    if id !in s.products then Err(ProductNotFound(id))
    else Ok(s.(products := s.products[id := s.products[id].(isActive := false)]))
  }

  method SoftDelete(db: Database, id: ProductId) returns (r: Result<()>)
    requires db.Valid()
    modifies db
    ensures db.Valid()
    ensures match SoftDeleteSpec(old(db.Snapshot()), id)
            case Ok(s1) => r == Ok(()) && db.Snapshot() == s1
            case Err(e) => r == Err(e) && db.Snapshot() == old(db.Snapshot())
  {
    if id !in db.products {
      return Err(ProductNotFound(id));
    }
    var s1 := db.Snapshot().(products := db.products[id := db.products[id].(isActive := false)]);
    assert ValidState(s1) by {
      assert forall p :: p in s1.products ==> ValidProduct(s1.products[p]) by {
        assert forall p :: p in s1.products && p != id ==> s1.products[p] == db.products[p];
      }
    }
    db.Commit(s1);
    r := Ok(());
  }

  /** The product stays in the store, with every field but `isActive`
      (stock and ledger included) untouched; deleting twice is deleting
      once, and a deleted product is no longer active. */
  lemma SoftDeleteKeeps(s: State, id: ProductId)
    requires SoftDeleteSpec(s, id).Ok?
    ensures var s1 := SoftDeleteSpec(s, id).value;
            && s1.products.Keys == s.products.Keys
            && !s1.products[id].isActive
            && s1.products[id].(isActive := s.products[id].isActive) == s.products[id]
            && (forall q :: q in s.products && q != id ==> s1.products[q] == s.products[q])
            && s1.sales == s.sales && s1.movements == s.movements && s1.customers == s.customers
            && StockMap(s1.products) == StockMap(s.products)
            && SoftDeleteSpec(s1, id) == Ok(s1)
  {
    var s1 := SoftDeleteSpec(s, id).value;
    assert s1.products[id := s1.products[id].(isActive := false)] == s1.products;
  }
}
