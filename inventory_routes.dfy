/** The inventory routes of backend/routes/inventory.js: batch stock
    adjustments, location transfers, the supplier grouping of the low-stock
    report and the totals of the valuation report. */
module InventoryRoutes {
  import opened Common
  import opened Products
  import opened Movements
  import opened Ledger

  // ---------------------------------------------------------------------
  // POST /adjust

  /** One entry of `adjustments`; `product` is `None` when the id is absent. */
  datatype AdjustmentLine = AdjustmentLine(product: Option<ProductId>, newStock: int)

  /** One entry of the response's `results`. */
  datatype AdjustResult = AdjustResult(product: string, previousStock: int, newStock: int, difference: int)

  /** What the loop has written so far inside the transaction. */
  datatype Adjusted = Adjusted(products: map<ProductId, Product>, moves: seq<Movement>, results: seq<AdjustResult>)

  /** The `adjustment` movement: the signed difference, no cost, no reference. */
  function AdjustMovement(p: ProductId, previousStock: int, newStock: int, user: UserId): Movement {
    Movement(p, Adjustment, newStock - previousStock, previousStock, newStock, None, None, None, user, None, None)
  }

  /** One iteration: the entry is checked, the product read from the
      session (so it sees the earlier entries' writes), its stock set to the
      new value and saved with the hook and the validators, and the movement
      and the result recorded. */
  function AdjustLine(st: Adjusted, line: AdjustmentLine, user: UserId, now: Time): Result<Adjusted> {
    if line.product.None? || line.newStock < 0 then Err(InvalidAdjustment)
    else
      var p := line.product.value;
      if p !in st.products then Err(ProductNotFound(p))
      else
        var stored := st.products[p];
        var saved := PreSave(stored, stored.(currentStock := line.newStock), now);
        if !ValidProduct(saved) then Err(SchemaViolation)
        else
          Ok(Adjusted(st.products[p := saved],
                      st.moves + [AdjustMovement(p, stored.currentStock, line.newStock, user)],
                      st.results + [AdjustResult(stored.name, stored.currentStock, line.newStock,
                                                 line.newStock - stored.currentStock)]))
  }

  function AdjustLines(st: Adjusted, lines: seq<AdjustmentLine>, user: UserId, now: Time): Result<Adjusted>
    decreases |lines|
  {
    if lines == [] then Ok(st)
    else
      match AdjustLine(st, lines[0], user, now)
      case Err(e) => Err(e)
      case Ok(next) => AdjustLines(next, lines[1..], user, now)
  }

  /** The route: a missing or empty list is refused before the loop; any
      failing entry aborts the whole batch. */
  function AdjustSpec(s: State, adjustments: Option<seq<AdjustmentLine>>, user: UserId, now: Time)
    : Result<(State, seq<AdjustResult>)>
  {
    if adjustments.None? || adjustments.value == [] then Err(ValidationFailed)
    else
      match AdjustLines(Adjusted(s.products, [], []), adjustments.value, user, now)
      case Err(e) => Err(e)
      case Ok(a) => Ok((State(a.products, s.sales, s.movements + a.moves, s.customers), a.results))
  }

  method AdjustAll(products0: map<ProductId, Product>, lines: seq<AdjustmentLine>, user: UserId, now: Time)
    returns (r: Result<Adjusted>)
    ensures r == AdjustLines(Adjusted(products0, [], []), lines, user, now)
  {
    var products: map<ProductId, Product> := products0;
    var moves: seq<Movement> := [];
    var results: seq<AdjustResult> := [];
    var i := 0;
    while i < |lines|
      invariant 0 <= i <= |lines|
      invariant AdjustLines(Adjusted(products0, [], []), lines, user, now)
                == AdjustLines(Adjusted(products, moves, results), lines[i..], user, now)
    {
      var line := lines[i];
      assert lines[i..][0] == line && lines[i..][1..] == lines[i + 1..];
      if line.product.None? || line.newStock < 0 {
        return Err(InvalidAdjustment);
      }
      var p := line.product.value;
      if p !in products {
        return Err(ProductNotFound(p));
      }
      var product := products[p];
      var previousStock := product.currentStock;
      var difference := line.newStock - previousStock;
      var saved := PreSave(product, product.(currentStock := line.newStock), now);
      if !ValidProduct(saved) {
        return Err(SchemaViolation);
      }
      products := products[p := saved];
      moves := moves + [Movement(p, Adjustment, difference, previousStock, line.newStock, None, None, None, user, None, None)];
      results := results + [AdjustResult(product.name, previousStock, line.newStock, difference)];
      i := i + 1;
    }
    assert lines[i..] == [];
    r := Ok(Adjusted(products, moves, results));
  }

  method Adjust(db: Database, adjustments: Option<seq<AdjustmentLine>>, user: UserId, now: Time)
    returns (r: Result<seq<AdjustResult>>)
    requires db.Valid()
    modifies db
    ensures db.Valid()
    ensures match AdjustSpec(old(db.Snapshot()), adjustments, user, now)
            case Ok(res) => r == Ok(res.1) && db.Snapshot() == res.0
            case Err(e) => r == Err(e) && db.Snapshot() == old(db.Snapshot())
  {
    var s0 := db.Snapshot();
    if adjustments.None? || adjustments.value == [] {
      return Err(ValidationFailed);
    }
    var done := AdjustAll(db.products, adjustments.value, user, now);
    if done.Err? {
      return Err(done.error);
    }
    AdjustPreservesValid(s0, adjustments, user, now);
    db.Commit(State(done.value.products, db.sales, db.movements + done.value.moves, db.customers));
    r := Ok(done.value.results);
  }

  predicate AllValid(products: map<ProductId, Product>) {
    forall p :: p in products ==> ValidProduct(products[p])
  }

  /** An entry the loop accepts: it names a product of the store and asks
      for a non-negative stock. */
  predicate Acceptable(products: map<ProductId, Product>, line: AdjustmentLine) {
    line.product.Some? && line.newStock >= 0 && line.product.value in products
  }

  /** On a valid catalogue the batch succeeds exactly when every entry is
      acceptable; the product ids never change along the way. */
  lemma {:induction false} AdjustLinesOkIff(st: Adjusted, lines: seq<AdjustmentLine>, user: UserId, now: Time)
    requires AllValid(st.products)
    ensures AdjustLines(st, lines, user, now).Ok? <==> forall k :: 0 <= k < |lines| ==> Acceptable(st.products, lines[k])
    ensures AdjustLines(st, lines, user, now).Ok? ==> AllValid(AdjustLines(st, lines, user, now).value.products)
    decreases |lines|
  {
    if lines != [] {
      if Acceptable(st.products, lines[0]) {
        var p := lines[0].product.value;
        var stored := st.products[p];
        PreSaveStable(stored, stored.(currentStock := lines[0].newStock), now, now);
        var next := AdjustLine(st, lines[0], user, now).value;
        assert next.products.Keys == st.products.Keys;
        AdjustLinesOkIff(next, lines[1..], user, now);
        assert forall k :: 1 <= k < |lines| ==> lines[k] == lines[1..][k - 1];
        assert forall k :: 0 <= k < |lines[1..]| ==> (Acceptable(st.products, lines[1..][k]) <==> Acceptable(next.products, lines[1..][k]));
      }
    }
  }

  /** The batch appends one result and one `adjustment` movement per entry,
      in input order: the movement logs the signed difference between the
      entry's new stock and the stock before it, the result reports the
      same figures. */
  lemma {:induction false} AdjustLinesRecords(st: Adjusted, lines: seq<AdjustmentLine>, user: UserId, now: Time)
    requires AdjustLines(st, lines, user, now).Ok?
    ensures var a := AdjustLines(st, lines, user, now).value;
            && |a.moves| == |st.moves| + |lines| && |a.results| == |st.results| + |lines|
            && a.moves[..|st.moves|] == st.moves && a.results[..|st.results|] == st.results
            && forall k :: 0 <= k < |lines| ==>
                 var m, res := a.moves[|st.moves| + k], a.results[|st.results| + k];
                 && lines[k].product == Some(m.product)
                 && m == AdjustMovement(m.product, m.previousStock, lines[k].newStock, user)
                 && res.previousStock == m.previousStock && res.newStock == lines[k].newStock
                 && res.difference == res.newStock - res.previousStock
    decreases |lines|
  {
    if lines != [] {
      var next := AdjustLine(st, lines[0], user, now).value;
      AdjustLinesRecords(next, lines[1..], user, now);
      var a := AdjustLines(st, lines, user, now).value;
      assert a.moves[..|next.moves|][..|st.moves|] == a.moves[..|st.moves|];
      assert a.results[..|next.results|][..|st.results|] == a.results[..|st.results|];
      forall k | 0 <= k < |lines|
        ensures var m, res := a.moves[|st.moves| + k], a.results[|st.results| + k];
                && lines[k].product == Some(m.product)
                && m == AdjustMovement(m.product, m.previousStock, lines[k].newStock, user)
                && res.previousStock == m.previousStock && res.newStock == lines[k].newStock
                && res.difference == res.newStock - res.previousStock
      {
        if k == 0 {
          assert a.moves[|st.moves|] == a.moves[..|next.moves|][|st.moves|];
          assert a.results[|st.results|] == a.results[..|next.results|][|st.results|];
        } else {
          assert lines[k] == lines[1..][k - 1];
        }
      }
    }
  }

  /** Each movement starts from the stock its product has when the entry is
      processed, so the batch's ledger replays from the old stocks to the
      new ones. In particular, a second entry for a product starts from the
      first one's new stock. */
  lemma {:induction false} AdjustLinesReplay(st: Adjusted, lines: seq<AdjustmentLine>, user: UserId, now: Time)
    requires AdjustLines(st, lines, user, now).Ok?
    ensures var a := AdjustLines(st, lines, user, now).value;
            && |st.moves| <= |a.moves|
            && Replay(StockMap(st.products), a.moves[|st.moves|..]) == Some(StockMap(a.products))
    decreases |lines|
  {
    if lines == [] {
      assert st.moves[|st.moves|..] == [];
    } else {
      var next := AdjustLine(st, lines[0], user, now).value;
      AdjustLinesReplay(next, lines[1..], user, now);
      AdjustLinesRecords(next, lines[1..], user, now);
      var a := AdjustLines(st, lines, user, now).value;
      var m := next.moves[|st.moves|];
      assert a.moves[..|next.moves|] == next.moves;
      assert a.moves[|st.moves|..] == [m] + a.moves[|next.moves|..];
      assert StockMap(next.products) == StockMap(st.products)[m.product := m.newStock];
    }
  }

  /** The value the last entry for `p` asks for, if any. */
  function LastNewStock(lines: seq<AdjustmentLine>, p: ProductId): Option<int> {
    if lines == [] then None
    else match LastNewStock(lines[1..], p)
      case Some(n) => Some(n)
      case None => if lines[0].product == Some(p) then Some(lines[0].newStock) else None
  }

  /** The stock is set, not shifted: each product ends at the value of the
      last entry naming it, products no entry names keep their stock, and
      apart from the stock and its timestamp no field changes. */
  lemma {:induction false} AdjustLinesStock(st: Adjusted, lines: seq<AdjustmentLine>, user: UserId, now: Time)
    requires AdjustLines(st, lines, user, now).Ok?
    ensures var a := AdjustLines(st, lines, user, now).value;
            && a.products.Keys == st.products.Keys
            && forall p :: p in st.products ==>
                 && a.products[p].(currentStock := st.products[p].currentStock, lastStockUpdate := st.products[p].lastStockUpdate)
                    == st.products[p]
                 && a.products[p].currentStock == (match LastNewStock(lines, p)
                      case None => st.products[p].currentStock
                      case Some(n) => n)
                 && (LastNewStock(lines, p).None? ==> a.products[p] == st.products[p])
    decreases |lines|
  {
    if lines != [] {
      var next := AdjustLine(st, lines[0], user, now).value;
      AdjustLinesStock(next, lines[1..], user, now);
    }
  }

  /** The route as a whole: under a valid store, the batch commits exactly
      when the list is non-empty and every entry is acceptable; on commit the
      ledger grows by one replayable movement per entry and nothing but
      products and movements changes. */
  lemma AdjustSucceedsIff(s: State, adjustments: Option<seq<AdjustmentLine>>, user: UserId, now: Time)
    requires ValidState(s)
    ensures AdjustSpec(s, adjustments, user, now).Ok? <==>
            adjustments.Some? && adjustments.value != []
            && forall k :: 0 <= k < |adjustments.value| ==> Acceptable(s.products, adjustments.value[k])
    ensures AdjustSpec(s, adjustments, user, now).Ok? ==>
            var s1 := AdjustSpec(s, adjustments, user, now).value.0;
            && |AdjustSpec(s, adjustments, user, now).value.1| == |adjustments.value|
            && s1.sales == s.sales && s1.customers == s.customers
            && |s1.movements| == |s.movements| + |adjustments.value|
            && s1.movements[..|s.movements|] == s.movements
            && Replay(StockMap(s.products), s1.movements[|s.movements|..]) == Some(StockMap(s1.products))
  {
    if adjustments.Some? && adjustments.value != [] {
      var st := Adjusted(s.products, [], []);
      AdjustLinesOkIff(st, adjustments.value, user, now);
      if AdjustLines(st, adjustments.value, user, now).Ok? {
        AdjustLinesRecords(st, adjustments.value, user, now);
        AdjustLinesReplay(st, adjustments.value, user, now);
        var a := AdjustLines(st, adjustments.value, user, now).value;
        assert a.moves[0..] == a.moves;
        assert (s.movements + a.moves)[|s.movements|..] == a.moves;
      }
    }
  }

  /** An adjustment batch leaves every document within its schema. */
  lemma AdjustPreservesValid(s: State, adjustments: Option<seq<AdjustmentLine>>, user: UserId, now: Time)
    requires ValidState(s) && AdjustSpec(s, adjustments, user, now).Ok?
    ensures ValidState(AdjustSpec(s, adjustments, user, now).value.0)
  {
    var st := Adjusted(s.products, [], []);
    AdjustLinesOkIff(st, adjustments.value, user, now);
    AdjustLinesRecords(st, adjustments.value, user, now);
    var a := AdjustLines(st, adjustments.value, user, now).value;
    var s1 := AdjustSpec(s, adjustments, user, now).value.0;
    forall k | 0 <= k < |s1.movements| ensures ValidMovement(s1.movements[k]) {
      if k < |s.movements| {
        assert s1.movements[k] == s.movements[k];
      } else {
        var j := k - |s.movements|;
        var m := a.moves[|st.moves| + j];
        assert m == AdjustMovement(m.product, m.previousStock, adjustments.value[j].newStock, user);
        assert s1.movements[k] == a.moves[j] == m;
      }
    }
  }

  /** Entries are processed one after the other: setting a stock of 7 to 10
      and then to 4 reports differences 3 and -6 and ends at 4. */
  lemma AdjustTwiceExample(s: State, p: ProductId, user: UserId, now: Time)
    requires ValidState(s) && p in s.products && s.products[p].currentStock == 7
    ensures var lines := [AdjustmentLine(Some(p), 10), AdjustmentLine(Some(p), 4)];
            var r := AdjustSpec(s, Some(lines), user, now);
            && r.Ok? && p in r.value.0.products && |r.value.1| == 2
            && r.value.0.products[p].currentStock == 4
            && r.value.1[0].difference == 3
            && r.value.1[1].difference == -6
  {
    var l0, l1 := AdjustmentLine(Some(p), 10), AdjustmentLine(Some(p), 4);
    var lines := [l0, l1];
    var st := Adjusted(s.products, [], []);
    var stored := s.products[p];
    PreSaveStable(stored, stored.(currentStock := 10), now, now);
    var a1 := AdjustLine(st, l0, user, now).value;
    var mid := a1.products[p];
    assert mid.currentStock == 10 && ValidProduct(mid);
    PreSaveStable(mid, mid.(currentStock := 4), now, now);
    var a2 := AdjustLine(a1, l1, user, now).value;
    assert a2.results == [AdjustResult(stored.name, 7, 10, 3), AdjustResult(mid.name, 10, 4, -6)];
    assert lines[1..] == [l1] && lines[1..][1..] == [];
    assert AdjustLines(a1, [l1], user, now) == Ok(a2);
    assert AdjustLines(st, lines, user, now) == Ok(a2);
  }

  // ---------------------------------------------------------------------
  // POST /transfer

  /** The body; `product` is `None` when the id is absent. */
  datatype TransferRequest = TransferRequest(
    product: Option<ProductId>,
    quantity: int,
    fromLocation: Option<Location>,
    toLocation: Option<Location>)

  /** The response's `data`. */
  datatype TransferResult = TransferResult(product: string, fromLocation: Option<Location>, toLocation: Option<Location>, quantity: int)

  /** The `transfer` movement: quantity 0, the stock before and after equal. */
  function TransferMovement(req: TransferRequest, p: ProductId, stock: int, user: UserId): Movement {
    Movement(p, Transfer, 0, stock, stock, None, None, None, user, req.fromLocation, req.toLocation)
  }

  /** The route: a missing id or a quantity that is not positive is refused,
      a missing product is reported, the location is saved only when a
      destination is given, and the movement is logged. */
  function TransferSpec(s: State, req: TransferRequest, user: UserId, now: Time): Result<(State, TransferResult)> {
    if req.product.None? || req.quantity <= 0 then Err(InvalidTransfer)
    else
      var p := req.product.value;
      if p !in s.products then Err(ProductNotFound(p))
      else
        var stored := s.products[p];
        var saved := PreSave(stored, stored.(location := req.toLocation), now);
        if req.toLocation.Some? && !ValidProduct(saved) then Err(SchemaViolation)
        else
          var products := if req.toLocation.Some? then s.products[p := saved] else s.products;
          Ok((State(products, s.sales, s.movements + [TransferMovement(req, p, stored.currentStock, user)], s.customers),
              TransferResult(stored.name, req.fromLocation, req.toLocation, req.quantity)))
  }

  method TransferStock(db: Database, req: TransferRequest, user: UserId, now: Time) returns (r: Result<TransferResult>)
    requires db.Valid()
    modifies db
    ensures db.Valid()
    ensures match TransferSpec(old(db.Snapshot()), req, user, now)
            case Ok(res) => r == Ok(res.1) && db.Snapshot() == res.0
            case Err(e) => r == Err(e) && db.Snapshot() == old(db.Snapshot())
  {
    var s0 := db.Snapshot();
    if req.product.None? || req.quantity <= 0 {
      return Err(InvalidTransfer);
    }
    var p := req.product.value;
    if p !in db.products {
      return Err(ProductNotFound(p));
    }
    var product := db.products[p];
    var products := db.products;
    if req.toLocation.Some? {
      var saved := PreSave(product, product.(location := req.toLocation), now);
      if !ValidProduct(saved) {
        return Err(SchemaViolation);
      }
      products := products[p := saved];
    }
    var movement := Movement(p, Transfer, 0, product.currentStock, product.currentStock, None, None, None, user,
                             req.fromLocation, req.toLocation);
    TransferPreservesValid(s0, req, user, now);
    db.Commit(State(products, db.sales, db.movements + [movement], db.customers));
    r := Ok(TransferResult(product.name, req.fromLocation, req.toLocation, req.quantity));
  }

  /** A transfer fails exactly on a missing id, a quantity that is not
      positive or an unknown product (under a valid catalogue the save of
      the new location cannot fail). */
  lemma TransferSucceedsIff(s: State, req: TransferRequest, user: UserId, now: Time)
    requires ValidState(s)
    ensures TransferSpec(s, req, user, now).Ok? <==> req.product.Some? && req.quantity > 0 && req.product.value in s.products
    ensures req.product.None? || req.quantity <= 0 ==> TransferSpec(s, req, user, now) == Err(InvalidTransfer)
  {
    if req.product.Some? && req.product.value in s.products {
      var stored := s.products[req.product.value];
      PreSaveStable(stored, stored.(location := req.toLocation), now, now);
    }
  }

  /** A transfer never changes any stock and logs one movement of quantity 0
      whose previous and new stock are the product's stock, so the ledger
      still replays. The location is replaced only when a destination is
      given, and no other field changes. */
  lemma TransferEffect(s: State, req: TransferRequest, user: UserId, now: Time)
    requires TransferSpec(s, req, user, now).Ok?
    ensures var s1 := TransferSpec(s, req, user, now).value.0;
            var p := req.product.value;
            && p in s.products
            && StockMap(s1.products) == StockMap(s.products)
            && s1.movements == s.movements + [s1.movements[|s.movements|]]
            && s1.movements[|s.movements|].kind == Transfer
            && s1.movements[|s.movements|].quantity == 0
            && s1.movements[|s.movements|].previousStock == s.products[p].currentStock
            && s1.movements[|s.movements|].newStock == s.products[p].currentStock
            && Replay(StockMap(s.products), s1.movements[|s.movements|..]) == Some(StockMap(s1.products))
            && s1.products.Keys == s.products.Keys
            && (forall q :: q in s.products && q != p ==> s1.products[q] == s.products[q])
            && (req.toLocation.Some? ==> s1.products[p] == s.products[p].(location := req.toLocation))
            && (req.toLocation.None? ==> s1.products[p] == s.products[p])
            && s1.sales == s.sales && s1.customers == s.customers
  {
    var s1 := TransferSpec(s, req, user, now).value.0;
    var p := req.product.value;
    var m := s1.movements[|s.movements|];
    assert s1.movements[|s.movements|..] == [m];
    assert StockMap(s.products)[p := m.newStock] == StockMap(s.products);
  }

  lemma TransferPreservesValid(s: State, req: TransferRequest, user: UserId, now: Time)
    requires ValidState(s) && TransferSpec(s, req, user, now).Ok?
    ensures ValidState(TransferSpec(s, req, user, now).value.0)
  {
    TransferEffect(s, req, user, now);
    var s1 := TransferSpec(s, req, user, now).value.0;
    forall k | 0 <= k < |s1.movements| ensures ValidMovement(s1.movements[k]) {
      if k < |s.movements| { assert s1.movements[k] == s.movements[k]; }
    }
  }

  // ---------------------------------------------------------------------
  // GET /low-stock: the products grouped by supplier.

  /** One value of the `bySupplier` dictionary. */
  datatype SupplierBucket = SupplierBucket(supplier: SupplierId, products: seq<Product>)

  /** The dictionary's key lookup; a JavaScript object keeps its keys in
      insertion order, so the dictionary is a list of buckets. */
  function BucketOf(buckets: seq<SupplierBucket>, sid: SupplierId): (r: Option<nat>)
    ensures r.Some? ==> r.value < |buckets| && buckets[r.value].supplier == sid
    ensures r.None? ==> forall k :: 0 <= k < |buckets| ==> buckets[k].supplier != sid
    decreases |buckets|
  {
    if buckets == [] then None
    else if buckets[|buckets| - 1].supplier == sid then Some(|buckets| - 1)
    else BucketOf(buckets[..|buckets| - 1], sid)
  }

  /** One step of the `forEach`: a new supplier opens a bucket, and the
      product is pushed onto its supplier's bucket. */
  function AddToBucket(buckets: seq<SupplierBucket>, x: Product): seq<SupplierBucket> {
    match BucketOf(buckets, x.supplier)
    case None => buckets + [SupplierBucket(x.supplier, [x])]
    case Some(k) => buckets[k := buckets[k].(products := buckets[k].products + [x])]
  }

  function GroupBySupplier(products: seq<Product>): seq<SupplierBucket>
    decreases |products|
  {
    if products == [] then []
    else AddToBucket(GroupBySupplier(products[..|products| - 1]), products[|products| - 1])
  }

  /** `Object.values(bySupplier)` after the `forEach`. */
  method BySupplier(products: seq<Product>) returns (buckets: seq<SupplierBucket>)
    ensures buckets == GroupBySupplier(products)
  {
    buckets := [];
    var i := 0;
    while i < |products|
      invariant 0 <= i <= |products|
      invariant buckets == GroupBySupplier(products[..i])
    {
      var product := products[i];
      assert products[..i + 1][..i] == products[..i] && products[..i + 1][i] == product;
      ghost var before := buckets;
      var k := BucketOf(buckets, product.supplier);
      if k.None? {
        buckets := buckets + [SupplierBucket(product.supplier, [])];
        k := Some(|buckets| - 1);
        assert [] + [product] == [product];
        assert buckets[k.value := SupplierBucket(product.supplier, [product])]
               == before + [SupplierBucket(product.supplier, [product])];
      }
      var b := buckets[k.value];
      buckets := buckets[k.value := b.(products := b.products + [product])];
      assert buckets == AddToBucket(before, product);
      i := i + 1;
    }
    assert products[..i] == products;
  }

  /** The reference definition: the products of one supplier, in order. */
  function OfSupplier(products: seq<Product>, sid: SupplierId): seq<Product>
    decreases |products|
  {
    if products == [] then []
    else
      var last := products[|products| - 1];
      OfSupplier(products[..|products| - 1], sid) + (if last.supplier == sid then [last] else [])
  }

  /** The grouping is a partition by supplier: each bucket holds exactly
      that supplier's products in their order, no supplier has two buckets,
      and every product's supplier has one. */
  lemma {:induction false} GroupBySupplierPartition(products: seq<Product>)
    ensures BucketsPartition(products, GroupBySupplier(products))
    decreases |products|
  {
    if products != [] {
      var init, x := products[..|products| - 1], products[|products| - 1];
      GroupBySupplierPartition(init);
      var g0 := GroupBySupplier(init);
      assert products == init + [x];
      if BucketOf(g0, x.supplier).None? {
        OpenBucketPartition(init, x, g0);
      } else {
        ExtendBucketPartition(init, x, g0);
      }
    }
  }

  /** The grouping is a partition by supplier: each bucket holds exactly
      that supplier's products in their order, no supplier has two buckets,
      and every product's supplier has one. */
  ghost predicate BucketsPartition(products: seq<Product>, g: seq<SupplierBucket>) {
    && (forall k :: 0 <= k < |g| ==> g[k].products == OfSupplier(products, g[k].supplier) && g[k].products != [])
    && (forall i, j :: 0 <= i < j < |g| ==> g[i].supplier != g[j].supplier)
    && (forall j :: 0 <= j < |products| ==> BucketOf(g, products[j].supplier).Some?)
  }

  lemma OfSupplierLast(init: seq<Product>, x: Product, sid: SupplierId)
    ensures OfSupplier(init + [x], sid) == OfSupplier(init, sid) + (if x.supplier == sid then [x] else [])
  {
    assert (init + [x])[..|init|] == init;
  }

  /** A product of a new supplier opens a bucket at the end. */
  lemma OpenBucketPartition(init: seq<Product>, x: Product, g0: seq<SupplierBucket>)
    requires BucketsPartition(init, g0) && BucketOf(g0, x.supplier).None?
    ensures BucketsPartition(init + [x], AddToBucket(g0, x))
  {
    var products := init + [x];
    var g := AddToBucket(g0, x);
    OfSupplierAbsent(init, x.supplier, g0);
    assert g == g0 + [SupplierBucket(x.supplier, [x])];
    forall k | 0 <= k < |g| ensures g[k].products == OfSupplier(products, g[k].supplier) && g[k].products != [] {
      OfSupplierLast(init, x, g[k].supplier);
      if k < |g0| { assert g[k] == g0[k]; }
    }
    forall j | 0 <= j < |products| ensures BucketOf(g, products[j].supplier).Some? {
      if j < |init| {
        assert products[j] == init[j];
        var k := BucketOf(g0, init[j].supplier).value;
        assert g[k] == g0[k];
      } else {
        assert g[|g0|].supplier == x.supplier;
      }
    }
  }

  /** A product of a known supplier joins that supplier's bucket. */
  lemma ExtendBucketPartition(init: seq<Product>, x: Product, g0: seq<SupplierBucket>)
    requires BucketsPartition(init, g0) && BucketOf(g0, x.supplier).Some?
    ensures BucketsPartition(init + [x], AddToBucket(g0, x))
  {
    var products := init + [x];
    var g := AddToBucket(g0, x);
    var i := BucketOf(g0, x.supplier).value;
    assert g == g0[i := g0[i].(products := g0[i].products + [x])];
    forall k | 0 <= k < |g| ensures g[k].products == OfSupplier(products, g[k].supplier) && g[k].products != [] {
      OfSupplierLast(init, x, g[k].supplier);
    }
    forall j | 0 <= j < |products| ensures BucketOf(g, products[j].supplier).Some? {
      if j < |init| {
        assert products[j] == init[j];
        var k := BucketOf(g0, init[j].supplier).value;
        assert g[k].supplier == g0[k].supplier;
      } else {
        assert g[i].supplier == x.supplier;
      }
    }
  }

  /** A supplier without a bucket has no product. */
  lemma {:induction false} OfSupplierAbsent(products: seq<Product>, sid: SupplierId, g: seq<SupplierBucket>)
    requires forall j :: 0 <= j < |products| ==> BucketOf(g, products[j].supplier).Some?
    requires BucketOf(g, sid).None?
    ensures OfSupplier(products, sid) == []
    decreases |products|
  {
    if products != [] {
      var init := products[..|products| - 1];
      assert forall j :: 0 <= j < |init| ==> init[j] == products[j];
      OfSupplierAbsent(init, sid, g);
    }
  }

  lemma {:induction false} OfSupplierMembers(products: seq<Product>, sid: SupplierId, x: Product)
    ensures x in OfSupplier(products, sid) <==> x in products && x.supplier == sid
    decreases |products|
  {
    if products != [] {
      var init := products[..|products| - 1];
      OfSupplierMembers(init, sid, x);
      assert products == init + [products[|products| - 1]];
    }
  }

  /** `x` lies in exactly one bucket, its supplier's. */
  ghost predicate InExactlyOneBucket(g: seq<SupplierBucket>, x: Product) {
    exists k :: 0 <= k < |g| && x in g[k].products && g[k].supplier == x.supplier
                && forall i :: 0 <= i < |g| && i != k ==> x !in g[i].products
  }

  /** Every product of the report lies in exactly one bucket: its
      supplier's. */
  lemma ExactlyOneBucket(products: seq<Product>, x: Product)
    requires x in products
    ensures InExactlyOneBucket(GroupBySupplier(products), x)
  {
    GroupBySupplierPartition(products);
    PartitionHasOneBucket(products, GroupBySupplier(products), x);
  }

  lemma PartitionHasOneBucket(products: seq<Product>, g: seq<SupplierBucket>, x: Product)
    requires BucketsPartition(products, g) && x in products
    ensures InExactlyOneBucket(g, x)
  {
    var j :| 0 <= j < |products| && products[j] == x;
    assert BucketOf(g, products[j].supplier).Some?;
    var k := BucketOf(g, x.supplier).value;
    OfSupplierMembers(products, x.supplier, x);
    assert x in g[k].products;
    forall i | 0 <= i < |g| && i != k ensures x !in g[i].products {
      OfSupplierMembers(products, g[i].supplier, x);
      assert g[i].supplier != g[k].supplier by {
        if i < k { } else { }
      }
    }
  }

  // ---------------------------------------------------------------------
  // GET /valuation: the totals over the per-category rows.

  /** One row of the aggregation's result. */
  datatype CategoryRow = CategoryRow(
    totalProducts: int,
    totalQuantity: int,
    totalCostValue: int,
    totalSellingValue: int,
    potentialProfit: int)

  const ZeroRow := CategoryRow(0, 0, 0, 0, 0)

  function AddRow(acc: CategoryRow, cat: CategoryRow): CategoryRow {
    CategoryRow(acc.totalProducts + cat.totalProducts, acc.totalQuantity + cat.totalQuantity,
                acc.totalCostValue + cat.totalCostValue, acc.totalSellingValue + cat.totalSellingValue,
                acc.potentialProfit + cat.potentialProfit)
  }

  /** The `reduce` from the zero row. */
  function ValuationTotals(rows: seq<CategoryRow>): CategoryRow
    decreases |rows|
  {
    if rows == [] then ZeroRow else AddRow(ValuationTotals(rows[..|rows| - 1]), rows[|rows| - 1])
  }

  /** The reference definition: the sum of one column, from the front. */
  function SumBy(rows: seq<CategoryRow>, f: CategoryRow -> int): int {
    if rows == [] then 0 else f(rows[0]) + SumBy(rows[1..], f)
  }

  lemma {:induction false} SumByAppend(rows: seq<CategoryRow>, x: CategoryRow, f: CategoryRow -> int)
    ensures SumBy(rows + [x], f) == SumBy(rows, f) + f(x)
    decreases |rows|
  {
    if rows == [] {
      assert [x][1..] == [];
    } else {
      assert (rows + [x])[1..] == rows[1..] + [x];
      SumByAppend(rows[1..], x, f);
    }
  }

  /** Each total is the sum of its column over the rows. */
  lemma {:induction false} ValuationTotalsFieldwise(rows: seq<CategoryRow>)
    ensures ValuationTotals(rows) == CategoryRow(
              SumBy(rows, (r: CategoryRow) => r.totalProducts), SumBy(rows, (r: CategoryRow) => r.totalQuantity),
              SumBy(rows, (r: CategoryRow) => r.totalCostValue), SumBy(rows, (r: CategoryRow) => r.totalSellingValue),
              SumBy(rows, (r: CategoryRow) => r.potentialProfit))
    decreases |rows|
  {
    if rows != [] {
      var init, x := rows[..|rows| - 1], rows[|rows| - 1];
      ValuationTotalsFieldwise(init);
      assert rows == init + [x];
      SumByAppend(init, x, (r: CategoryRow) => r.totalProducts);
      SumByAppend(init, x, (r: CategoryRow) => r.totalQuantity);
      SumByAppend(init, x, (r: CategoryRow) => r.totalCostValue);
      SumByAppend(init, x, (r: CategoryRow) => r.totalSellingValue);
      SumByAppend(init, x, (r: CategoryRow) => r.potentialProfit);
    }
  }

  /** When every row's profit is its selling value minus its cost value, so
      is the total's. */
  lemma {:induction false} ValuationProfitConsistent(rows: seq<CategoryRow>)
    requires forall k :: 0 <= k < |rows| ==> rows[k].potentialProfit == rows[k].totalSellingValue - rows[k].totalCostValue
    ensures ValuationTotals(rows).potentialProfit == ValuationTotals(rows).totalSellingValue - ValuationTotals(rows).totalCostValue
    decreases |rows|
  {
    if rows != [] {
      ValuationProfitConsistent(rows[..|rows| - 1]);
    }
  }
}
