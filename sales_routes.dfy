/** `POST /api/sales` of backend/routes/sales.js: checks each requested line
    against the product's current stock, lowers that stock, records one
    `sale` movement per line, accumulates the line subtotals, stores the sale
    with the request's sale-level discount and tax, and updates the
    customer's purchase aggregates, all in one transaction. */
module SalesRoutes {
  import opened Common
  import opened Products
  import opened Movements
  import opened SaleModel
  import opened Ledger

  /** A requested line `{product, quantity, unitPrice, discount}`. */
  datatype SaleLine = SaleLine(product: ProductId, quantity: int, unitPrice: int, discount: Option<int>)

  /** The request body; `discount` and `tax` are the sale-level amounts. */
  datatype SaleRequest = SaleRequest(
    items: seq<SaleLine>,
    customer: Option<CustomerId>,
    paymentMethod: string,
    discount: Option<int>,
    tax: Option<int>)

  /** The route's request validators: at least one line, every quantity an
      integer of at least 1 and a payment method among the five names. The
      `unitPrice` validator only asks for a number (its `min` option is not
      an option of that validator), so a negative price gets past it. */
  predicate ValidRequest(req: SaleRequest) {
    && |req.items| >= 1
    && (forall k :: 0 <= k < |req.items| ==> req.items[k].quantity >= 1)
    && ParsePaymentMethod(req.paymentMethod).Some?
  }

  /** Stored form of a requested line: its subtotal is net of its discount. */
  function LineItem(line: SaleLine): (it: SaleItem)
    ensures it.product == line.product && it.quantity == line.quantity && it.unitPrice == line.unitPrice
    ensures it.discount == OrZero(line.discount)
    ensures it.subtotal == line.unitPrice * line.quantity - it.discount
  {
    var d := OrZero(line.discount);
    SaleItem(line.product, line.quantity, line.unitPrice, line.unitPrice * line.quantity - d, d)
  }

  /** The stored items of the lines, in order. */
  function LineItems(lines: seq<SaleLine>): (items: seq<SaleItem>)
    ensures |items| == |lines|
    ensures forall k :: 0 <= k < |lines| ==> items[k] == LineItem(lines[k])
    decreases |lines|
  {
    if lines == [] then []
    else
      var rest := LineItems(lines[1..]);
      assert forall k :: 1 <= k < |lines| ==> lines[k] == lines[1..][k - 1];
      [LineItem(lines[0])] + rest
  }

  /** Units of `p` requested over the lines. */
  function Demand(lines: seq<SaleLine>, p: ProductId): int {
    if lines == [] then 0 else (if lines[0].product == p then lines[0].quantity else 0) + Demand(lines[1..], p)
  }

  /** The movement the route records for a sold line, given the product as
      saved: quantity `-q`, previous stock `new + q`. Its unit cost is the
      line's selling price. No reference to the sale is recorded. */
  function SaleMovement(line: SaleLine, saved: Product, user: UserId): Movement {
    Movement(line.product, SaleOut, -line.quantity, saved.currentStock + line.quantity, saved.currentStock,
             Some(line.unitPrice), Some(line.unitPrice * line.quantity), None, user, None, None)
  }

  /** The loop's working state: the products as the session sees them, the
      movements written so far, the processed items and the running subtotal. */
  datatype Pass = Pass(products: map<ProductId, Product>, moves: seq<Movement>, items: seq<SaleItem>, subtotal: int)

  /** The product as saved after selling `line` from it. */
  function SoldProduct(p: Product, line: SaleLine, now: Time): Product {
    PreSave(p, p.(currentStock := p.currentStock - line.quantity), now)
  }

  /** The working state after a line that passed its checks. */
  function Advance(st: Pass, line: SaleLine, user: UserId, now: Time): Pass
    requires line.product in st.products
  {
    var saved := SoldProduct(st.products[line.product], line, now);
    Pass(st.products[line.product := saved], st.moves + [SaleMovement(line, saved, user)],
         st.items + [LineItem(line)], st.subtotal + LineItem(line).subtotal)
  }

  /** One iteration of the loop over the requested lines. */
  function SellLine(st: Pass, line: SaleLine, user: UserId, now: Time): Result<Pass> {
    if line.product !in st.products then Err(ProductNotFound(line.product))
    else
      var p := st.products[line.product];
      if !p.isActive then Err(ProductInactive(line.product))
      else if p.currentStock < line.quantity then Err(InsufficientStock(line.product, p.currentStock))
      else if !ValidMovement(SaleMovement(line, SoldProduct(p, line, now), user)) then Err(SchemaViolation)
      else Ok(Advance(st, line, user, now))
  }

  /** The whole loop; the first failing line aborts it. */
  function SellLines(st: Pass, lines: seq<SaleLine>, user: UserId, now: Time): Result<Pass>
    decreases |lines|
  {
    if lines == [] then Ok(st)
    else
      match SellLine(st, lines[0], user, now)
      case Err(e) => Err(e)
      case Ok(next) => SellLines(next, lines[1..], user, now)
  }

  /** The two customer updates: `totalPurchases` grows by the total and
      `lastPurchase` is stamped; `currentCredit` grows by the total on a
      credit sale. An id with no customer document changes nothing. */
  function CreditCustomer(customers: map<CustomerId, Customer>, customer: Option<CustomerId>,
                          method_: PaymentMethod, total: int, now: Time): (r: map<CustomerId, Customer>)
    ensures r.Keys == customers.Keys
    ensures forall c :: c in customers && customer != Some(c) ==> r[c] == customers[c]
    ensures customer.Some? && customer.value in customers ==>
              var c0, c1 := customers[customer.value], r[customer.value];
              c1 == c0.(totalPurchases := c0.totalPurchases + total, lastPurchase := Some(now),
                        currentCredit := c0.currentCredit + (if method_ == Credit then total else 0))
  {
    if customer.Some? && customer.value in customers then
      var c := customers[customer.value];
      var c1 := c.(totalPurchases := c.totalPurchases + total, lastPurchase := Some(now));
      var c2 := if method_ == Credit then c1.(currentCredit := c1.currentCredit + total) else c1;
      customers[customer.value := c2]
    else customers
  }

  /** The sale document the route saves, before the hook numbers it. */
  function DraftSale(req: SaleRequest, user: UserId, now: Time, items: seq<SaleItem>, subtotal: int): Sale
    requires ValidRequest(req)
  {
    var total := subtotal - OrZero(req.discount) + OrZero(req.tax);
    Sale("", req.customer, user, items, Totals(subtotal, OrZero(req.discount), OrZero(req.tax), total),
         ParsePaymentMethod(req.paymentMethod).value, DefaultStatus, NoRefund, now)
  }

  /** The sale document once the hook has numbered it. */
  function BuildSale(s: State, req: SaleRequest, user: UserId, now: Time, items: seq<SaleItem>, subtotal: int): Sale
    requires ValidRequest(req)
  {
    AssignSaleNumber(DraftSale(req, user, now, items, subtotal), s.sales)
  }

  /** The store once the transaction commits. */
  function Committed(s: State, req: SaleRequest, done: Pass, sale: Sale, now: Time): State {
    State(done.products, s.sales + [sale], s.movements + done.moves,
          CreditCustomer(s.customers, req.customer, sale.paymentMethod, sale.totals.total, now))
  }

  /** The route as a whole: the new store and the new sale's id, or the
      error that aborted the transaction. */
  function CreateSaleSpec(s: State, req: SaleRequest, user: UserId, now: Time): Result<(State, SaleId)> {
    if !ValidRequest(req) then Err(ValidationFailed)
    else
      match SellLines(Pass(s.products, [], [], 0), req.items, user, now)
      case Err(e) => Err(e)
      case Ok(done) =>
        var sale := BuildSale(s, req, user, now, done.items, done.subtotal);
        if !ValidSale(sale) then Err(SchemaViolation)
        else Ok((Committed(s, req, done, sale, now), |s.sales|))
  }

  /** The loop over the requested lines inside the transaction: each line's
      product is read from the session, checked, saved with its stock
      lowered, and its movement and item are recorded. */
  method SellAll(products0: map<ProductId, Product>, lines: seq<SaleLine>, user: UserId, now: Time)
    returns (r: Result<Pass>)
    ensures r == SellLines(Pass(products0, [], [], 0), lines, user, now)
  {
    var products: map<ProductId, Product> := products0;
    var moves: seq<Movement> := [];
    var items: seq<SaleItem> := [];
    var subtotal := 0;
    var i := 0;
    while i < |lines|
      invariant 0 <= i <= |lines|
      invariant SellLines(Pass(products0, [], [], 0), lines, user, now)
                == SellLines(Pass(products, moves, items, subtotal), lines[i..], user, now)
    {
      var line := lines[i];
      assert lines[i..][0] == line && lines[i..][1..] == lines[i + 1..];
      if line.product !in products {
        return Err(ProductNotFound(line.product));
      }
      var product := products[line.product];
      if !product.isActive {
        return Err(ProductInactive(line.product));
      }
      if product.currentStock < line.quantity {
        return Err(InsufficientStock(line.product, product.currentStock));
      }
      var saved := PreSave(product, product.(currentStock := product.currentStock - line.quantity), now);
      var movement := Movement(line.product, SaleOut, -line.quantity, saved.currentStock + line.quantity,
                               saved.currentStock, Some(line.unitPrice), Some(line.unitPrice * line.quantity),
                               None, user, None, None);
      if !ValidMovement(movement) {
        return Err(SchemaViolation);
      }
      products := products[line.product := saved];
      moves := moves + [movement];
      var discount := OrZero(line.discount);
      var itemSubtotal := line.unitPrice * line.quantity - discount;
      subtotal := subtotal + itemSubtotal;
      items := items + [SaleItem(line.product, line.quantity, line.unitPrice, itemSubtotal, discount)];
      i := i + 1;
    }
    assert lines[i..] == [];
    r := Ok(Pass(products, moves, items, subtotal));
  }

  method CreateSale(db: Database, req: SaleRequest, user: UserId, now: Time) returns (r: Result<SaleId>)
    requires db.Valid()
    modifies db
    ensures db.Valid()
    ensures match CreateSaleSpec(old(db.Snapshot()), req, user, now)
            case Ok(res) => r == Ok(res.1) && db.Snapshot() == res.0
            case Err(e) => r == Err(e) && db.Snapshot() == old(db.Snapshot())
  {
    var s0 := db.Snapshot();
    if !ValidRequest(req) {
      return Err(ValidationFailed);
    }
    var pass := SellAll(db.products, req.items, user, now);
    if pass.Err? {
      return Err(pass.error);
    }
    var done := pass.value;
    var sale := BuildSale(s0, req, user, now, done.items, done.subtotal);
    if !ValidSale(sale) {
      return Err(SchemaViolation);
    }
    var customers := CreditCustomer(db.customers, req.customer, sale.paymentMethod, sale.totals.total, now);
    CreateSalePreservesValid(s0, req, user, now);
    db.Commit(State(done.products, db.sales + [sale], db.movements + done.moves, customers));
    r := Ok(|s0.sales|);
  }

  // ---------------------------------------------------------------------
  // What the loop computes.

  predicate PositiveQuantities(lines: seq<SaleLine>) {
    forall k :: 0 <= k < |lines| ==> lines[k].quantity >= 1
  }

  /** Every line names an active product, carries a non-negative price (the
      movement schema refuses a negative unit cost) and the product's stock
      covers everything the request asks of it. */
  ghost predicate LinesAvailable(products: map<ProductId, Product>, lines: seq<SaleLine>) {
    forall k :: 0 <= k < |lines| ==>
      && lines[k].product in products
      && products[lines[k].product].isActive
      && lines[k].unitPrice >= 0
      && Demand(lines, lines[k].product) <= products[lines[k].product].currentStock
  }

  lemma {:induction false} DemandNonNegative(lines: seq<SaleLine>, p: ProductId)
    requires PositiveQuantities(lines)
    ensures Demand(lines, p) >= 0
    decreases |lines|
  {
    if lines != [] {
      DemandNonNegative(lines[1..], p);
    }
  }

  lemma MovementCostValid(line: SaleLine, saved: Product, user: UserId)
    requires line.quantity >= 1
    ensures ValidMovement(SaleMovement(line, saved, user)) <==> line.unitPrice >= 0
  {
    if line.unitPrice >= 0 {
      assert line.unitPrice * line.quantity >= 0;
    }
  }

  /** No oversell: the loop gets through every line exactly when every line
      names an active product with a non-negative price and no product is
      asked for more than its stock, summed over all the lines naming it. */
  lemma {:induction false} SellLinesSucceedsIff(st: Pass, lines: seq<SaleLine>, user: UserId, now: Time)
    requires PositiveQuantities(lines)
    ensures SellLines(st, lines, user, now).Ok? <==> LinesAvailable(st.products, lines)
    decreases |lines|
  {
    if lines != [] {
      var x, rest := lines[0], lines[1..];
      assert PositiveQuantities(rest) by {
        forall k | 0 <= k < |rest| ensures rest[k].quantity >= 1 { assert rest[k] == lines[k + 1]; }
      }
      DemandNonNegative(rest, x.product);
      match SellLine(st, x, user, now)
      case Err(_) => {
        if LinesAvailable(st.products, lines) {
          assert x.product in st.products && Demand(lines, x.product) <= st.products[x.product].currentStock;
          MovementCostValid(x, SoldProduct(st.products[x.product], x, now), user);
          assert false;
        }
      }
      case Ok(next) => {
        SellLinesSucceedsIff(next, rest, user, now);
        AvailableAfterLine(st, lines, user, now);
      }
    }
  }

  /** A product no line names is not asked for. */
  lemma {:induction false} DemandAbsent(lines: seq<SaleLine>, p: ProductId)
    requires forall k :: 0 <= k < |lines| ==> lines[k].product != p
    ensures Demand(lines, p) == 0
    decreases |lines|
  {
    if lines != [] {
      DemandAbsent(lines[1..], p);
    }
  }

  lemma AvailableAfterLine(st: Pass, lines: seq<SaleLine>, user: UserId, now: Time)
    requires lines != [] && PositiveQuantities(lines)
    requires SellLine(st, lines[0], user, now).Ok?
    ensures LinesAvailable(Advance(st, lines[0], user, now).products, lines[1..]) <==> LinesAvailable(st.products, lines)
  {
    var x, rest := lines[0], lines[1..];
    var next := Advance(st, x, user, now);
    var p0 := x.product;
    assert next.products == st.products[p0 := next.products[p0]];
    assert next.products[p0].currentStock == st.products[p0].currentStock - x.quantity;
    assert next.products[p0].isActive == st.products[p0].isActive;
    MovementCostValid(x, next.products[p0], user);
    if LinesAvailable(next.products, rest) {
      forall k | 0 <= k < |lines|
        ensures lines[k].product in st.products && st.products[lines[k].product].isActive && lines[k].unitPrice >= 0
        ensures Demand(lines, lines[k].product) <= st.products[lines[k].product].currentStock
      {
        if k == 0 {
          if exists j :: 0 <= j < |rest| && rest[j].product == p0 {
            var j :| 0 <= j < |rest| && rest[j].product == p0;
            assert Demand(rest, p0) <= next.products[p0].currentStock;
          } else {
            DemandAbsent(rest, p0);
          }
        } else {
          assert lines[k] == rest[k - 1];
        }
      }
    }
    if LinesAvailable(st.products, lines) {
      forall j | 0 <= j < |rest|
        ensures rest[j].product in next.products && next.products[rest[j].product].isActive && rest[j].unitPrice >= 0
        ensures Demand(rest, rest[j].product) <= next.products[rest[j].product].currentStock
      {
        assert rest[j] == lines[j + 1];
      }
    }
  }

  /** Only `currentStock` and `lastStockUpdate` of a product differ. */
  predicate SameButStock(after: Product, before: Product) {
    after.(currentStock := before.currentStock, lastStockUpdate := before.lastStockUpdate) == before
  }

  /** Each product's stock falls by exactly the units the lines ask of it,
      and nothing else about the catalogue changes. */
  lemma {:induction false} SellLinesStock(st: Pass, lines: seq<SaleLine>, user: UserId, now: Time)
    requires SellLines(st, lines, user, now).Ok?
    ensures SellLines(st, lines, user, now).value.products.Keys == st.products.Keys
    ensures forall p :: p in st.products ==>
              && SellLines(st, lines, user, now).value.products[p].currentStock == st.products[p].currentStock - Demand(lines, p)
              && SameButStock(SellLines(st, lines, user, now).value.products[p], st.products[p])
    decreases |lines|
  {
    if lines != [] {
      var next := Advance(st, lines[0], user, now);
      SellLinesStock(next, lines[1..], user, now);
    }
  }

  /** The movement recorded for `line`: a `sale` of that product, quantity
      `-q`, priced at the line's unit price, by `user`. */
  predicate IsSaleMovementFor(m: Movement, line: SaleLine, user: UserId) {
    && m.product == line.product && m.kind == SaleOut && m.quantity == -line.quantity
    && m.unitCost == Some(line.unitPrice) && m.totalCost == Some(line.unitPrice * line.quantity)
    && m.reference.None? && m.user == user
  }

  /** The loop appends one `sale` movement per line, in line order. */
  lemma {:induction false} SellLinesMoves(st: Pass, lines: seq<SaleLine>, user: UserId, now: Time)
    requires SellLines(st, lines, user, now).Ok?
    ensures var done := SellLines(st, lines, user, now).value;
            && |done.moves| == |st.moves| + |lines|
            && done.moves[..|st.moves|] == st.moves
            && (forall k :: 0 <= k < |lines| ==> IsSaleMovementFor(done.moves[|st.moves| + k], lines[k], user))
    decreases |lines|
  {
    if lines != [] {
      var next := Advance(st, lines[0], user, now);
      SellLinesMoves(next, lines[1..], user, now);
      var done := SellLines(st, lines, user, now).value;
      assert done.moves[..|next.moves|][..|st.moves|] == done.moves[..|st.moves|];
      forall k | 0 <= k < |lines| ensures IsSaleMovementFor(done.moves[|st.moves| + k], lines[k], user) {
        if k == 0 {
          assert done.moves[|st.moves|] == done.moves[..|next.moves|][|st.moves|];
        } else {
          assert lines[k] == lines[1..][k - 1];
        }
      }
    }
  }

  /** The movements the loop appends replay from the stock before the sale
      to the stock after it. */
  lemma {:induction false} SellLinesReplay(st: Pass, lines: seq<SaleLine>, user: UserId, now: Time)
    requires SellLines(st, lines, user, now).Ok?
    ensures |SellLines(st, lines, user, now).value.moves| >= |st.moves|
    ensures var done := SellLines(st, lines, user, now).value;
            Replay(StockMap(st.products), done.moves[|st.moves|..]) == Some(StockMap(done.products))
    decreases |lines|
  {
    SellLinesMoves(st, lines, user, now);
    var done := SellLines(st, lines, user, now).value;
    if lines == [] {
      assert done.moves[|st.moves|..] == [];
    } else {
      var x := lines[0];
      SellLinesStep(st, lines, user, now);
      var next := Advance(st, x, user, now);
      SellLinesReplay(next, lines[1..], user, now);
      var m := next.moves[|st.moves|];
      SellLinesMoves(next, lines[1..], user, now);
      var rest := done.moves[|next.moves|..];
      assert done.moves[|st.moves|..] == [m] + rest;
      assert ([m] + rest)[0] == m && ([m] + rest)[1..] == rest;
      assert StockMap(st.products)[x.product := m.newStock] == StockMap(next.products);
    }
  }

  /** Unfolding the loop by one line that passes. */
  lemma SellLinesStep(st: Pass, lines: seq<SaleLine>, user: UserId, now: Time)
    requires lines != [] && SellLines(st, lines, user, now).Ok?
    ensures lines[0].product in st.products
    ensures SellLine(st, lines[0], user, now) == Ok(Advance(st, lines[0], user, now))
    ensures SellLines(st, lines, user, now) == SellLines(Advance(st, lines[0], user, now), lines[1..], user, now)
  {
  }

  /** The stored items split into the first line's item and the rest's. */
  lemma LineItemsFirst(done: seq<SaleItem>, lines: seq<SaleLine>)
    requires lines != []
    ensures (done + [LineItem(lines[0])]) + LineItems(lines[1..]) == done + LineItems(lines)
    ensures ItemsSubtotal(LineItems(lines)) == LineItem(lines[0]).subtotal + ItemsSubtotal(LineItems(lines[1..]))
  {
    var li := LineItems(lines);
    assert li == [LineItem(lines[0])] + LineItems(lines[1..]);
    assert li[1..] == LineItems(lines[1..]);
  }

  /** The loop's accumulators: the processed items are the requested lines
      in order, and the running subtotal is the sum of their subtotals. */
  lemma {:induction false} SellLinesRecord(st: Pass, lines: seq<SaleLine>, user: UserId, now: Time)
    requires SellLines(st, lines, user, now).Ok?
    ensures SellLines(st, lines, user, now).value.items == st.items + LineItems(lines)
    ensures SellLines(st, lines, user, now).value.subtotal == st.subtotal + ItemsSubtotal(LineItems(lines))
    decreases |lines|
  {
    if lines != [] {
      SellLinesStep(st, lines, user, now);
      var next := Advance(st, lines[0], user, now);
      SellLinesRecord(next, lines[1..], user, now);
      LineItemsFirst(st.items, lines);
    }
  }

  // ---------------------------------------------------------------------
  // Properties of the route.

  /** The sale the route would store for a valid request. */
  function ProposedSale(s: State, req: SaleRequest, user: UserId, now: Time): Sale
    requires ValidRequest(req)
  {
    BuildSale(s, req, user, now, LineItems(req.items), ItemsSubtotal(LineItems(req.items)))
  }

  /** For a request whose lines all pass, the spec commits the proposed sale
      exactly when that sale satisfies the schema. */
  lemma SpecAfterLines(s: State, req: SaleRequest, user: UserId, now: Time)
    requires ValidRequest(req) && SellLines(Pass(s.products, [], [], 0), req.items, user, now).Ok?
    ensures var done := SellLines(Pass(s.products, [], [], 0), req.items, user, now).value;
            var sale := ProposedSale(s, req, user, now);
            CreateSaleSpec(s, req, user, now)
            == if ValidSale(sale) then Ok((Committed(s, req, done, sale, now), |s.sales|)) else Err(SchemaViolation)
  {
    var st := Pass(s.products, [], [], 0);
    SellLinesRecord(st, req.items, user, now);
    var done := SellLines(st, req.items, user, now).value;
    assert [] + LineItems(req.items) == LineItems(req.items);
    assert done.items == LineItems(req.items) && done.subtotal == ItemsSubtotal(LineItems(req.items));
    assert BuildSale(s, req, user, now, done.items, done.subtotal) == ProposedSale(s, req, user, now);
  }

  /** The route commits exactly when the request passes its validators, the
      stock covers every product's total demand, every line names an active
      product at a non-negative price, and the sale it builds satisfies the
      sale schema. */
  lemma CreateSaleSucceedsIff(s: State, req: SaleRequest, user: UserId, now: Time)
    ensures CreateSaleSpec(s, req, user, now).Ok? <==>
            ValidRequest(req) && LinesAvailable(s.products, req.items) && ValidSale(ProposedSale(s, req, user, now))
  {
    if ValidRequest(req) {
      var st := Pass(s.products, [], [], 0);
      SellLinesSucceedsIff(st, req.items, user, now);
      if SellLines(st, req.items, user, now).Ok? {
        SpecAfterLines(s, req, user, now);
      }
    }
  }

  /** A committed sale is appended as the next sale of the store. */
  lemma CreateSaleAppends(s: State, req: SaleRequest, user: UserId, now: Time)
    requires CreateSaleSpec(s, req, user, now).Ok?
    ensures ValidRequest(req)
    ensures CreateSaleSpec(s, req, user, now).value.1 == |s.sales|
    ensures CreateSaleSpec(s, req, user, now).value.0.sales == s.sales + [ProposedSale(s, req, user, now)]
  {
    SpecAfterLines(s, req, user, now);
  }

  /** The sale a request proposes: numbered by the hook after the latest
      sale, status `completed`, not refunded, holding the requested lines
      (each subtotal `unitPrice * quantity - discount`), with subtotal the
      sum of the line subtotals and `total = subtotal - discount + tax`. */
  lemma ProposedSaleRecord(s: State, req: SaleRequest, user: UserId, now: Time)
    requires ValidRequest(req)
    ensures var sale := ProposedSale(s, req, user, now);
            && sale.saleNumber == FormatSaleNumber(NextCounter(s.sales))
            && sale.status == Completed && !sale.refund.isRefunded
            && sale.customer == req.customer && sale.cashier == user && sale.createdAt == now
            && |sale.items| == |req.items|
            && (forall k :: 0 <= k < |req.items| ==>
                  && sale.items[k].product == req.items[k].product
                  && sale.items[k].quantity == req.items[k].quantity
                  && sale.items[k].subtotal == req.items[k].unitPrice * req.items[k].quantity - OrZero(req.items[k].discount))
            && sale.totals.subtotal == ItemsSubtotal(sale.items)
            && sale.totals.discount == OrZero(req.discount) && sale.totals.tax == OrZero(req.tax)
            && sale.totals.total == sale.totals.subtotal - sale.totals.discount + sale.totals.tax
  {
  }

  /** On commit every product's stock has fallen by the units the request
      asked of it, and the rest of the catalogue is as it was. */
  lemma CreateSaleStock(s: State, req: SaleRequest, user: UserId, now: Time)
    requires CreateSaleSpec(s, req, user, now).Ok?
    ensures var s1 := CreateSaleSpec(s, req, user, now).value.0;
            && s1.products.Keys == s.products.Keys
            && (forall p :: p in s.products ==>
                  s1.products[p].currentStock == s.products[p].currentStock - Demand(req.items, p)
                  && SameButStock(s1.products[p], s.products[p]))
  {
    SpecAfterLines(s, req, user, now);
    SellLinesStock(Pass(s.products, [], [], 0), req.items, user, now);
  }

  /** On commit the ledger has grown by one `sale` movement per line, in
      line order, and the new entries replay from the old stock to the new. */
  lemma CreateSaleLedger(s: State, req: SaleRequest, user: UserId, now: Time)
    requires CreateSaleSpec(s, req, user, now).Ok?
    ensures var s1 := CreateSaleSpec(s, req, user, now).value.0;
            && |s1.movements| == |s.movements| + |req.items|
            && s1.movements[..|s.movements|] == s.movements
            && (forall k :: 0 <= k < |req.items| ==> IsSaleMovementFor(s1.movements[|s.movements| + k], req.items[k], user))
            && Replay(StockMap(s.products), s1.movements[|s.movements|..]) == Some(StockMap(s1.products))
  {
    var st := Pass(s.products, [], [], 0);
    SpecAfterLines(s, req, user, now);
    SellLinesMoves(st, req.items, user, now);
    SellLinesReplay(st, req.items, user, now);
    var done := SellLines(st, req.items, user, now).value;
    var s1 := CreateSaleSpec(s, req, user, now).value.0;
    assert s1.movements == s.movements + done.moves;
    assert s1.movements[|s.movements|..] == done.moves;
    assert done.moves[|st.moves|..] == done.moves;
  }

  /** On commit the named customer's `totalPurchases` grows by the total and
      its `currentCredit` by the total exactly on a credit sale; no other
      customer changes. */
  lemma CreateSaleCustomer(s: State, req: SaleRequest, user: UserId, now: Time)
    requires CreateSaleSpec(s, req, user, now).Ok?
    ensures ValidRequest(req)
    ensures var s1 := CreateSaleSpec(s, req, user, now).value.0;
            var sale := ProposedSale(s, req, user, now);
            && s1.customers.Keys == s.customers.Keys
            && (forall c :: c in s.customers && req.customer != Some(c) ==> s1.customers[c] == s.customers[c])
            && (req.customer.Some? && req.customer.value in s.customers ==>
                  var c0, c1 := s.customers[req.customer.value], s1.customers[req.customer.value];
                  && c1.totalPurchases == c0.totalPurchases + sale.totals.total
                  && c1.currentCredit == c0.currentCredit + (if sale.paymentMethod == Credit then sale.totals.total else 0)
                  && c1.lastPurchase == Some(now) && c1.creditLimit == c0.creditLimit)
  {
    SpecAfterLines(s, req, user, now);
  }

  /** Every product's total demand is covered by its stock. */
  lemma DemandCovered(products: map<ProductId, Product>, lines: seq<SaleLine>, p: ProductId)
    requires LinesAvailable(products, lines) && PositiveQuantities(lines)
    requires p in products && products[p].currentStock >= 0
    ensures 0 <= Demand(lines, p) <= products[p].currentStock
  {
    DemandNonNegative(lines, p);
    if exists k :: 0 <= k < |lines| && lines[k].product == p {
      var k :| 0 <= k < |lines| && lines[k].product == p;
    } else {
      DemandAbsent(lines, p);
    }
  }

  lemma SoldCatalogueValid(s: State, req: SaleRequest, user: UserId, now: Time)
    requires ValidState(s) && CreateSaleSpec(s, req, user, now).Ok?
    ensures var s1 := CreateSaleSpec(s, req, user, now).value.0;
            forall p :: p in s1.products ==> ValidProduct(s1.products[p])
  {
    CreateSaleStock(s, req, user, now);
    CreateSaleSucceedsIff(s, req, user, now);
    var s1 := CreateSaleSpec(s, req, user, now).value.0;
    forall p | p in s1.products ensures ValidProduct(s1.products[p]) {
      assert ValidProduct(s.products[p]);
      DemandCovered(s.products, req.items, p);
      assert s1.products[p].sku == s.products[p].sku;
    }
  }

  /** A `sale` movement for a line with a non-negative price satisfies the
      movement schema. */
  lemma SaleMovementValid(m: Movement, line: SaleLine, user: UserId)
    requires IsSaleMovementFor(m, line, user) && line.unitPrice >= 0 && line.quantity >= 1
    ensures ValidMovement(m)
  {
    assert line.unitPrice * line.quantity >= 0;
  }

  lemma SoldMovementsValid(s: State, req: SaleRequest, user: UserId, now: Time)
    requires ValidState(s) && CreateSaleSpec(s, req, user, now).Ok?
    ensures var s1 := CreateSaleSpec(s, req, user, now).value.0;
            forall k :: 0 <= k < |s1.movements| ==> ValidMovement(s1.movements[k])
  {
    CreateSaleLedger(s, req, user, now);
    CreateSaleSucceedsIff(s, req, user, now);
    var s1 := CreateSaleSpec(s, req, user, now).value.0;
    var n := |s.movements|;
    forall k | 0 <= k < |s1.movements| ensures ValidMovement(s1.movements[k]) {
      if k >= n {
        var j := k - n;
        SaleMovementValid(s1.movements[n + j], req.items[j], user);
      } else {
        assert s1.movements[k] == s1.movements[..n][k];
      }
    }
  }

  /** A committed sale leaves every stored document within its schema. */
  lemma CreateSalePreservesValid(s: State, req: SaleRequest, user: UserId, now: Time)
    requires ValidState(s) && CreateSaleSpec(s, req, user, now).Ok?
    ensures ValidState(CreateSaleSpec(s, req, user, now).value.0)
  {
    SoldCatalogueValid(s, req, user, now);
    SoldMovementsValid(s, req, user, now);
    CreateSaleAppends(s, req, user, now);
    CreateSaleSucceedsIff(s, req, user, now);
    var s1 := CreateSaleSpec(s, req, user, now).value.0;
    forall k | 0 <= k < |s1.sales| ensures ValidSale(s1.sales[k]) {
      if k < |s.sales| { assert s1.sales[k] == s.sales[k]; }
    }
  }

  /** The stock example: a product with 2 units cannot be sold 3 at a time;
      the request fails with the available quantity and nothing is stored. */
  lemma InsufficientStockExample(s: State, id: ProductId, user: UserId, now: Time)
    requires id in s.products && s.products[id].isActive && s.products[id].currentStock == 2
    ensures CreateSaleSpec(s, SaleRequest([SaleLine(id, 3, 1000, None)], None, "cash", None, None), user, now)
            == Err(InsufficientStock(id, 2))
  {
  }

  /** A sale never lifts a product out of low stock: its stock only falls
      and its `minStock` is left as it was. */
  lemma CreateSaleKeepsLowStock(s: State, req: SaleRequest, user: UserId, now: Time, p: ProductId)
    requires CreateSaleSpec(s, req, user, now).Ok?
    requires p in s.products && IsLowStock(s.products[p])
    ensures var s1 := CreateSaleSpec(s, req, user, now).value.0;
            p in s1.products && IsLowStock(s1.products[p])
  {
    CreateSaleAppends(s, req, user, now);
    CreateSaleStock(s, req, user, now);
    DemandNonNegative(req.items, p);
  }

  /** A committed sale lowers its customer's `availableCredit` by the sale's
      total on a credit sale and leaves it on any other; the route does not
      compare the total with the credit limit, so the available credit can
      become negative. */
  lemma CreateSaleAvailableCredit(s: State, req: SaleRequest, user: UserId, now: Time)
    requires CreateSaleSpec(s, req, user, now).Ok?
    requires req.customer.Some? && req.customer.value in s.customers
    ensures ValidRequest(req)
    ensures var s1 := CreateSaleSpec(s, req, user, now).value.0;
            var sale := ProposedSale(s, req, user, now);
            && req.customer.value in s1.customers
            && AvailableCredit(s1.customers[req.customer.value])
               == AvailableCredit(s.customers[req.customer.value])
                  - (if sale.paymentMethod == Credit then sale.totals.total else 0)
  {
    CreateSaleCustomer(s, req, user, now);
  }

  /** A store whose sales carry V-000001, V-000002, ... in order still does
      after a committed sale: the hook gives the new sale the next number. */
  lemma CreateSaleKeepsNumbering(s: State, req: SaleRequest, user: UserId, now: Time)
    requires CreateSaleSpec(s, req, user, now).Ok? && NumberedInOrder(s.sales)
    ensures NumberedInOrder(CreateSaleSpec(s, req, user, now).value.0.sales)
  {
    CreateSaleAppends(s, req, user, now);
    var items := LineItems(req.items);
    NumberingStaysSequential(s.sales, DraftSale(req, user, now, items, ItemsSubtotal(items)));
  }

  /** As written, the document library validates the sale before the
      numbering hook runs, so the draft the route saves is refused for every
      request and every store: no sale is ever created. */
  lemma CreateSaleRefusedAsWritten(s: State, req: SaleRequest, user: UserId, now: Time)
    requires ValidRequest(req)
    ensures var items := LineItems(req.items);
            SaveValidatingFirst(DraftSale(req, user, now, items, ItemsSubtotal(items)), s.sales) == None
  {
    var items := LineItems(req.items);
    UnnumberedRefusedAsWritten(DraftSale(req, user, now, items, ItemsSubtotal(items)), s.sales);
  }
}
