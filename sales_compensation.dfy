/** `PUT /api/sales/:id/cancel` and `POST /api/sales/:id/refund` of
    backend/routes/sales.js: both put sold units back on the shelf, one
    `return` movement per restocked line with a reference to the sale, and
    change the sale's status; a cancelled credit sale also gives the
    customer's credit back. */
module SalesCompensation {
  import opened Common
  import opened Products
  import opened Movements
  import opened SaleModel
  import opened Ledger
  import SalesRoutes

  /** A line to put back: a product and a number of units. A refund
      request's `items` entries have this shape. */
  datatype ReturnLine = ReturnLine(product: ProductId, quantity: int)

  /** The working state of a restocking loop: the products as the session
      sees them and the movements written so far. */
  datatype Restock = Restock(products: map<ProductId, Product>, moves: seq<Movement>)

  /** The reference the return movements carry. */
  function SaleReference(id: SaleId, sale: Sale): Reference {
    Reference(SaleDocument, id, sale.saleNumber)
  }

  function ReturnMovement(line: ReturnLine, saved: Product, doc: Reference, user: UserId): Movement {
    Movement(line.product, Return, line.quantity, saved.currentStock - line.quantity, saved.currentStock,
             None, None, Some(doc), user, None, None)
  }

  function Returned(p: Product, line: ReturnLine, now: Time): Product {
    PreSave(p, p.(currentStock := p.currentStock + line.quantity), now)
  }

  /** One line: a product that no longer exists is skipped; otherwise its
      stock grows by the line's quantity and the product is saved, which
      runs the product schema's validators. */
  function RestockLine(st: Restock, line: ReturnLine, doc: Reference, user: UserId, now: Time): Result<Restock> {
    if line.product !in st.products then Ok(st)
    else
      var saved := Returned(st.products[line.product], line, now);
      if !ValidProduct(saved) then Err(SchemaViolation)
      else Ok(Restock(st.products[line.product := saved], st.moves + [ReturnMovement(line, saved, doc, user)]))
  }

  function RestockAll(st: Restock, lines: seq<ReturnLine>, doc: Reference, user: UserId, now: Time): Result<Restock>
    decreases |lines|
  {
    if lines == [] then Ok(st)
    else
      match RestockLine(st, lines[0], doc, user, now)
      case Err(e) => Err(e)
      case Ok(next) => RestockAll(next, lines[1..], doc, user, now)
  }

  /** The lines a cancellation puts back: every item of the sale. */
  function ItemReturns(items: seq<SaleItem>): (lines: seq<ReturnLine>)
    ensures |lines| == |items|
    ensures forall k :: 0 <= k < |items| ==> lines[k] == ReturnLine(items[k].product, items[k].quantity)
    decreases |items|
  {
    if items == [] then []
    else
      var rest := ItemReturns(items[1..]);
      assert forall k :: 1 <= k < |items| ==> items[k] == items[1..][k - 1];
      [ReturnLine(items[0].product, items[0].quantity)] + rest
  }

  /** Units of `p` over the lines. */
  function ReturnedQuantity(lines: seq<ReturnLine>, p: ProductId): int {
    if lines == [] then 0 else (if lines[0].product == p then lines[0].quantity else 0) + ReturnedQuantity(lines[1..], p)
  }

  /** The number of lines naming one of `present`. */
  function PresentCount(lines: seq<ReturnLine>, present: set<ProductId>): nat {
    if lines == [] then 0 else (if lines[0].product in present then 1 else 0) + PresentCount(lines[1..], present)
  }

  // ---------------------------------------------------------------------
  // Cancellation.

  /** The credit reversal: only for a credit sale with a customer, and then
      both `currentCredit` and `totalPurchases` fall by the total. A missing
      customer document changes nothing. */
  function ReverseCredit(customers: map<CustomerId, Customer>, sale: Sale): (r: map<CustomerId, Customer>)
    ensures r.Keys == customers.Keys
    ensures forall c :: c in customers && (sale.customer != Some(c) || sale.paymentMethod != Credit) ==>
              r[c] == customers[c]
    ensures sale.customer.Some? && sale.paymentMethod == Credit && sale.customer.value in customers ==>
              var c0 := customers[sale.customer.value];
              r[sale.customer.value] == c0.(currentCredit := c0.currentCredit - sale.totals.total,
                                            totalPurchases := c0.totalPurchases - sale.totals.total)
  {
    if sale.customer.Some? && sale.paymentMethod == Credit && sale.customer.value in customers then
      var c := customers[sale.customer.value];
      customers[sale.customer.value := c.(currentCredit := c.currentCredit - sale.totals.total,
                                          totalPurchases := c.totalPurchases - sale.totals.total)]
    else customers
  }

  function CancelSpec(s: State, id: SaleId, user: UserId, now: Time): Result<State> {
    if id >= |s.sales| then Err(SaleNotFound(id))
    else
      var sale := s.sales[id];
      if sale.status != Completed then Err(NotCompleted)
      else
        match RestockAll(Restock(s.products, []), ItemReturns(sale.items), SaleReference(id, sale), user, now)
        case Err(e) => Err(e)
        case Ok(done) =>
          Ok(State(done.products, s.sales[id := sale.(status := Cancelled)], s.movements + done.moves,
                   ReverseCredit(s.customers, sale)))
  }

  /** The loop over the sale's items. */
  method ReturnSaleItems(products0: map<ProductId, Product>, items: seq<SaleItem>, doc: Reference, user: UserId, now: Time)
    returns (r: Result<Restock>)
    ensures r == RestockAll(Restock(products0, []), ItemReturns(items), doc, user, now)
  {
    var products: map<ProductId, Product> := products0;
    var moves: seq<Movement> := [];
    var i := 0;
    while i < |items|
      invariant 0 <= i <= |items|
      invariant RestockAll(Restock(products0, []), ItemReturns(items), doc, user, now)
                == RestockAll(Restock(products, moves), ItemReturns(items[i..]), doc, user, now)
    {
      var item := items[i];
      assert items[i..][0] == item && items[i..][1..] == items[i + 1..];
      if item.product in products {
        var product := products[item.product];
        var saved := PreSave(product, product.(currentStock := product.currentStock + item.quantity), now);
        if !ValidProduct(saved) {
          return Err(SchemaViolation);
        }
        products := products[item.product := saved];
        moves := moves + [Movement(item.product, Return, item.quantity, saved.currentStock - item.quantity,
                                   saved.currentStock, None, None, Some(doc), user, None, None)];
      }
      i := i + 1;
    }
    assert items[i..] == [];
    r := Ok(Restock(products, moves));
  }

  method Cancel(db: Database, id: SaleId, user: UserId, now: Time) returns (r: Result<SaleId>)
    requires db.Valid()
    modifies db
    ensures db.Valid()
    ensures match CancelSpec(old(db.Snapshot()), id, user, now)
            case Ok(s1) => r == Ok(id) && db.Snapshot() == s1
            case Err(e) => r == Err(e) && db.Snapshot() == old(db.Snapshot())
  {
    var s0 := db.Snapshot();
    if id >= |db.sales| {
      return Err(SaleNotFound(id));
    }
    var sale := db.sales[id];
    if sale.status != Completed {
      return Err(NotCompleted);
    }
    var pass := ReturnSaleItems(db.products, sale.items, SaleReference(id, sale), user, now);
    if pass.Err? {
      return Err(pass.error);
    }
    var customers := ReverseCredit(db.customers, sale);
    CancelPreservesValid(s0, id, user, now);
    db.Commit(State(pass.value.products, db.sales[id := sale.(status := Cancelled)], db.movements + pass.value.moves,
                    customers));
    r := Ok(id);
  }

  // ---------------------------------------------------------------------
  // Refund.

  /** The request body: `refundAmount`, `refundReason` and the optional
      `items` of a partial refund (absent and empty mean the same). */
  datatype RefundRequest = RefundRequest(refundAmount: Option<int>, refundReason: Option<string>, items: seq<ReturnLine>)

  /** `Array.prototype.find`: the first item of the sale for the product. */
  function FirstItem(items: seq<SaleItem>, p: ProductId): (r: Option<SaleItem>)
    ensures r.Some? ==> r.value.product == p
  {
    if items == [] then None else if items[0].product == p then Some(items[0]) else FirstItem(items[1..], p)
  }

  /** The checks on one refund line; they read only the sale. */
  function RefundCheck(items: seq<SaleItem>, line: ReturnLine): Option<Error> {
    match FirstItem(items, line.product)
    case None => Some(NotInSale(line.product))
    case Some(it) => if line.quantity > it.quantity then Some(RefundExceedsSale(line.product)) else None
  }

  /** The loop over the refund lines: each is checked against the sale, then
      restocked; the first failure aborts the transaction. */
  function RefundLines(st: Restock, items: seq<SaleItem>, lines: seq<ReturnLine>, doc: Reference, user: UserId, now: Time)
    : Result<Restock>
    decreases |lines|
  {
    if lines == [] then Ok(st)
    else
      match RefundCheck(items, lines[0])
      case Some(e) => Err(e)
      case None =>
        match RestockLine(st, lines[0], doc, user, now)
        case Err(e) => Err(e)
        case Ok(next) => RefundLines(next, items, lines[1..], doc, user, now)
  }

  /** `refundAmount || sale.totals.total`: a missing or zero amount means the
      whole total. */
  function RefundAmount(requested: Option<int>, total: int): (a: int)
    ensures requested.Some? && requested.value != 0 ==> a == requested.value
    ensures requested.None? || requested == Some(0) ==> a == total
  {
    if requested.Some? && requested.value != 0 then requested.value else total
  }

  function RefundSpec(s: State, id: SaleId, req: RefundRequest, user: UserId, now: Time): Result<State> {
    if id >= |s.sales| then Err(SaleNotFound(id))
    else
      var sale := s.sales[id];
      if sale.status != Completed then Err(NotCompleted)
      else if sale.refund.isRefunded then Err(AlreadyRefunded)
      else
        match RefundLines(Restock(s.products, []), sale.items, req.items, SaleReference(id, sale), user, now)
        case Err(e) => Err(e)
        case Ok(done) =>
          var record := Refund(true, Some(now), Some(RefundAmount(req.refundAmount, sale.totals.total)),
                               req.refundReason, Some(user));
          Ok(State(done.products, s.sales[id := sale.(refund := record, status := Refunded)],
                   s.movements + done.moves, s.customers))
  }

  method ReturnRefundItems(products0: map<ProductId, Product>, items: seq<SaleItem>, lines: seq<ReturnLine>,
                           doc: Reference, user: UserId, now: Time)
    returns (r: Result<Restock>)
    ensures r == RefundLines(Restock(products0, []), items, lines, doc, user, now)
  {
    var products: map<ProductId, Product> := products0;
    var moves: seq<Movement> := [];
    var i := 0;
    while i < |lines|
      invariant 0 <= i <= |lines|
      invariant RefundLines(Restock(products0, []), items, lines, doc, user, now)
                == RefundLines(Restock(products, moves), items, lines[i..], doc, user, now)
    {
      var line := lines[i];
      assert lines[i..][0] == line && lines[i..][1..] == lines[i + 1..];
      var found := FirstItem(items, line.product);
      if found.None? {
        return Err(NotInSale(line.product));
      }
      if line.quantity > found.value.quantity {
        return Err(RefundExceedsSale(line.product));
      }
      if line.product in products {
        var product := products[line.product];
        var saved := PreSave(product, product.(currentStock := product.currentStock + line.quantity), now);
        if !ValidProduct(saved) {
          return Err(SchemaViolation);
        }
        products := products[line.product := saved];
        moves := moves + [Movement(line.product, Return, line.quantity, saved.currentStock - line.quantity,
                                   saved.currentStock, None, None, Some(doc), user, None, None)];
      }
      i := i + 1;
    }
    assert lines[i..] == [];
    r := Ok(Restock(products, moves));
  }

  method ProcessRefund(db: Database, id: SaleId, req: RefundRequest, user: UserId, now: Time) returns (r: Result<SaleId>)
    requires db.Valid()
    modifies db
    ensures db.Valid()
    ensures match RefundSpec(old(db.Snapshot()), id, req, user, now)
            case Ok(s1) => r == Ok(id) && db.Snapshot() == s1
            case Err(e) => r == Err(e) && db.Snapshot() == old(db.Snapshot())
  {
    var s0 := db.Snapshot();
    if id >= |db.sales| {
      return Err(SaleNotFound(id));
    }
    var sale := db.sales[id];
    if sale.status != Completed {
      return Err(NotCompleted);
    }
    if sale.refund.isRefunded {
      return Err(AlreadyRefunded);
    }
    var pass := ReturnRefundItems(db.products, sale.items, req.items, SaleReference(id, sale), user, now);
    if pass.Err? {
      return Err(pass.error);
    }
    var amount := if req.refundAmount.Some? && req.refundAmount.value != 0 then req.refundAmount.value
                  else sale.totals.total;
    var record := Refund(true, Some(now), Some(amount), req.refundReason, Some(user));
    RefundPreservesValid(s0, id, req, user, now);
    db.Commit(State(pass.value.products, db.sales[id := sale.(refund := record, status := Refunded)],
                    db.movements + pass.value.moves, db.customers));
    r := Ok(id);
  }

  // ---------------------------------------------------------------------
  // What the restocking loop computes.

  lemma RestockAllStep(st: Restock, lines: seq<ReturnLine>, doc: Reference, user: UserId, now: Time)
    requires lines != [] && RestockAll(st, lines, doc, user, now).Ok?
    ensures RestockLine(st, lines[0], doc, user, now).Ok?
    ensures RestockAll(st, lines, doc, user, now) == RestockAll(RestockLine(st, lines[0], doc, user, now).value, lines[1..], doc, user, now)
  {
  }

  /** A restocked product differs from the stored one only in its stock and
      its stock timestamp, so it passes the schema exactly when its new stock
      is not negative. */
  lemma ReturnedValid(p: Product, line: ReturnLine, now: Time)
    requires ValidProduct(p)
    ensures ValidProduct(Returned(p, line, now)) <==> p.currentStock + line.quantity >= 0
  {
    var r := Returned(p, line, now);
    assert r.sku == p.sku && r.name == p.name && r.minStock == p.minStock;
  }

  predicate NonNegativeLines(lines: seq<ReturnLine>) {
    forall k :: 0 <= k < |lines| ==> lines[k].quantity >= 0
  }

  /** Putting back non-negative quantities into a valid catalogue never
      trips the product schema. */
  lemma {:induction false} RestockAllNonNegative(st: Restock, lines: seq<ReturnLine>, doc: Reference, user: UserId, now: Time)
    requires forall p :: p in st.products ==> ValidProduct(st.products[p])
    requires NonNegativeLines(lines)
    ensures RestockAll(st, lines, doc, user, now).Ok?
    ensures forall p :: p in RestockAll(st, lines, doc, user, now).value.products ==>
              ValidProduct(RestockAll(st, lines, doc, user, now).value.products[p])
    decreases |lines|
  {
    if lines != [] {
      var x := lines[0];
      if x.product in st.products {
        ReturnedValid(st.products[x.product], x, now);
      }
      var next := RestockLine(st, x, doc, user, now).value;
      assert NonNegativeLines(lines[1..]) by {
        forall k | 0 <= k < |lines[1..]| ensures lines[1..][k].quantity >= 0 { assert lines[1..][k] == lines[k + 1]; }
      }
      RestockAllNonNegative(next, lines[1..], doc, user, now);
    }
  }

  /** Each product that still exists gains exactly the units the lines name
      for it, and nothing else about the catalogue changes. */
  lemma {:induction false} RestockAllStock(st: Restock, lines: seq<ReturnLine>, doc: Reference, user: UserId, now: Time)
    requires RestockAll(st, lines, doc, user, now).Ok?
    ensures RestockAll(st, lines, doc, user, now).value.products.Keys == st.products.Keys
    ensures forall p :: p in st.products ==>
              && RestockAll(st, lines, doc, user, now).value.products[p].currentStock == st.products[p].currentStock + ReturnedQuantity(lines, p)
              && SalesRoutes.SameButStock(RestockAll(st, lines, doc, user, now).value.products[p], st.products[p])
    decreases |lines|
  {
    if lines != [] {
      RestockAllStep(st, lines, doc, user, now);
      RestockAllStock(RestockLine(st, lines[0], doc, user, now).value, lines[1..], doc, user, now);
    }
  }

  predicate IsReturnMovement(m: Movement, doc: Reference, user: UserId) {
    m.kind == Return && m.reference == Some(doc) && m.user == user && m.unitCost.None? && m.totalCost.None?
  }

  /** One `return` movement per line whose product exists, each carrying the
      sale's reference, appended after the earlier ones. */
  lemma {:induction false} RestockAllMoves(st: Restock, lines: seq<ReturnLine>, doc: Reference, user: UserId, now: Time)
    requires RestockAll(st, lines, doc, user, now).Ok?
    ensures var done := RestockAll(st, lines, doc, user, now).value;
            && |done.moves| == |st.moves| + PresentCount(lines, st.products.Keys)
            && done.moves[..|st.moves|] == st.moves
            && (forall k :: |st.moves| <= k < |done.moves| ==>
                  IsReturnMovement(done.moves[k], doc, user) && done.moves[k].product in st.products)
    decreases |lines|
  {
    if lines != [] {
      RestockAllStep(st, lines, doc, user, now);
      var next := RestockLine(st, lines[0], doc, user, now).value;
      RestockAllMoves(next, lines[1..], doc, user, now);
      var done := RestockAll(st, lines, doc, user, now).value;
      assert next.products.Keys == st.products.Keys;
      assert done.moves[..|next.moves|][..|st.moves|] == done.moves[..|st.moves|];
      forall k | |st.moves| <= k < |done.moves|
        ensures IsReturnMovement(done.moves[k], doc, user) && done.moves[k].product in st.products
      {
        if k < |next.moves| {
          assert done.moves[k] == done.moves[..|next.moves|][k];
        }
      }
    }
  }

  /** The appended movements replay from the stock before to the stock after. */
  lemma {:induction false} RestockAllReplay(st: Restock, lines: seq<ReturnLine>, doc: Reference, user: UserId, now: Time)
    requires RestockAll(st, lines, doc, user, now).Ok?
    ensures |RestockAll(st, lines, doc, user, now).value.moves| >= |st.moves|
    ensures var done := RestockAll(st, lines, doc, user, now).value;
            Replay(StockMap(st.products), done.moves[|st.moves|..]) == Some(StockMap(done.products))
    decreases |lines|
  {
    RestockAllMoves(st, lines, doc, user, now);
    var done := RestockAll(st, lines, doc, user, now).value;
    if lines == [] {
      assert done.moves[|st.moves|..] == [];
    } else {
      RestockAllStep(st, lines, doc, user, now);
      var x := lines[0];
      var next := RestockLine(st, x, doc, user, now).value;
      RestockAllReplay(next, lines[1..], doc, user, now);
      RestockAllMoves(next, lines[1..], doc, user, now);
      if x.product in st.products {
        var m := next.moves[|st.moves|];
        assert done.moves[|st.moves|..] == [m] + done.moves[|next.moves|..];
        assert StockMap(st.products)[x.product := m.newStock] == StockMap(next.products);
      } else {
        assert next == st;
      }
    }
  }

  /** The lines of a sale name each product for as many units as the sale. */
  lemma {:induction false} ItemReturnsQuantity(items: seq<SaleItem>, p: ProductId)
    ensures ReturnedQuantity(ItemReturns(items), p) == SoldQuantity(items, p)
    decreases |items|
  {
    if items != [] {
      ItemReturnsQuantity(items[1..], p);
      assert ItemReturns(items)[1..] == ItemReturns(items[1..]);
    }
  }

  lemma ItemReturnsPositive(items: seq<SaleItem>)
    requires forall k :: 0 <= k < |items| ==> ValidItem(items[k])
    ensures NonNegativeLines(ItemReturns(items))
  {
  }

  // ---------------------------------------------------------------------
  // Properties of cancellation.

  /** In a consistent store a cancellation fails only for a missing sale or
      one that is not `completed`; restocking cannot fail. */
  lemma CancelSucceedsIff(s: State, id: SaleId, user: UserId, now: Time)
    requires ValidState(s)
    ensures CancelSpec(s, id, user, now).Ok? <==> id < |s.sales| && s.sales[id].status == Completed
  {
    if id < |s.sales| && s.sales[id].status == Completed {
      ItemReturnsPositive(s.sales[id].items);
      RestockAllNonNegative(Restock(s.products, []), ItemReturns(s.sales[id].items), SaleReference(id, s.sales[id]), user, now);
    }
  }

  /** A cancellation puts back every unit the sale took, on each product
      that still exists; nothing else about the catalogue changes. */
  lemma CancelStock(s: State, id: SaleId, user: UserId, now: Time)
    requires CancelSpec(s, id, user, now).Ok?
    ensures id < |s.sales|
    ensures var s1 := CancelSpec(s, id, user, now).value;
            && s1.products.Keys == s.products.Keys
            && (forall p :: p in s.products ==>
                  s1.products[p].currentStock == s.products[p].currentStock + SoldQuantity(s.sales[id].items, p)
                  && SalesRoutes.SameButStock(s1.products[p], s.products[p]))
  {
    var sale := s.sales[id];
    RestockAllStock(Restock(s.products, []), ItemReturns(sale.items), SaleReference(id, sale), user, now);
    forall p | p in s.products { ItemReturnsQuantity(sale.items, p); }
  }

  /** A sale's items name each product for a non-negative number of units. */
  lemma {:induction false} SoldQuantityNonNegative(items: seq<SaleItem>, p: ProductId)
    requires forall k :: 0 <= k < |items| ==> ValidItem(items[k])
    ensures SoldQuantity(items, p) >= 0
    decreases |items|
  {
    if items != [] {
      assert ValidItem(items[0]);
      assert forall k :: 0 <= k < |items| - 1 ==> items[1..][k] == items[k + 1];
      SoldQuantityNonNegative(items[1..], p);
    }
  }

  /** Putting a stored sale's units back never makes a product low on
      stock: its stock only rises and its `minStock` is left as it was. */
  lemma CancelKeepsStocked(s: State, id: SaleId, user: UserId, now: Time, p: ProductId)
    requires ValidState(s) && CancelSpec(s, id, user, now).Ok?
    requires p in s.products && !IsLowStock(s.products[p])
    ensures var s1 := CancelSpec(s, id, user, now).value;
            p in s1.products && !IsLowStock(s1.products[p])
  {
    CancelStock(s, id, user, now);
    assert ValidSale(s.sales[id]);
    SoldQuantityNonNegative(s.sales[id].items, p);
  }

  /** A cancellation applies only to a `completed` sale and marks it
      `cancelled`; every other sale is untouched. */
  lemma CancelStatus(s: State, id: SaleId, user: UserId, now: Time)
    requires CancelSpec(s, id, user, now).Ok?
    ensures var s1 := CancelSpec(s, id, user, now).value;
            && id < |s.sales| && s.sales[id].status == Completed
            && |s1.sales| == |s.sales|
            && s1.sales[id] == s.sales[id].(status := Cancelled)
            && (forall k :: 0 <= k < |s.sales| && k != id ==> s1.sales[k] == s.sales[k])
  {
  }

  /** A cancellation appends one `return` movement per item whose product
      still exists, each referring to the sale, and they replay from the
      stock before to the stock after. */
  lemma CancelLedger(s: State, id: SaleId, user: UserId, now: Time)
    requires CancelSpec(s, id, user, now).Ok?
    ensures id < |s.sales|
    ensures var s1 := CancelSpec(s, id, user, now).value;
            && |s1.movements| == |s.movements| + PresentCount(ItemReturns(s.sales[id].items), s.products.Keys)
            && s1.movements[..|s.movements|] == s.movements
            && (forall k :: |s.movements| <= k < |s1.movements| ==>
                  IsReturnMovement(s1.movements[k], SaleReference(id, s.sales[id]), user))
            && Replay(StockMap(s.products), s1.movements[|s.movements|..]) == Some(StockMap(s1.products))
  {
    var sale := s.sales[id];
    var st := Restock(s.products, []);
    var lines := ItemReturns(sale.items);
    RestockAllMoves(st, lines, SaleReference(id, sale), user, now);
    RestockAllReplay(st, lines, SaleReference(id, sale), user, now);
    var done := RestockAll(st, lines, SaleReference(id, sale), user, now).value;
    var s1 := CancelSpec(s, id, user, now).value;
    assert s1.movements[|s.movements|..] == done.moves;
    assert done.moves[|st.moves|..] == done.moves;
    forall k | |s.movements| <= k < |s1.movements|
      ensures IsReturnMovement(s1.movements[k], SaleReference(id, s.sales[id]), user)
    {
      assert s1.movements[k] == done.moves[k - |s.movements|];
    }
  }

  /** Only a credit sale with a customer gives anything back: that
      customer's `currentCredit` and `totalPurchases` fall by the sale's
      total. Otherwise no customer changes. */
  lemma CancelCustomer(s: State, id: SaleId, user: UserId, now: Time)
    requires CancelSpec(s, id, user, now).Ok?
    ensures id < |s.sales|
    ensures var s1 := CancelSpec(s, id, user, now).value;
            var sale := s.sales[id];
            && s1.customers.Keys == s.customers.Keys
            && (forall c :: c in s.customers && (sale.customer != Some(c) || sale.paymentMethod != Credit) ==>
                  s1.customers[c] == s.customers[c])
            && (sale.customer.Some? && sale.paymentMethod == Credit && sale.customer.value in s.customers ==>
                  var c0, c1 := s.customers[sale.customer.value], s1.customers[sale.customer.value];
                  c1 == c0.(currentCredit := c0.currentCredit - sale.totals.total,
                            totalPurchases := c0.totalPurchases - sale.totals.total))
  {
  }

  lemma CancelPreservesValid(s: State, id: SaleId, user: UserId, now: Time)
    requires ValidState(s) && CancelSpec(s, id, user, now).Ok?
    ensures ValidState(CancelSpec(s, id, user, now).value)
  {
    var sale := s.sales[id];
    ItemReturnsPositive(sale.items);
    RestockAllNonNegative(Restock(s.products, []), ItemReturns(sale.items), SaleReference(id, sale), user, now);
    CancelLedger(s, id, user, now);
    var s1 := CancelSpec(s, id, user, now).value;
    forall k | 0 <= k < |s1.movements| ensures ValidMovement(s1.movements[k]) {
      if k < |s.movements| {
        assert s1.movements[k] == s1.movements[..|s.movements|][k];
      }
    }
    assert ValidSale(s1.sales[id]);
  }

  /** The lines of a created sale name each product for its total demand. */
  lemma {:induction false} LineItemsQuantity(lines: seq<SalesRoutes.SaleLine>, p: ProductId)
    ensures SoldQuantity(SalesRoutes.LineItems(lines), p) == SalesRoutes.Demand(lines, p)
    decreases |lines|
  {
    if lines != [] {
      LineItemsQuantity(lines[1..], p);
      assert SalesRoutes.LineItems(lines)[1..] == SalesRoutes.LineItems(lines[1..]);
    }
  }

  /** A sale just created can be cancelled. */
  lemma CancelAfterCreate(s: State, req: SalesRoutes.SaleRequest, user: UserId, now: Time, user2: UserId, later: Time)
    requires ValidState(s) && SalesRoutes.CreateSaleSpec(s, req, user, now).Ok?
    ensures var (s1, id) := SalesRoutes.CreateSaleSpec(s, req, user, now).value;
            && id < |s1.sales| && s1.sales[id] == SalesRoutes.ProposedSale(s, req, user, now)
            && CancelSpec(s1, id, user2, later).Ok?
  {
    var (s1, id) := SalesRoutes.CreateSaleSpec(s, req, user, now).value;
    SalesRoutes.CreateSalePreservesValid(s, req, user, now);
    SalesRoutes.CreateSaleAppends(s, req, user, now);
    SalesRoutes.ProposedSaleRecord(s, req, user, now);
    CancelSucceedsIff(s1, id, user2, later);
  }

  lemma CancelAfterCreateStock(s: State, req: SalesRoutes.SaleRequest, user: UserId, now: Time, user2: UserId, later: Time)
    requires ValidState(s) && SalesRoutes.CreateSaleSpec(s, req, user, now).Ok?
    requires var (s1, id) := SalesRoutes.CreateSaleSpec(s, req, user, now).value;
             CancelSpec(s1, id, user2, later).Ok?
    ensures var (s1, id) := SalesRoutes.CreateSaleSpec(s, req, user, now).value;
            var s2 := CancelSpec(s1, id, user2, later).value;
            && s2.products.Keys == s.products.Keys
            && forall p :: p in s.products ==> s2.products[p].currentStock == s.products[p].currentStock
  {
    var (s1, id) := SalesRoutes.CreateSaleSpec(s, req, user, now).value;
    SalesRoutes.CreateSaleAppends(s, req, user, now);
    SalesRoutes.CreateSaleStock(s, req, user, now);
    CancelStock(s1, id, user2, later);
    assert s1.sales[id].items == SalesRoutes.LineItems(req.items);
    forall p | p in s.products {
      LineItemsQuantity(req.items, p);
    }
  }

  /** Creating a sale and then cancelling it restores every product's stock. */
  lemma CancelUndoesCreate(s: State, req: SalesRoutes.SaleRequest, user: UserId, now: Time, user2: UserId, later: Time)
    requires ValidState(s) && SalesRoutes.CreateSaleSpec(s, req, user, now).Ok?
    ensures var (s1, id) := SalesRoutes.CreateSaleSpec(s, req, user, now).value;
            && CancelSpec(s1, id, user2, later).Ok?
            && StockMap(CancelSpec(s1, id, user2, later).value.products) == StockMap(s.products)
  {
    var (s1, id) := SalesRoutes.CreateSaleSpec(s, req, user, now).value;
    CancelAfterCreate(s, req, user, now, user2, later);
    CancelAfterCreateStock(s, req, user, now, user2, later);
    var s2 := CancelSpec(s1, id, user2, later).value;
    assert StockMap(s2.products) == StockMap(s.products);
  }

  /** After creating and cancelling a sale, the customer's credit is back
      where it was. `totalPurchases` is back too on a credit sale; on any
      other sale it keeps the cancelled total. */
  lemma CancelAfterCreateCredit(s: State, req: SalesRoutes.SaleRequest, user: UserId, now: Time, user2: UserId, later: Time)
    requires ValidState(s) && SalesRoutes.CreateSaleSpec(s, req, user, now).Ok?
    requires req.customer.Some? && req.customer.value in s.customers
    ensures var (s1, id) := SalesRoutes.CreateSaleSpec(s, req, user, now).value;
            && CancelSpec(s1, id, user2, later).Ok?
            && var c0, c2 := s.customers[req.customer.value], CancelSpec(s1, id, user2, later).value.customers[req.customer.value];
            && c2.currentCredit == c0.currentCredit
            && AvailableCredit(c2) == AvailableCredit(c0)
            && (s1.sales[id].paymentMethod == Credit ==> c2.totalPurchases == c0.totalPurchases)
            && (s1.sales[id].paymentMethod != Credit ==> c2.totalPurchases == c0.totalPurchases + s1.sales[id].totals.total)
  {
    var (s1, id) := SalesRoutes.CreateSaleSpec(s, req, user, now).value;
    CancelAfterCreate(s, req, user, now, user2, later);
    SalesRoutes.CreateSaleCustomer(s, req, user, now);
    CancelCustomer(s1, id, user2, later);
  }

  // ---------------------------------------------------------------------
  // Properties of refunds.

  lemma {:induction false} RefundLinesChecked(st: Restock, items: seq<SaleItem>, lines: seq<ReturnLine>, doc: Reference, user: UserId, now: Time)
    requires forall k :: 0 <= k < |lines| ==> RefundCheck(items, lines[k]).None?
    ensures RefundLines(st, items, lines, doc, user, now) == RestockAll(st, lines, doc, user, now)
    decreases |lines|
  {
    if lines != [] {
      assert RefundCheck(items, lines[0]).None?;
      match RestockLine(st, lines[0], doc, user, now)
      case Err(_) =>
      case Ok(next) => {
        assert forall k :: 0 <= k < |lines[1..]| ==> lines[1..][k] == lines[k + 1];
        RefundLinesChecked(next, items, lines[1..], doc, user, now);
      }
    }
  }

  lemma {:induction false} RefundLinesMeetChecks(st: Restock, items: seq<SaleItem>, lines: seq<ReturnLine>, doc: Reference, user: UserId, now: Time)
    requires RefundLines(st, items, lines, doc, user, now).Ok?
    ensures forall k :: 0 <= k < |lines| ==> RefundCheck(items, lines[k]).None?
    decreases |lines|
  {
    if lines != [] {
      var next := RestockLine(st, lines[0], doc, user, now).value;
      RefundLinesMeetChecks(next, items, lines[1..], doc, user, now);
      forall k | 0 <= k < |lines| ensures RefundCheck(items, lines[k]).None? {
        if k > 0 { assert lines[k] == lines[1..][k - 1]; }
      }
    }
  }

  /** A refund goes through exactly when the sale exists, is `completed` and
      not yet refunded, every line names a product of the sale for no more
      units than the first item of the sale for that product, and putting
      the units back keeps every stock non-negative. */
  lemma RefundSucceedsIff(s: State, id: SaleId, req: RefundRequest, user: UserId, now: Time)
    ensures RefundSpec(s, id, req, user, now).Ok? <==>
            && id < |s.sales| && s.sales[id].status == Completed && !s.sales[id].refund.isRefunded
            && (forall k :: 0 <= k < |req.items| ==> RefundCheck(s.sales[id].items, req.items[k]).None?)
            && RestockAll(Restock(s.products, []), req.items, SaleReference(id, s.sales[id]), user, now).Ok?
  {
    if id < |s.sales| && s.sales[id].status == Completed && !s.sales[id].refund.isRefunded {
      var st := Restock(s.products, []);
      var sale := s.sales[id];
      if RefundLines(st, sale.items, req.items, SaleReference(id, sale), user, now).Ok? {
        RefundLinesMeetChecks(st, sale.items, req.items, SaleReference(id, sale), user, now);
      }
      if forall k :: 0 <= k < |req.items| ==> RefundCheck(sale.items, req.items[k]).None? {
        RefundLinesChecked(st, sale.items, req.items, SaleReference(id, sale), user, now);
      }
    }
  }

  /** A refund marks the sale `refunded` with a refund record: refunded now,
      by the user, for the requested amount or, when none (or zero) is
      given, the sale's total. No customer changes, and no other sale. */
  lemma RefundRecord(s: State, id: SaleId, req: RefundRequest, user: UserId, now: Time)
    requires RefundSpec(s, id, req, user, now).Ok?
    ensures id < |s.sales|
    ensures var s1 := RefundSpec(s, id, req, user, now).value;
            var sale := s.sales[id];
            && |s1.sales| == |s.sales|
            && s1.sales[id].status == Refunded
            && s1.sales[id].refund.isRefunded && s1.sales[id].refund.refundDate == Some(now)
            && s1.sales[id].refund.refundedBy == Some(user)
            && s1.sales[id].refund.refundReason == req.refundReason
            && s1.sales[id].refund.refundAmount
               == Some(if req.refundAmount.None? || req.refundAmount == Some(0) then sale.totals.total else req.refundAmount.value)
            && s1.sales[id].(status := sale.status, refund := sale.refund) == sale
            && (forall k :: 0 <= k < |s.sales| && k != id ==> s1.sales[k] == s.sales[k])
            && s1.customers == s.customers
  {
  }

  /** A refund puts back the units its lines name, on each product that
      still exists, with one `return` movement per such line that replays
      from the stock before to the stock after. A refund without lines
      touches neither stock nor ledger. */
  lemma RefundStock(s: State, id: SaleId, req: RefundRequest, user: UserId, now: Time)
    requires RefundSpec(s, id, req, user, now).Ok?
    ensures id < |s.sales|
    ensures var s1 := RefundSpec(s, id, req, user, now).value;
            && s1.products.Keys == s.products.Keys
            && (forall p :: p in s.products ==>
                  s1.products[p].currentStock == s.products[p].currentStock + ReturnedQuantity(req.items, p)
                  && SalesRoutes.SameButStock(s1.products[p], s.products[p]))
            && |s1.movements| == |s.movements| + PresentCount(req.items, s.products.Keys)
            && s1.movements[..|s.movements|] == s.movements
            && (forall k :: |s.movements| <= k < |s1.movements| ==>
                  IsReturnMovement(s1.movements[k], SaleReference(id, s.sales[id]), user))
            && Replay(StockMap(s.products), s1.movements[|s.movements|..]) == Some(StockMap(s1.products))
            && (req.items == [] ==> s1.products == s.products && s1.movements == s.movements)
  {
    RefundSucceedsIff(s, id, req, user, now);
    var sale := s.sales[id];
    var st := Restock(s.products, []);
    var doc := SaleReference(id, sale);
    RefundLinesChecked(st, sale.items, req.items, doc, user, now);
    RestockAllStock(st, req.items, doc, user, now);
    RestockAllMoves(st, req.items, doc, user, now);
    RestockAllReplay(st, req.items, doc, user, now);
    var done := RestockAll(st, req.items, doc, user, now).value;
    var s1 := RefundSpec(s, id, req, user, now).value;
    assert s1.movements[|s.movements|..] == done.moves;
    assert done.moves[|st.moves|..] == done.moves;
    forall k | |s.movements| <= k < |s1.movements|
      ensures IsReturnMovement(s1.movements[k], doc, user)
    {
      assert s1.movements[k] == done.moves[k - |s.movements|];
    }
  }

  lemma RefundPreservesValid(s: State, id: SaleId, req: RefundRequest, user: UserId, now: Time)
    requires ValidState(s) && RefundSpec(s, id, req, user, now).Ok?
    ensures ValidState(RefundSpec(s, id, req, user, now).value)
  {
    RefundStock(s, id, req, user, now);
    RefundSucceedsIff(s, id, req, user, now);
    var s1 := RefundSpec(s, id, req, user, now).value;
    forall p | p in s1.products ensures ValidProduct(s1.products[p]) {
      RefundProductValid(s, id, req, user, now, p);
    }
    forall k | 0 <= k < |s1.movements| ensures ValidMovement(s1.movements[k]) {
      if k < |s.movements| {
        assert s1.movements[k] == s1.movements[..|s.movements|][k];
      }
    }
    assert ValidSale(s1.sales[id]);
  }

  /** Every product the refund saved passed the schema on the way. */
  lemma RefundProductValid(s: State, id: SaleId, req: RefundRequest, user: UserId, now: Time, p: ProductId)
    requires ValidState(s) && RefundSpec(s, id, req, user, now).Ok?
    requires p in RefundSpec(s, id, req, user, now).value.products
    ensures ValidProduct(RefundSpec(s, id, req, user, now).value.products[p])
  {
    RefundSucceedsIff(s, id, req, user, now);
    var sale := s.sales[id];
    RefundLinesChecked(Restock(s.products, []), sale.items, req.items, SaleReference(id, sale), user, now);
    RestockAllKeepsValid(Restock(s.products, []), req.items, SaleReference(id, sale), user, now);
  }

  lemma {:induction false} RestockAllKeepsValid(st: Restock, lines: seq<ReturnLine>, doc: Reference, user: UserId, now: Time)
    requires forall p :: p in st.products ==> ValidProduct(st.products[p])
    requires RestockAll(st, lines, doc, user, now).Ok?
    ensures forall p :: p in RestockAll(st, lines, doc, user, now).value.products ==>
              ValidProduct(RestockAll(st, lines, doc, user, now).value.products[p])
    decreases |lines|
  {
    if lines != [] {
      RestockAllStep(st, lines, doc, user, now);
      RestockAllKeepsValid(RestockLine(st, lines[0], doc, user, now).value, lines[1..], doc, user, now);
    }
  }

  /** The bound on a refund line is the first sale item's quantity, line by
      line: two refund lines of 2 units against a sale item of 2 units both
      pass, and 4 units go back on the shelf. */
  lemma RefundBoundIsPerLine(s: State, id: SaleId, p: ProductId, user: UserId, now: Time)
    requires ValidState(s) && id < |s.sales|
    requires s.sales[id].status == Completed && !s.sales[id].refund.isRefunded
    requires s.sales[id].items == [SaleItem(p, 2, 100, 200, 0)]
    requires p in s.products
    ensures RefundSpec(s, id, RefundRequest(None, None, [ReturnLine(p, 2), ReturnLine(p, 2)]), user, now).Ok?
    ensures var s1 := RefundSpec(s, id, RefundRequest(None, None, [ReturnLine(p, 2), ReturnLine(p, 2)]), user, now).value;
            p in s1.products && s1.products[p].currentStock == s.products[p].currentStock + 4
  {
    var lines := [ReturnLine(p, 2), ReturnLine(p, 2)];
    var sale := s.sales[id];
    var doc := SaleReference(id, sale);
    var st := Restock(s.products, []);
    assert FirstItem(sale.items, p) == Some(sale.items[0]);
    assert forall k :: 0 <= k < |lines| ==> RefundCheck(sale.items, lines[k]).None?;
    RefundLinesChecked(st, sale.items, lines, doc, user, now);
    assert NonNegativeLines(lines);
    RestockAllNonNegative(st, lines, doc, user, now);
    RestockAllStock(st, lines, doc, user, now);
    assert ReturnedQuantity(lines, p) == 4 by {
      var one := [ReturnLine(p, 2)];
      assert one[1..] == [];
      assert ReturnedQuantity(one, p) == 2;
      assert lines[1..] == one;
    }
  }
}
