/** `createSale` of backend/controllers/salesController.js, the second sale
    path. It reads the active products once into a snapshot, validates
    every line against that snapshot, prices the lines on the server,
    creates the sale, and only then writes each product's new stock (by an
    update that bypasses the save hooks) and a `sale` movement with a
    positive quantity. No customer is updated. */
module SalesController {
  import opened Common
  import opened Products
  import opened Movements
  import opened SaleModel
  import opened Ledger

  /** A requested line; `unitPrice` and `discount` may be omitted. */
  datatype RequestItem = RequestItem(product: ProductId, quantity: int, unitPrice: Option<int>, discount: Option<int>)

  /** The body; `items` is `None` when it is not an array, and the cashier
      comes from the body, not from the session. */
  datatype ControllerRequest = ControllerRequest(
    customer: Option<CustomerId>,
    cashier: Option<UserId>,
    items: Option<seq<RequestItem>>,
    paymentMethod: string)

  /** The checks made before anything is read. */
  predicate WellFormed(req: ControllerRequest) {
    req.items.Some? && req.items.value != [] && req.cashier.Some? && req.paymentMethod != ""
  }

  /** `productMap`: the active products, read once. */
  function ActiveSnapshot(products: map<ProductId, Product>): (snap: map<ProductId, Product>)
    ensures forall p :: p in snap <==> p in products && products[p].isActive
    ensures forall p :: p in snap ==> snap[p] == products[p]
  {
    map p | p in products && products[p].isActive :: products[p]
  }

  /** The validation of one line against the snapshot. */
  function CheckItem(snap: map<ProductId, Product>, it: RequestItem): Option<Error> {
    if it.product !in snap then Some(ProductUnavailable(it.product))
    else if it.quantity <= 0 then Some(InvalidQuantity(it.product))
    else if snap[it.product].currentStock < it.quantity then Some(InsufficientStock(it.product, snap[it.product].currentStock))
    else None
  }

  /** The first line that fails validation, in request order. */
  function FirstFailure(snap: map<ProductId, Product>, items: seq<RequestItem>): Option<Error> {
    if items == [] then None
    else match CheckItem(snap, items[0])
      case Some(e) => Some(e)
      case None => FirstFailure(snap, items[1..])
  }

  predicate AllInSnapshot(snap: map<ProductId, Product>, items: seq<RequestItem>) {
    forall k :: 0 <= k < |items| ==> items[k].product in snap
  }

  /** `it.unitPrice ?? p.pricing.sellingPrice ?? 0`; the selling price is a
      required field, so the last fallback never applies. */
  function UnitPrice(snap: map<ProductId, Product>, it: RequestItem): int
    requires it.product in snap
  {
    if it.unitPrice.Some? then it.unitPrice.value else snap[it.product].sellingPrice
  }

  /** The item as the pricing loop rewrites it. */
  function PricedItem(snap: map<ProductId, Product>, it: RequestItem): SaleItem
    requires it.product in snap
  {
    var up := UnitPrice(snap, it);
    SaleItem(it.product, it.quantity, up, up * it.quantity - OrZero(it.discount), OrZero(it.discount))
  }

  function PricedItems(snap: map<ProductId, Product>, items: seq<RequestItem>): (r: seq<SaleItem>)
    requires AllInSnapshot(snap, items)
    ensures |r| == |items|
    decreases |items|
  {
    if items == [] then []
    else PricedItems(snap, items[..|items| - 1]) + [PricedItem(snap, items[|items| - 1])]
  }

  /** `subtotal`: the gross amount `Σ unitPrice * quantity`. */
  function GrossSubtotal(snap: map<ProductId, Product>, items: seq<RequestItem>): int
    requires AllInSnapshot(snap, items)
    decreases |items|
  {
    if items == [] then 0
    else
      var last := items[|items| - 1];
      GrossSubtotal(snap, items[..|items| - 1]) + UnitPrice(snap, last) * last.quantity
  }

  /** `discountTotal`: the sum of the line discounts. */
  function DiscountTotal(items: seq<RequestItem>): int
    decreases |items|
  {
    if items == [] then 0 else DiscountTotal(items[..|items| - 1]) + OrZero(items[|items| - 1].discount)
  }

  /** The `sale` movement of the write loop: previous stock read from the
      snapshot, positive quantity, cost from the catalogue, referring to
      the sale. */
  function ControllerMovement(it: RequestItem, p: Product, doc: Reference, user: UserId): Movement {
    Movement(it.product, SaleOut, it.quantity, p.currentStock, p.currentStock - it.quantity,
             Some(p.costPrice), Some(p.costPrice * it.quantity), Some(doc), user, None, None)
  }

  datatype Written = Written(products: map<ProductId, Product>, moves: seq<Movement>)

  /** One iteration of the write loop. `updateOne` on a missing document
      changes nothing; it sets only `currentStock`, runs no hook and no
      validator. The movement is created with the schema's validators. */
  function WriteItem(st: Written, snap: map<ProductId, Product>, it: RequestItem, doc: Reference, user: UserId)
    : Result<Written>
  {
    if it.product !in snap then Err(ProductUnavailable(it.product))
    else
      var p := snap[it.product];
      var m := ControllerMovement(it, p, doc, user);
      if !ValidMovement(m) then Err(SchemaViolation)
      else
        var products := if it.product in st.products
                        then st.products[it.product := st.products[it.product].(currentStock := p.currentStock - it.quantity)]
                        else st.products;
        Ok(Written(products, st.moves + [m]))
  }

  function WriteAll(st: Written, snap: map<ProductId, Product>, items: seq<RequestItem>, doc: Reference, user: UserId)
    : Result<Written>
    decreases |items|
  {
    if items == [] then Ok(st)
    else
      match WriteItem(st, snap, items[0], doc, user)
      case Err(e) => Err(e)
      case Ok(next) => WriteAll(next, snap, items[1..], doc, user)
  }

  /** The sale document `Sale.create` saves, from the priced lines and
      totals, numbered by the hook; tax is 0. */
  function ControllerSale(s: State, req: ControllerRequest, pm: PaymentMethod, now: Time,
                          items: seq<SaleItem>, subtotal: int, discount: int): Sale
    requires WellFormed(req)
  {
    AssignSaleNumber(ControllerDraft(req, pm, now, items, subtotal, discount), s.sales)
  }

  /** The document `Sale.create` is given, before the hook numbers it. */
  function ControllerDraft(req: ControllerRequest, pm: PaymentMethod, now: Time,
                           items: seq<SaleItem>, subtotal: int, discount: int): Sale
    requires WellFormed(req)
  {
    Sale("", req.customer, req.cashier.value, items, Totals(subtotal, discount, 0, subtotal - discount + 0),
         pm, DefaultStatus, NoRefund, now)
  }

  /** The sale created from the request's lines priced against the snapshot. */
  function PricedSale(s: State, req: ControllerRequest, snap: map<ProductId, Product>, pm: PaymentMethod, now: Time): Sale
    requires WellFormed(req) && AllInSnapshot(snap, req.items.value)
  {
    ControllerSale(s, req, pm, now, PricedItems(snap, req.items.value), GrossSubtotal(snap, req.items.value),
                   DiscountTotal(req.items.value))
  }

  /** The reference every movement of the sale carries. */
  function SaleDocumentOf(s: State, sale: Sale): Reference {
    Reference(SaleDocument, |s.sales|, sale.saleNumber)
  }

  /** The store after the writes: no customer is touched. */
  function ControllerCommitted(s: State, w: Written, sale: Sale): State {
    State(w.products, s.sales + [sale], s.movements + w.moves, s.customers)
  }

  function ControllerSpec(s: State, req: ControllerRequest, now: Time): Result<(State, SaleId)> {
    if !WellFormed(req) then Err(ValidationFailed)
    else
      var items := req.items.value;
      var snap := ActiveSnapshot(s.products);
      match FirstFailure(snap, items)
      case Some(e) => Err(e)
      case None =>
        FirstFailureNone(snap, items);
        var pm := ParsePaymentMethod(req.paymentMethod);
        if pm.None? then Err(SchemaViolation)
        else
          var sale := PricedSale(s, req, snap, pm.value, now);
          if !ValidSale(sale) then Err(SchemaViolation)
          else
            match WriteAll(Written(s.products, []), snap, items, SaleDocumentOf(s, sale), req.cashier.value)
            case Err(e) => Err(e)
            case Ok(w) => Ok((ControllerCommitted(s, w, sale), |s.sales|))
  }

  // ---------------------------------------------------------------------
  // The three loops.

  method ValidateItems(snap: map<ProductId, Product>, items: seq<RequestItem>) returns (r: Option<Error>)
    ensures r == FirstFailure(snap, items)
  {
    var i := 0;
    while i < |items|
      invariant 0 <= i <= |items|
      invariant FirstFailure(snap, items) == FirstFailure(snap, items[i..])
    {
      var it := items[i];
      assert items[i..][0] == it && items[i..][1..] == items[i + 1..];
      if it.product !in snap {
        return Some(ProductUnavailable(it.product));
      }
      var p := snap[it.product];
      if it.quantity <= 0 {
        return Some(InvalidQuantity(it.product));
      }
      if p.currentStock < it.quantity {
        return Some(InsufficientStock(it.product, p.currentStock));
      }
      i := i + 1;
    }
    assert items[i..] == [];
    r := None;
  }

  method PriceItems(snap: map<ProductId, Product>, items: seq<RequestItem>)
    returns (priced: seq<SaleItem>, subtotal: int, discountTotal: int)
    requires AllInSnapshot(snap, items)
    ensures priced == PricedItems(snap, items)
    ensures subtotal == GrossSubtotal(snap, items)
    ensures discountTotal == DiscountTotal(items)
  {
    priced, subtotal, discountTotal := [], 0, 0;
    var i := 0;
    while i < |items|
      invariant 0 <= i <= |items|
      invariant priced == PricedItems(snap, items[..i])
      invariant subtotal == GrossSubtotal(snap, items[..i])
      invariant discountTotal == DiscountTotal(items[..i])
    {
      var it := items[i];
      assert items[..i + 1][..i] == items[..i] && items[..i + 1][i] == it;
      var p := snap[it.product];
      var unitPrice := if it.unitPrice.Some? then it.unitPrice.value else p.sellingPrice;
      var lineDiscount := if it.discount.Some? then it.discount.value else 0;
      var lineSubtotal := unitPrice * it.quantity;
      priced := priced + [SaleItem(it.product, it.quantity, unitPrice, lineSubtotal - lineDiscount, lineDiscount)];
      subtotal := subtotal + lineSubtotal;
      discountTotal := discountTotal + lineDiscount;
      i := i + 1;
    }
    assert items[..i] == items;
  }

  method WriteItems(products0: map<ProductId, Product>, snap: map<ProductId, Product>, items: seq<RequestItem>,
                    doc: Reference, user: UserId)
    returns (r: Result<Written>)
    ensures r == WriteAll(Written(products0, []), snap, items, doc, user)
  {
    var products: map<ProductId, Product> := products0;
    var moves: seq<Movement> := [];
    var i := 0;
    while i < |items|
      invariant 0 <= i <= |items|
      invariant WriteAll(Written(products0, []), snap, items, doc, user)
                == WriteAll(Written(products, moves), snap, items[i..], doc, user)
    {
      var it := items[i];
      assert items[i..][0] == it && items[i..][1..] == items[i + 1..];
      if it.product !in snap {
        return Err(ProductUnavailable(it.product));
      }
      var p := snap[it.product];
      var previousStock := p.currentStock;
      var newStock := previousStock - it.quantity;
      if it.product in products {
        products := products[it.product := products[it.product].(currentStock := newStock)];
      }
      var movement := Movement(it.product, SaleOut, it.quantity, previousStock, newStock,
                               Some(p.costPrice), Some(p.costPrice * it.quantity), Some(doc), user, None, None);
      if !ValidMovement(movement) {
        return Err(SchemaViolation);
      }
      moves := moves + [movement];
      i := i + 1;
    }
    assert items[i..] == [];
    r := Ok(Written(products, moves));
  }

  method ControllerCreateSale(db: Database, req: ControllerRequest, now: Time) returns (r: Result<SaleId>)
    requires db.Valid()
    modifies db
    ensures db.Valid()
    ensures match ControllerSpec(old(db.Snapshot()), req, now)
            case Ok(res) => r == Ok(res.1) && db.Snapshot() == res.0
            case Err(e) => r == Err(e) && db.Snapshot() == old(db.Snapshot())
  {
    var s0 := db.Snapshot();
    if req.items.None? || req.items.value == [] {
      return Err(ValidationFailed);
    }
    if req.cashier.None? {
      return Err(ValidationFailed);
    }
    if req.paymentMethod == "" {
      return Err(ValidationFailed);
    }
    var items := req.items.value;
    var snap := ActiveSnapshot(db.products);
    var failure := ValidateItems(snap, items);
    if failure.Some? {
      return Err(failure.value);
    }
    FirstFailureNone(snap, items);
    var pm := ParsePaymentMethod(req.paymentMethod);
    if pm.None? {
      return Err(SchemaViolation);
    }
    var priced, subtotal, discountTotal := PriceItems(snap, items);
    var sale := ControllerSale(s0, req, pm.value, now, priced, subtotal, discountTotal);
    if !ValidSale(sale) {
      return Err(SchemaViolation);
    }
    var written := WriteItems(db.products, snap, items, SaleDocumentOf(s0, sale), req.cashier.value);
    if written.Err? {
      return Err(written.error);
    }
    ControllerPreservesValid(s0, req, now);
    db.Commit(ControllerCommitted(s0, written.value, sale));
    r := Ok(|s0.sales|);
  }

  // ---------------------------------------------------------------------
  // Validation.

  predicate ItemOk(snap: map<ProductId, Product>, it: RequestItem) {
    it.product in snap && it.quantity > 0 && snap[it.product].currentStock >= it.quantity
  }

  /** Validation passes exactly when every line names an active product,
      asks for a positive quantity and is covered by the snapshot stock. */
  lemma {:induction false} FirstFailureNone(snap: map<ProductId, Product>, items: seq<RequestItem>)
    ensures FirstFailure(snap, items).None? <==> forall k :: 0 <= k < |items| ==> ItemOk(snap, items[k])
    ensures FirstFailure(snap, items).None? ==> AllInSnapshot(snap, items)
    decreases |items|
  {
    if items != [] {
      FirstFailureNone(snap, items[1..]);
      assert forall k :: 1 <= k < |items| ==> items[k] == items[1..][k - 1];
    }
  }

  /** The reported error is the check of the first failing line: every
      line before it passed. */
  lemma {:induction false} FirstFailureIsFirst(snap: map<ProductId, Product>, items: seq<RequestItem>)
    requires FirstFailure(snap, items).Some?
    ensures exists k :: 0 <= k < |items| && CheckItem(snap, items[k]) == FirstFailure(snap, items)
                        && forall j :: 0 <= j < k ==> ItemOk(snap, items[j])
    decreases |items|
  {
    if CheckItem(snap, items[0]).None? {
      FirstFailureIsFirst(snap, items[1..]);
      var k :| 0 <= k < |items[1..]| && CheckItem(snap, items[1..][k]) == FirstFailure(snap, items[1..])
               && forall j :: 0 <= j < k ==> ItemOk(snap, items[1..][j]);
      assert items[k + 1] == items[1..][k];
      forall j | 0 <= j < k + 1 ensures ItemOk(snap, items[j]) {
        if j > 0 { assert items[j] == items[1..][j - 1]; }
      }
    }
  }

  /** The write loop fails only with the missing-product or schema error of
      some line. */
  lemma {:induction false} WriteAllErrors(st: Written, snap: map<ProductId, Product>, items: seq<RequestItem>, doc: Reference, user: UserId)
    requires WriteAll(st, snap, items, doc, user).Err?
    ensures WriteAll(st, snap, items, doc, user).error == SchemaViolation
            || exists k :: 0 <= k < |items| && WriteAll(st, snap, items, doc, user).error == ProductUnavailable(items[k].product)
    decreases |items|
  {
    match WriteItem(st, snap, items[0], doc, user)
    case Err(_) =>
    case Ok(next) =>
      WriteAllErrors(next, snap, items[1..], doc, user);
      var e := WriteAll(st, snap, items, doc, user).error;
      if e != SchemaViolation {
        var k :| 0 <= k < |items[1..]| && e == ProductUnavailable(items[1..][k].product);
        assert items[k + 1] == items[1..][k];
      }
  }

  /** The checks before any read: a missing or empty `items`, a missing
      cashier or a missing payment method reject the request, and nothing
      else is reported as that validation error. */
  lemma ControllerRejectsMalformed(s: State, req: ControllerRequest, now: Time)
    ensures !WellFormed(req) <==> ControllerSpec(s, req, now) == Err(ValidationFailed)
  {
    if WellFormed(req) {
      var items := req.items.value;
      var snap := ActiveSnapshot(s.products);
      if FirstFailure(snap, items).Some? {
        FirstFailureIsFirst(snap, items);
      } else {
        FirstFailureNone(snap, items);
        var pm := ParsePaymentMethod(req.paymentMethod);
        if pm.Some? && ValidSale(PricedSale(s, req, snap, pm.value, now)) {
          var sale := PricedSale(s, req, snap, pm.value, now);
          var w := WriteAll(Written(s.products, []), snap, items, SaleDocumentOf(s, sale), req.cashier.value);
          if w.Err? {
            WriteAllErrors(Written(s.products, []), snap, items, SaleDocumentOf(s, sale), req.cashier.value);
          }
        }
      }
    }
  }

  /** Every line is validated before any write: when some line fails, the
      request fails with the first failing line's error, and a committed
      sale had every line valid against the snapshot. */
  lemma ControllerValidatesFirst(s: State, req: ControllerRequest, now: Time)
    requires WellFormed(req)
    ensures var snap := ActiveSnapshot(s.products);
            && (FirstFailure(snap, req.items.value).Some? ==>
                  ControllerSpec(s, req, now) == Err(FirstFailure(snap, req.items.value).value))
            && (ControllerSpec(s, req, now).Ok? ==>
                  forall k :: 0 <= k < |req.items.value| ==> ItemOk(snap, req.items.value[k]))
  {
    FirstFailureNone(ActiveSnapshot(s.products), req.items.value);
  }

  // ---------------------------------------------------------------------
  // Pricing.

  /** Each priced line keeps the client's price when given, else takes the
      catalogue's selling price, and stores `unitPrice * quantity - discount`. */
  lemma {:induction false} PricedItemsAt(snap: map<ProductId, Product>, items: seq<RequestItem>)
    requires AllInSnapshot(snap, items)
    ensures forall k :: 0 <= k < |items| ==>
              var it, si := items[k], PricedItems(snap, items)[k];
              && si.product == it.product && si.quantity == it.quantity
              && si.unitPrice == (if it.unitPrice.Some? then it.unitPrice.value else snap[it.product].sellingPrice)
              && si.discount == OrZero(it.discount)
              && si.subtotal == si.unitPrice * it.quantity - si.discount
    decreases |items|
  {
    if items != [] {
      var init := items[..|items| - 1];
      assert AllInSnapshot(snap, init) by {
        forall k | 0 <= k < |init| ensures init[k].product in snap { assert init[k] == items[k]; }
      }
      PricedItemsAt(snap, init);
      forall k | 0 <= k < |init| ensures PricedItems(snap, items)[k] == PricedItems(snap, init)[k] && items[k] == init[k] {
      }
    }
  }

  /** The stored totals: subtotal gross, discount the sum of the line
      discounts, tax 0 and `total = subtotal - discount + tax`; the sale is
      numbered by the hook and completed. */
  lemma ControllerTotals(s: State, req: ControllerRequest, now: Time)
    requires ControllerSpec(s, req, now).Ok?
    ensures WellFormed(req)
    ensures var snap := ActiveSnapshot(s.products);
            var s1 := ControllerSpec(s, req, now).value.0;
            var sale := s1.sales[|s.sales|];
            && |s1.sales| == |s.sales| + 1
            && s1.sales[..|s.sales|] == s.sales
            && AllInSnapshot(snap, req.items.value)
            && sale.items == PricedItems(snap, req.items.value)
            && sale.totals.subtotal == GrossSubtotal(snap, req.items.value)
            && sale.totals.discount == DiscountTotal(req.items.value)
            && sale.totals.tax == 0
            && sale.totals.total == sale.totals.subtotal - sale.totals.discount + sale.totals.tax
            && sale.saleNumber == FormatSaleNumber(NextCounter(s.sales))
            && sale.status == Completed && sale.cashier == req.cashier.value && sale.customer == req.customer
  {
    FirstFailureNone(ActiveSnapshot(s.products), req.items.value);
  }

  /** A worked example with two lines, 2 × 12990 at the catalogue price and
      3 × 4290 with a discount of 500: subtotal 38850, discount 500, total
      38350, and the second line stores 12370. */
  lemma TotalsExample(snap: map<ProductId, Product>, a: ProductId, b: ProductId)
    requires a in snap && b in snap && snap[a].sellingPrice == 12990
    ensures var items := [RequestItem(a, 2, None, None), RequestItem(b, 3, Some(4290), Some(500))];
            && GrossSubtotal(snap, items) == 38850
            && DiscountTotal(items) == 500
            && GrossSubtotal(snap, items) - DiscountTotal(items) + 0 == 38350
            && PricedItems(snap, items)[0].subtotal == 25980
            && PricedItems(snap, items)[1].subtotal == 12370
  {
    var items := [RequestItem(a, 2, None, None), RequestItem(b, 3, Some(4290), Some(500))];
    var first := items[..1];
    assert first == [items[0]] && first[..0] == [];
    assert GrossSubtotal(snap, first) == 25980;
    assert DiscountTotal(first) == 0;
    assert PricedItems(snap, first) == [PricedItem(snap, items[0])];
  }

  // ---------------------------------------------------------------------
  // Writes.

  /** The quantity of the last line naming `p`, if any. */
  function LastQuantity(items: seq<RequestItem>, p: ProductId): Option<int> {
    if items == [] then None
    else match LastQuantity(items[1..], p)
      case Some(q) => Some(q)
      case None => if items[0].product == p then Some(items[0].quantity) else None
  }

  lemma {:induction false} LastQuantityNamed(items: seq<RequestItem>, p: ProductId)
    ensures LastQuantity(items, p).Some? ==>
            exists k :: 0 <= k < |items| && items[k].product == p && items[k].quantity == LastQuantity(items, p).value
    ensures LastQuantity(items, p).None? ==> forall k :: 0 <= k < |items| ==> items[k].product != p
    decreases |items|
  {
    if items != [] {
      LastQuantityNamed(items[1..], p);
      if LastQuantity(items[1..], p).Some? {
        var k :| 0 <= k < |items[1..]| && items[1..][k].product == p && items[1..][k].quantity == LastQuantity(items, p).value;
        assert items[k + 1] == items[1..][k];
      } else {
        assert forall k :: 1 <= k < |items| ==> items[k] == items[1..][k - 1];
      }
    }
  }

  /** Every write sets the stock from the snapshot, so for each product the
      last line naming it wins: the new stock is the snapshot stock minus
      that line's quantity alone. Products no line names keep their stock,
      and no other field of any product changes. */
  lemma {:induction false} WriteAllStock(st: Written, snap: map<ProductId, Product>, items: seq<RequestItem>, doc: Reference, user: UserId)
    requires WriteAll(st, snap, items, doc, user).Ok?
    ensures var w := WriteAll(st, snap, items, doc, user).value;
            && w.products.Keys == st.products.Keys
            && forall p :: p in st.products ==>
                 && w.products[p] == st.products[p].(currentStock := w.products[p].currentStock)
                 && (LastQuantity(items, p).None? ==> w.products[p].currentStock == st.products[p].currentStock)
                 && (LastQuantity(items, p).Some? ==>
                       p in snap && w.products[p].currentStock == snap[p].currentStock - LastQuantity(items, p).value)
    decreases |items|
  {
    if items != [] {
      var next := WriteItem(st, snap, items[0], doc, user).value;
      WriteAllStock(next, snap, items[1..], doc, user);
    }
  }

  /** The write loop appends one `sale` movement per line: quantity `+q`,
      previous stock the snapshot's, new stock `previous - q`, cost from the
      catalogue, referring to the sale, by the cashier. */
  lemma {:induction false} WriteAllMoves(st: Written, snap: map<ProductId, Product>, items: seq<RequestItem>, doc: Reference, user: UserId)
    requires WriteAll(st, snap, items, doc, user).Ok?
    ensures var w := WriteAll(st, snap, items, doc, user).value;
            && |w.moves| == |st.moves| + |items|
            && w.moves[..|st.moves|] == st.moves
            && forall k :: 0 <= k < |items| ==>
                 items[k].product in snap && w.moves[|st.moves| + k] == ControllerMovement(items[k], snap[items[k].product], doc, user)
    decreases |items|
  {
    if items != [] {
      var next := WriteItem(st, snap, items[0], doc, user).value;
      WriteAllMoves(next, snap, items[1..], doc, user);
      var w := WriteAll(st, snap, items, doc, user).value;
      assert w.moves[..|next.moves|][..|st.moves|] == w.moves[..|st.moves|];
      forall k | 0 <= k < |items|
        ensures items[k].product in snap && w.moves[|st.moves| + k] == ControllerMovement(items[k], snap[items[k].product], doc, user)
      {
        if k == 0 {
          assert w.moves[|st.moves|] == w.moves[..|next.moves|][|st.moves|];
        } else {
          assert items[k] == items[1..][k - 1];
        }
      }
    }
  }

  /** On commit: a ledger entry per line as the write loop builds it, the
      stock of each product set from the snapshot with the last line for it
      winning, every other product field (including `lastStockUpdate`)
      untouched, and no customer updated. */
  lemma ControllerWrites(s: State, req: ControllerRequest, now: Time)
    requires ControllerSpec(s, req, now).Ok?
    ensures WellFormed(req)
    ensures var snap := ActiveSnapshot(s.products);
            var s1 := ControllerSpec(s, req, now).value.0;
            var items := req.items.value;
            && |s1.sales| == |s.sales| + 1
            && s1.customers == s.customers
            && s1.products.Keys == s.products.Keys
            && (forall p :: p in s.products ==>
                  && s1.products[p] == s.products[p].(currentStock := s1.products[p].currentStock)
                  && (LastQuantity(items, p).None? ==> s1.products[p].currentStock == s.products[p].currentStock)
                  && (LastQuantity(items, p).Some? ==>
                        s1.products[p].currentStock == s.products[p].currentStock - LastQuantity(items, p).value))
            && |s1.movements| == |s.movements| + |items|
            && s1.movements[..|s.movements|] == s.movements
            && (forall k :: 0 <= k < |items| ==>
                  items[k].product in snap
                  && s1.movements[|s.movements| + k]
                     == ControllerMovement(items[k], snap[items[k].product], SaleDocumentOf(s, s1.sales[|s.sales|]), req.cashier.value))
  {
    var snap := ActiveSnapshot(s.products);
    var items := req.items.value;
    FirstFailureNone(snap, items);
    var pm := ParsePaymentMethod(req.paymentMethod).value;
    var sale := PricedSale(s, req, snap, pm, now);
    var doc := SaleDocumentOf(s, sale);
    var st := Written(s.products, []);
    WriteAllStock(st, snap, items, doc, req.cashier.value);
    WriteAllMoves(st, snap, items, doc, req.cashier.value);
    var w := WriteAll(st, snap, items, doc, req.cashier.value).value;
    assert ControllerSpec(s, req, now).value.0 == ControllerCommitted(s, w, sale);
  }

  /** With distinct products, the product of line `k` ends at its stock
      minus that line's quantity. */
  lemma DistinctLinesStock(s: State, req: ControllerRequest, now: Time, k: nat)
    requires ControllerSpec(s, req, now).Ok?
    requires WellFormed(req) && k < |req.items.value|
    requires forall i, j :: 0 <= i < j < |req.items.value| ==> req.items.value[i].product != req.items.value[j].product
    ensures var p := req.items.value[k].product;
            var s1 := ControllerSpec(s, req, now).value.0;
            && p in s.products && p in s1.products
            && s1.products[p].currentStock == s.products[p].currentStock - req.items.value[k].quantity
  {
    ControllerWrites(s, req, now);
    ControllerValidatesFirst(s, req, now);
    assert ItemOk(ActiveSnapshot(s.products), req.items.value[k]);
    LastQuantityOnly(req.items.value, k);
  }

  lemma {:induction false} LastQuantityOnly(items: seq<RequestItem>, k: nat)
    requires k < |items|
    requires forall i, j :: 0 <= i < j < |items| ==> items[i].product != items[j].product
    ensures LastQuantity(items, items[k].product) == Some(items[k].quantity)
    decreases |items|
  {
    var p := items[k].product;
    if k == 0 {
      LastQuantityNamed(items[1..], p);
      assert forall j :: 0 <= j < |items[1..]| ==> items[1..][j] == items[j + 1];
    } else {
      assert items[1..][k - 1] == items[k];
      forall i, j | 0 <= i < j < |items[1..]| ensures items[1..][i].product != items[1..][j].product {
        assert items[1..][i] == items[i + 1] && items[1..][j] == items[j + 1];
      }
      LastQuantityOnly(items[1..], k - 1);
    }
  }

  /** The snapshot quirk: two lines of 3 units of a product whose stock is
      5 both pass validation, the sale records 6 units, and the stock ends
      at 2. */
  lemma SnapshotOversell(s: State, p: ProductId, user: UserId, now: Time)
    requires ValidState(s) && p in s.products && s.products[p].isActive && s.products[p].currentStock == 5
    requires s.products[p].sellingPrice == 100
    ensures var req := ControllerRequest(None, Some(user), Some([RequestItem(p, 3, None, None), RequestItem(p, 3, None, None)]), "cash");
            && ControllerSpec(s, req, now).Ok?
            && p in ControllerSpec(s, req, now).value.0.products
            && ControllerSpec(s, req, now).value.0.products[p].currentStock == 2
            && SoldQuantity(ControllerSpec(s, req, now).value.0.sales[|s.sales|].items, p) == 6
  {
    var line := RequestItem(p, 3, None, None);
    var items := [line, line];
    var req := ControllerRequest(None, Some(user), Some(items), "cash");
    var snap := ActiveSnapshot(s.products);
    OversellSale(s, p, user, now);
    var sale := PricedSale(s, req, snap, Cash, now);
    var doc := SaleDocumentOf(s, sale);
    var m := ControllerMovement(line, s.products[p], doc, user);
    var w2 := Written(s.products[p := s.products[p].(currentStock := 2)], [m, m]);
    OversellWrites(s, p, doc, user);
    assert ParsePaymentMethod(req.paymentMethod) == Some(Cash);
    assert ControllerSpec(s, req, now) == Ok((ControllerCommitted(s, w2, sale), |s.sales|));
    assert ControllerCommitted(s, w2, sale).sales[|s.sales|] == sale;
  }

  /** The sale `SnapshotOversell` records: its two lines pass validation
      against the snapshot, and it holds two items of 3 units. */
  lemma OversellSale(s: State, p: ProductId, user: UserId, now: Time)
    requires ValidState(s) && p in s.products && s.products[p].isActive && s.products[p].currentStock == 5
    requires s.products[p].sellingPrice == 100
    ensures var line := RequestItem(p, 3, None, None);
            var req := ControllerRequest(None, Some(user), Some([line, line]), "cash");
            var snap := ActiveSnapshot(s.products);
            && WellFormed(req) && FirstFailure(snap, [line, line]) == None && AllInSnapshot(snap, [line, line])
            && ValidSale(PricedSale(s, req, snap, Cash, now))
            && SoldQuantity(PricedSale(s, req, snap, Cash, now).items, p) == 6
  {
    var line := RequestItem(p, 3, None, None);
    var items := [line, line];
    var req := ControllerRequest(None, Some(user), Some(items), "cash");
    var snap := ActiveSnapshot(s.products);
    var si := SaleItem(p, 3, 100, 300, 0);
    assert p in snap && snap[p] == s.products[p];
    assert CheckItem(snap, line) == None;
    assert items[1..] == [line] && items[1..][1..] == [];
    assert FirstFailure(snap, items[1..]) == None;
    assert FirstFailure(snap, items) == None;
    FirstFailureNone(snap, items);
    assert PricedItem(snap, line) == si;
    RepeatedLinePricing(snap, line);
    var sale := PricedSale(s, req, snap, Cash, now);
    assert sale.items == [si, si];
    assert ValidSale(sale);
    assert [si, si][1..] == [si] && [si][1..] == [];
    assert SoldQuantity([si], p) == 3;
  }

  /** The writes of the two lines of `SnapshotOversell`: both set the stock
      to the snapshot's 5 minus 3. */
  lemma OversellWrites(s: State, p: ProductId, doc: Reference, user: UserId)
    requires ValidState(s) && p in s.products && s.products[p].isActive && s.products[p].currentStock == 5
    requires s.products[p].sellingPrice == 100
    ensures var line := RequestItem(p, 3, None, None);
            var snap := ActiveSnapshot(s.products);
            var m := ControllerMovement(line, s.products[p], doc, user);
            WriteAll(Written(s.products, []), snap, [line, line], doc, user)
            == Ok(Written(s.products[p := s.products[p].(currentStock := 2)], [m, m]))
  {
    var line := RequestItem(p, 3, None, None);
    var snap := ActiveSnapshot(s.products);
    assert p in snap && snap[p] == s.products[p];
    assert ValidProduct(s.products[p]);
    var st := Written(s.products, []);
    var m := ControllerMovement(line, snap[p], doc, user);
    assert ValidMovement(m);
    RepeatedLineWrite(st, snap, line, doc, user);
    assert [] + [m, m] == [m, m];
  }

  /** Pricing a line given twice. */
  lemma RepeatedLinePricing(snap: map<ProductId, Product>, it: RequestItem)
    requires it.product in snap
    ensures PricedItems(snap, [it, it]) == [PricedItem(snap, it), PricedItem(snap, it)]
    ensures GrossSubtotal(snap, [it, it]) == 2 * (UnitPrice(snap, it) * it.quantity)
    ensures DiscountTotal([it, it]) == 2 * OrZero(it.discount)
  {
    var items := [it, it];
    assert items[..1] == [it] && items[..1][..0] == [];
    assert GrossSubtotal(snap, items[..1]) == UnitPrice(snap, it) * it.quantity;
    assert DiscountTotal(items[..1]) == OrZero(it.discount);
  }

  /** Writing a line given twice: both writes set the same stock. */
  lemma RepeatedLineWrite(st: Written, snap: map<ProductId, Product>, it: RequestItem, doc: Reference, user: UserId)
    requires it.product in snap && it.product in st.products
    requires ValidMovement(ControllerMovement(it, snap[it.product], doc, user))
    ensures var m := ControllerMovement(it, snap[it.product], doc, user);
            var p := it.product;
            WriteAll(st, snap, [it, it], doc, user)
            == Ok(Written(st.products[p := st.products[p].(currentStock := snap[p].currentStock - it.quantity)], st.moves + [m, m]))
  {
    var items := [it, it];
    assert items[1..] == [it] && items[1..][1..] == [];
    var w1 := WriteItem(st, snap, it, doc, user).value;
    var w2 := WriteItem(w1, snap, it, doc, user).value;
    assert WriteAll(w2, snap, [], doc, user) == Ok(w2);
    assert [it][0] == it && [it][1..] == [];
    assert WriteAll(w1, snap, [it], doc, user) == Ok(w2);
    assert WriteAll(st, snap, items, doc, user) == Ok(w2);
    var m := ControllerMovement(it, snap[it.product], doc, user);
    var updated := st.products[it.product].(currentStock := snap[it.product].currentStock - it.quantity);
    assert w1.products == st.products[it.product := updated];
    assert w2.products == st.products[it.product := updated];
    assert w2.moves == st.moves + [m] + [m] == st.moves + [m, m];
  }

  /** The controller's movements do not follow the signed convention of
      the rest of the ledger: their new stock is the previous stock minus a
      positive quantity. Replaying them as recorded therefore fails. */
  lemma ControllerLedgerNotSigned(s: State, req: ControllerRequest, now: Time)
    requires ControllerSpec(s, req, now).Ok?
    ensures var s1 := ControllerSpec(s, req, now).value.0;
            && (forall k :: |s.movements| <= k < |s1.movements| ==>
                  s1.movements[k].quantity > 0 && s1.movements[k].newStock == s1.movements[k].previousStock - s1.movements[k].quantity
                  && !Signed(s1.movements[k]))
            && |s1.movements| > |s.movements|
            && Replay(StockMap(s.products), s1.movements[|s.movements|..]).None?
  {
    ControllerWrites(s, req, now);
    ControllerValidatesFirst(s, req, now);
    var s1 := ControllerSpec(s, req, now).value.0;
    var n := |s.movements|;
    forall k | n <= k < |s1.movements|
      ensures s1.movements[k].quantity > 0 && s1.movements[k].newStock == s1.movements[k].previousStock - s1.movements[k].quantity
    {
      var j := k - n;
      assert ItemOk(ActiveSnapshot(s.products), req.items.value[j]);
      assert s1.movements[n + j] == s1.movements[k];
    }
    var ms := s1.movements[n..];
    assert ms[0] == s1.movements[n];
  }

  /** The controller lowers a stock only to the snapshot stock minus a
      quantity the snapshot covered, so every product stays valid. */
  lemma ControllerProductsValid(s: State, req: ControllerRequest, now: Time)
    requires ValidState(s) && ControllerSpec(s, req, now).Ok?
    ensures var s1 := ControllerSpec(s, req, now).value.0;
            forall p :: p in s1.products ==> ValidProduct(s1.products[p])
  {
    ControllerWrites(s, req, now);
    ControllerValidatesFirst(s, req, now);
    var s1 := ControllerSpec(s, req, now).value.0;
    var items := req.items.value;
    forall p | p in s1.products ensures ValidProduct(s1.products[p]) {
      assert ValidProduct(s.products[p]);
      LastQuantityNamed(items, p);
      if LastQuantity(items, p).Some? {
        var k :| 0 <= k < |items| && items[k].product == p && items[k].quantity == LastQuantity(items, p).value;
        assert ItemOk(ActiveSnapshot(s.products), items[k]);
      }
    }
  }

  /** A controller movement of a line the validation accepted, for a
      product within its schema, has non-negative costs. */
  lemma ControllerMovementValid(it: RequestItem, p: Product, doc: Reference, user: UserId)
    requires ValidProduct(p) && it.quantity > 0
    ensures ValidMovement(ControllerMovement(it, p, doc, user))
  {
  }

  lemma AppendedMovesValid(before: seq<Movement>, after: seq<Movement>, snap: map<ProductId, Product>,
                           items: seq<RequestItem>, doc: Reference, user: UserId)
    requires forall k :: 0 <= k < |before| ==> ValidMovement(before[k])
    requires forall p :: p in snap ==> ValidProduct(snap[p])
    requires |after| == |before| + |items| && after[..|before|] == before
    requires forall k :: 0 <= k < |items| ==> ItemOk(snap, items[k])
    requires forall k :: 0 <= k < |items| ==>
               items[k].product in snap && after[|before| + k] == ControllerMovement(items[k], snap[items[k].product], doc, user)
    ensures forall k :: 0 <= k < |after| ==> ValidMovement(after[k])
  {
    forall k | 0 <= k < |after| ensures ValidMovement(after[k]) {
      if k < |before| {
        assert after[k] == after[..|before|][k];
      } else {
        var q := items[k - |before|];
        ControllerMovementValid(q, snap[q.product], doc, user);
      }
    }
  }

  /** Every movement the controller records has non-negative costs. */
  lemma ControllerMovementsValid(s: State, req: ControllerRequest, now: Time)
    requires ValidState(s) && ControllerSpec(s, req, now).Ok?
    ensures var s1 := ControllerSpec(s, req, now).value.0;
            forall k :: 0 <= k < |s1.movements| ==> ValidMovement(s1.movements[k])
  {
    var snap := ActiveSnapshot(s.products);
    var items := req.items.value;
    FirstFailureNone(snap, items);
    var pm := ParsePaymentMethod(req.paymentMethod).value;
    var sale := PricedSale(s, req, snap, pm, now);
    var doc := SaleDocumentOf(s, sale);
    var st := Written(s.products, []);
    WriteAllMoves(st, snap, items, doc, req.cashier.value);
    var w := WriteAll(st, snap, items, doc, req.cashier.value).value;
    var s1 := ControllerSpec(s, req, now).value.0;
    assert s1.movements == s.movements + w.moves;
    AppendedMovesValid(s.movements, s1.movements, snap, items, doc, req.cashier.value);
  }

  /** The sale the controller stores passed the sale schema, and the
      earlier sales stay as they were. */
  lemma ControllerSalesValid(s: State, req: ControllerRequest, now: Time)
    requires ValidState(s) && ControllerSpec(s, req, now).Ok?
    ensures var s1 := ControllerSpec(s, req, now).value.0;
            forall k :: 0 <= k < |s1.sales| ==> ValidSale(s1.sales[k])
  {
    var snap := ActiveSnapshot(s.products);
    var items := req.items.value;
    FirstFailureNone(snap, items);
    var pm := ParsePaymentMethod(req.paymentMethod).value;
    var sale := PricedSale(s, req, snap, pm, now);
    var w := WriteAll(Written(s.products, []), snap, items, SaleDocumentOf(s, sale), req.cashier.value).value;
    var s1 := ControllerSpec(s, req, now).value.0;
    assert s1.sales == s.sales + [sale];
    forall k | 0 <= k < |s1.sales| ensures ValidSale(s1.sales[k]) {
      if k < |s.sales| { assert s1.sales[k] == s.sales[k]; }
    }
  }

  /** A controller sale leaves every stored document within its schema. */
  lemma ControllerPreservesValid(s: State, req: ControllerRequest, now: Time)
    requires ValidState(s) && ControllerSpec(s, req, now).Ok?
    ensures ValidState(ControllerSpec(s, req, now).value.0)
  {
    ControllerProductsValid(s, req, now);
    ControllerMovementsValid(s, req, now);
    ControllerSalesValid(s, req, now);
  }

  /** A store whose sales carry V-000001, V-000002, ... in order still does
      after the controller creates a sale. */
  lemma ControllerKeepsNumbering(s: State, req: ControllerRequest, now: Time)
    requires ControllerSpec(s, req, now).Ok? && NumberedInOrder(s.sales)
    ensures NumberedInOrder(ControllerSpec(s, req, now).value.0.sales)
  {
    var snap := ActiveSnapshot(s.products);
    FirstFailureNone(snap, req.items.value);
    var sale := PricedSale(s, req, snap, ParsePaymentMethod(req.paymentMethod).value, now);
    assert ControllerSpec(s, req, now).value.0.sales == s.sales + [sale];
    NumberingExtends(s.sales, sale);
  }

  /** As written, `Sale.create` validates the document before the numbering
      hook runs, so the controller's draft is refused for every request. */
  lemma ControllerRefusedAsWritten(s: State, req: ControllerRequest, pm: PaymentMethod, now: Time)
    requires WellFormed(req) && AllInSnapshot(ActiveSnapshot(s.products), req.items.value)
    ensures var snap := ActiveSnapshot(s.products);
            var draft := ControllerDraft(req, pm, now, PricedItems(snap, req.items.value),
                                         GrossSubtotal(snap, req.items.value), DiscountTotal(req.items.value));
            SaveValidatingFirst(draft, s.sales) == None
  {
    var snap := ActiveSnapshot(s.products);
    UnnumberedRefusedAsWritten(ControllerDraft(req, pm, now, PricedItems(snap, req.items.value),
                                               GrossSubtotal(snap, req.items.value), DiscountTotal(req.items.value)), s.sales);
  }
}
