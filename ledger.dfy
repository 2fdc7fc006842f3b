/** The document store the routes work on: products, sales (in creation
    order), the append-only inventory-movement ledger and the customers
    whose purchase aggregates a sale updates.

    A route runs inside a transaction: it works on a copy of the store and
    writes the copy back only when every step succeeded, so a failed route
    leaves the store as it found it. */
module Ledger {
  import opened Common
  import opened Products
  import opened Movements
  import opened SaleModel

  /** The aggregate fields of backend/models/Customer.js that sales update. */
  datatype Customer = Customer(
    totalPurchases: int,
    currentCredit: int,
    creditLimit: int,
    lastPurchase: Option<Time>)

  /** The `availableCredit` virtual of the customer record. */
  function AvailableCredit(c: Customer): int {
    c.creditLimit - c.currentCredit
  }

  datatype State = State(
    products: map<ProductId, Product>,
    sales: seq<Sale>,
    movements: seq<Movement>,
    customers: map<CustomerId, Customer>)

  /** Every stored document satisfies its schema's validators. */
  predicate ValidState(s: State) {
    && (forall p :: p in s.products ==> ValidProduct(s.products[p]))
    && (forall k :: 0 <= k < |s.sales| ==> ValidSale(s.sales[k]))
    && (forall k :: 0 <= k < |s.movements| ==> ValidMovement(s.movements[k]))
  }

  /** The current stock of every product. */
  function StockMap(products: map<ProductId, Product>): (r: map<ProductId, int>)
    ensures r.Keys == products.Keys
    ensures forall p :: p in r ==> r[p] == products[p].currentStock
  {
    map p | p in products :: products[p].currentStock
  }

  /** Applies movements in order to a stock table. Each movement must start
      from the stock its product has at that point and end at its previous
      stock plus its signed quantity; otherwise the ledger does not replay. */
  function Replay(stocks: map<ProductId, int>, ms: seq<Movement>): Option<map<ProductId, int>>
    decreases |ms|
  {
    if ms == [] then Some(stocks)
    else
      var m := ms[0];
      if m.product in stocks && stocks[m.product] == m.previousStock && Signed(m)
      then Replay(stocks[m.product := m.newStock], ms[1..])
      else None
  }

  /** The signed sum of the quantities the movements record for `p`. */
  function NetQuantity(ms: seq<Movement>, p: ProductId): int
    decreases |ms|
  {
    if ms == [] then 0 else (if ms[0].product == p then ms[0].quantity else 0) + NetQuantity(ms[1..], p)
  }

  /** Replaying two stretches of ledger one after the other is replaying
      their concatenation. */
  lemma {:induction false} ReplayAppend(stocks: map<ProductId, int>, a: seq<Movement>, b: seq<Movement>)
    ensures Replay(stocks, a + b) == match Replay(stocks, a) case None => None case Some(t) => Replay(t, b)
    decreases |a|
  {
    if a != [] {
      assert (a + b)[0] == a[0] && (a + b)[1..] == a[1..] + b;
      var m := a[0];
      if m.product in stocks && stocks[m.product] == m.previousStock && Signed(m) {
        ReplayAppend(stocks[m.product := m.newStock], a[1..], b);
      }
    } else {
      assert a + b == b;
    }
  }

  /** Conservation: when a ledger replays, every product ends at its
      starting stock plus the signed sum of its movements, and no product
      appears or disappears. */
  lemma {:induction false} ReplayConserves(stocks: map<ProductId, int>, ms: seq<Movement>)
    requires Replay(stocks, ms).Some?
    ensures Replay(stocks, ms).value.Keys == stocks.Keys
    ensures forall p :: p in stocks ==> Replay(stocks, ms).value[p] == stocks[p] + NetQuantity(ms, p)
    decreases |ms|
  {
    if ms != [] {
      var m := ms[0];
      ReplayConserves(stocks[m.product := m.newStock], ms[1..]);
    }
  }

  /** Concatenating ledgers adds their net quantities. */
  lemma {:induction false} NetQuantityAppend(a: seq<Movement>, b: seq<Movement>, p: ProductId)
    ensures NetQuantity(a + b, p) == NetQuantity(a, p) + NetQuantity(b, p)
    decreases |a|
  {
    if a == [] {
      assert a + b == b;
    } else {
      assert (a + b)[0] == a[0] && (a + b)[1..] == a[1..] + b;
      NetQuantityAppend(a[1..], b, p);
    }
  }

  /** The store. Each field is a collection of the document store; routes
      read them, work on copies and write the copies back on commit. */
  class Database {
    var products: map<ProductId, Product>
    var sales: seq<Sale>
    var movements: seq<Movement>
    var customers: map<CustomerId, Customer>

    function Snapshot(): State
      reads this
    {
      State(products, sales, movements, customers)
    }

    ghost predicate Valid()
      reads this
    {
      ValidState(Snapshot())
    }

    /** A store holding the given catalogue and customers, with no sale and
        an empty ledger. */
    constructor (products: map<ProductId, Product>, customers: map<CustomerId, Customer>)
      requires forall p :: p in products ==> ValidProduct(products[p])
      ensures Valid()
      ensures Snapshot() == State(products, [], [], customers)
    {
      this.products := products;
      this.sales := [];
      this.movements := [];
      this.customers := customers;
    }

    /** Commits a transaction: the store becomes the working copy. */
    method Commit(s: State)
      modifies this
      ensures Snapshot() == s
    {
      products, sales, movements, customers := s.products, s.sales, s.movements, s.customers;
    }
  }
}
