/** The storefront cart of frontend/src/contexts/CartContext.jsx: a list of
    lines keyed by product id. Each operation returns a new list (React's
    `setItems` only swaps it in), and the total and the item count are
    folds over the list. */
module Cart {
  import opened Common

  datatype Line = Line(productId: ProductId, name: string, price: int, quantity: int, image: Option<string>)

  /** The fields of a catalogue product that `add` reads. */
  datatype CatalogueProduct = CatalogueProduct(id: ProductId, name: string, price: Option<int>, image: Option<string>)

  type Items = seq<Line>

  /** `prev.find(x => x.productId === id)` finds a line. */
  predicate Has(cart: Items, id: ProductId) {
    exists k :: 0 <= k < |cart| && cart[k].productId == id
  }

  /** At most one line per product id. */
  predicate UniqueIds(cart: Items) {
    forall i, j :: 0 <= i < j < |cart| ==> cart[i].productId != cart[j].productId
  }

  /** `prev.map(x => x.productId === id ? { ...x, quantity: x.quantity + q } : x)` */
  function Bump(cart: Items, id: ProductId, q: int): Items {
    seq(|cart|, k requires 0 <= k < |cart| =>
      if cart[k].productId == id then cart[k].(quantity := cart[k].quantity + q) else cart[k])
  }

  /** `prev.map(x => x.productId === id ? { ...x, quantity } : x)` */
  function SetQuantity(cart: Items, id: ProductId, q: int): Items {
    seq(|cart|, k requires 0 <= k < |cart| =>
      if cart[k].productId == id then cart[k].(quantity := q) else cart[k])
  }

  /** The line `add` appends: `product.price || 0`, `product.image || null`. */
  function NewLine(p: CatalogueProduct, q: int): Line {
    Line(p.id, p.name, OrZero(p.price),
         q, if p.image.Some? && p.image.value != "" then p.image else None)
  }

  /** `add(product, quantity)` (the caller passes 1 when the quantity is
      omitted). */
  function Add(cart: Items, p: CatalogueProduct, q: int): Items {
    if Has(cart, p.id) then Bump(cart, p.id, q) else cart + [NewLine(p, q)]
  }

  /** `remove(productId)`: `prev.filter(x => x.productId !== productId)`. */
  function Remove(cart: Items, id: ProductId): Items
    decreases |cart|
  {
    if cart == [] then []
    else (if cart[0].productId == id then [] else [cart[0]]) + Remove(cart[1..], id)
  }

  /** `updateQuantity(productId, quantity)`. */
  function UpdateQuantity(cart: Items, id: ProductId, q: int): Items {
    if q <= 0 then Remove(cart, id) else SetQuantity(cart, id, q)
  }

  /** `clear()`. */
  function Clear(): (r: Items)
    ensures |r| == 0
  {
    []
  }

  /** `items.reduce((sum, item) => sum + item.quantity * item.price, 0)` */
  function Total(cart: Items): int
    decreases |cart|
  {
    if cart == [] then 0 else Total(cart[..|cart| - 1]) + cart[|cart| - 1].quantity * cart[|cart| - 1].price
  }

  /** `items.reduce((sum, item) => sum + item.quantity, 0)` */
  function ItemCount(cart: Items): int
    decreases |cart|
  {
    if cart == [] then 0 else ItemCount(cart[..|cart| - 1]) + cart[|cart| - 1].quantity
  }

  // ---------------------------------------------------------------------
  // add

  /** Adding a product already in the cart raises the quantity of its line
      by `q`, leaves every other line and every other field (the price
      included) as it was, and adds no line. */
  lemma AddExisting(cart: Items, p: CatalogueProduct, q: int)
    requires Has(cart, p.id)
    ensures |Add(cart, p, q)| == |cart|
    ensures forall k :: 0 <= k < |cart| && cart[k].productId == p.id ==>
              Add(cart, p, q)[k] == cart[k].(quantity := cart[k].quantity + q)
    ensures forall k :: 0 <= k < |cart| && cart[k].productId != p.id ==> Add(cart, p, q)[k] == cart[k]
  {
  }

  /** Adding a product not in the cart appends exactly one line, with
      quantity `q` and the product's price (0 when it has none). */
  lemma AddNew(cart: Items, p: CatalogueProduct, q: int)
    requires !Has(cart, p.id)
    ensures |Add(cart, p, q)| == |cart| + 1
    ensures Add(cart, p, q)[..|cart|] == cart
    ensures var l := Add(cart, p, q)[|cart|];
            l.productId == p.id && l.name == p.name && l.quantity == q
            && l.price == (if p.price.Some? then p.price.value else 0)
  {
    assert (cart + [NewLine(p, q)])[..|cart|] == cart;
  }

  /** After `add` the product has a line, and the ids stay unique. */
  lemma AddKeepsUnique(cart: Items, p: CatalogueProduct, q: int)
    requires UniqueIds(cart)
    ensures UniqueIds(Add(cart, p, q))
    ensures Has(Add(cart, p, q), p.id)
  {
    var r := Add(cart, p, q);
    if !Has(cart, p.id) {
      assert r[|cart|].productId == p.id;
      forall i, j | 0 <= i < j < |r| ensures r[i].productId != r[j].productId {
        if j == |cart| {
          assert r[i] == cart[i];
        } else {
          assert r[i] == cart[i] && r[j] == cart[j];
        }
      }
    } else {
      var k :| 0 <= k < |cart| && cart[k].productId == p.id;
      assert r[k].productId == p.id;
    }
  }

  // ---------------------------------------------------------------------
  // remove

  /** The lines after `remove` are the cart's lines of other products, in
      their order: every kept line is one of the cart's, none has the
      id, and the lines of other products all survive. */
  lemma {:induction false} RemoveFilters(cart: Items, id: ProductId)
    ensures forall x :: x in Remove(cart, id) <==> x in cart && x.productId != id
    ensures !Has(Remove(cart, id), id)
    ensures |Remove(cart, id)| <= |cart|
    decreases |cart|
  {
    if cart != [] {
      RemoveFilters(cart[1..], id);
      forall x ensures x in cart <==> x == cart[0] || x in cart[1..] {
        assert cart == [cart[0]] + cart[1..];
      }
    }
  }

  /** Removing a product that has no line changes nothing. */
  lemma {:induction false} RemoveAbsent(cart: Items, id: ProductId)
    requires !Has(cart, id)
    ensures Remove(cart, id) == cart
    decreases |cart|
  {
    if cart != [] {
      assert cart[0].productId != id;
      assert forall j :: 0 <= j < |cart| - 1 ==> cart[1..][j] == cart[j + 1];
      RemoveAbsent(cart[1..], id);
      assert [cart[0]] + cart[1..] == cart;
    }
  }

  /** In a cart with one line per product, `remove` cuts out exactly that
      line and keeps the others in order. */
  lemma {:induction false} RemoveCutsLine(cart: Items, id: ProductId, k: nat)
    requires UniqueIds(cart) && k < |cart| && cart[k].productId == id
    ensures Remove(cart, id) == cart[..k] + cart[k + 1..]
    decreases k
  {
    if k == 0 {
      assert forall j :: 0 <= j < |cart| - 1 ==> cart[1..][j] == cart[j + 1];
      RemoveAbsent(cart[1..], id);
    } else {
      var tail := cart[1..];
      assert UniqueIds(tail) by {
        forall i, j | 0 <= i < j < |tail| ensures tail[i].productId != tail[j].productId {
          assert tail[i] == cart[i + 1] && tail[j] == cart[j + 1];
        }
      }
      assert cart[0].productId != id;
      RemoveCutsLine(tail, id, k - 1);
      assert cart[..k] == [cart[0]] + tail[..k - 1];
      assert cart[k + 1..] == tail[k..];
    }
  }

  /** `remove` keeps the ids unique. */
  lemma {:induction false} RemoveKeepsUnique(cart: Items, id: ProductId)
    requires UniqueIds(cart)
    ensures UniqueIds(Remove(cart, id))
  {
    if Has(cart, id) {
      var k :| 0 <= k < |cart| && cart[k].productId == id;
      RemoveCutsLine(cart, id, k);
      var r := cart[..k] + cart[k + 1..];
      forall i, j | 0 <= i < j < |r| ensures r[i].productId != r[j].productId {
        var i' := if i < k then i else i + 1;
        var j' := if j < k then j else j + 1;
        assert r[i] == cart[i'] && r[j] == cart[j'];
      }
    } else {
      RemoveAbsent(cart, id);
    }
  }

  // ---------------------------------------------------------------------
  // updateQuantity and clear

  /** A positive quantity replaces the quantity of the product's line and
      touches nothing else; a quantity of zero or less removes the line. */
  lemma UpdateQuantityEffect(cart: Items, id: ProductId, q: int)
    ensures q <= 0 ==> UpdateQuantity(cart, id, q) == Remove(cart, id) && !Has(UpdateQuantity(cart, id, q), id)
    ensures q > 0 ==> |UpdateQuantity(cart, id, q)| == |cart|
    ensures q > 0 ==> forall k :: 0 <= k < |cart| ==>
              UpdateQuantity(cart, id, q)[k] == if cart[k].productId == id then cart[k].(quantity := q) else cart[k]
  {
    if q <= 0 {
      RemoveFilters(cart, id);
    }
  }

  /** `updateQuantity` keeps the ids unique. */
  lemma UpdateQuantityKeepsUnique(cart: Items, id: ProductId, q: int)
    requires UniqueIds(cart)
    ensures UniqueIds(UpdateQuantity(cart, id, q))
  {
    if q <= 0 {
      RemoveKeepsUnique(cart, id);
    } else {
      var r := UpdateQuantity(cart, id, q);
      assert forall k :: 0 <= k < |cart| ==> r[k].productId == cart[k].productId;
    }
  }

  /** The emptied cart has no lines, a total of 0 and no items. */
  lemma ClearEmpties()
    ensures Total(Clear()) == 0 && ItemCount(Clear()) == 0
    ensures forall id :: !Has(Clear(), id)
  {
  }

  // ---------------------------------------------------------------------
  // total and itemCount

  /** The amount of the lines of one product (0 if it has none). */
  function AmountOf(cart: Items, id: ProductId): int
    decreases |cart|
  {
    if cart == [] then 0
    else
      var l := cart[|cart| - 1];
      AmountOf(cart[..|cart| - 1], id) + (if l.productId == id then l.quantity * l.price else 0)
  }

  function QuantityOf(cart: Items, id: ProductId): int
    decreases |cart|
  {
    if cart == [] then 0
    else
      var l := cart[|cart| - 1];
      QuantityOf(cart[..|cart| - 1], id) + (if l.productId == id then l.quantity else 0)
  }

  /** The summed price of the lines of one product. */
  function PriceOf(cart: Items, id: ProductId): int
    decreases |cart|
  {
    if cart == [] then 0
    else
      var l := cart[|cart| - 1];
      PriceOf(cart[..|cart| - 1], id) + (if l.productId == id then l.price else 0)
  }

  /** The folds are additive over the split of a cart. */
  lemma {:induction false} FoldsAppend(a: Items, b: Items)
    ensures Total(a + b) == Total(a) + Total(b)
    ensures ItemCount(a + b) == ItemCount(a) + ItemCount(b)
    decreases |b|
  {
    if b == [] {
      assert a + b == a;
    } else {
      var init := b[..|b| - 1];
      FoldsAppend(a, init);
      assert (a + b)[..|a + b| - 1] == a + init;
    }
  }

  /** Removing a product lowers the total by that product's amount and the
      count by its quantity. */
  lemma {:induction false} RemoveTotals(cart: Items, id: ProductId)
    ensures Total(Remove(cart, id)) == Total(cart) - AmountOf(cart, id)
    ensures ItemCount(Remove(cart, id)) == ItemCount(cart) - QuantityOf(cart, id)
    decreases |cart|
  {
    if cart != [] {
      var x, tail := cart[0], cart[1..];
      RemoveTotals(tail, id);
      FoldsAppend([x], tail);
      FoldsAppend(if x.productId == id then [] else [x], Remove(tail, id));
      FrontSplit(cart, id);
      assert [x] + tail == cart;
    }
  }

  /** The per-product folds, taken from the front. */
  lemma {:induction false} FrontSplit(cart: Items, id: ProductId)
    requires cart != []
    ensures AmountOf(cart, id) == AmountOf([cart[0]], id) + AmountOf(cart[1..], id)
    ensures QuantityOf(cart, id) == QuantityOf([cart[0]], id) + QuantityOf(cart[1..], id)
    ensures PriceOf(cart, id) == PriceOf([cart[0]], id) + PriceOf(cart[1..], id)
    decreases |cart|
  {
    if |cart| > 1 {
      var init := cart[..|cart| - 1];
      FrontSplit(init, id);
      assert init[1..] == cart[1..][..|cart[1..]| - 1];
      assert [cart[0]][..0] == [];
    } else {
      assert cart[1..] == [];
      assert [cart[0]] == cart;
    }
  }

  lemma BumpPrefix(cart: Items, id: ProductId, q: int)
    requires cart != []
    ensures Bump(cart, id, q)[..|cart| - 1] == Bump(cart[..|cart| - 1], id, q)
  {
  }

  /** Raising a product's lines by `q` raises the count by `q` per line. */
  lemma {:induction false} BumpCount(cart: Items, id: ProductId, q: int)
    ensures ItemCount(Bump(cart, id, q)) == ItemCount(cart) + q * LineCount(cart, id)
    decreases |cart|
  {
    if cart != [] {
      var init := cart[..|cart| - 1];
      BumpCount(init, id, q);
      BumpPrefix(cart, id, q);
      var c := if cart[|cart| - 1].productId == id then 1 else 0;
      assert q * (LineCount(init, id) + c) == q * LineCount(init, id) + q * c;
    }
  }

  /** ... and the total by `q` times the lines' summed price. */
  lemma {:induction false} BumpTotal(cart: Items, id: ProductId, q: int)
    ensures Total(Bump(cart, id, q)) == Total(cart) + q * PriceOf(cart, id)
    decreases |cart|
  {
    if cart != [] {
      var init, l := cart[..|cart| - 1], cart[|cart| - 1];
      BumpTotal(init, id, q);
      BumpPrefix(cart, id, q);
      var b := Bump(cart, id, q)[|cart| - 1];
      var c := if l.productId == id then l.price else 0;
      assert b.quantity * b.price == l.quantity * l.price + q * c by {
        if l.productId == id {
          assert b == l.(quantity := l.quantity + q);
          assert (l.quantity + q) * l.price == l.quantity * l.price + q * l.price;
        }
      }
      assert q * (PriceOf(init, id) + c) == q * PriceOf(init, id) + q * c;
    }
  }

  /** The number of lines of one product. */
  function LineCount(cart: Items, id: ProductId): (n: nat)
    ensures n <= |cart|
    decreases |cart|
  {
    if cart == [] then 0
    else LineCount(cart[..|cart| - 1], id) + (if cart[|cart| - 1].productId == id then 1 else 0)
  }

  /** With one line per product, a product in the cart has one line. */
  lemma {:induction false} UniqueLineCount(cart: Items, id: ProductId, k: nat)
    requires UniqueIds(cart) && k < |cart| && cart[k].productId == id
    ensures LineCount(cart, id) == 1 && PriceOf(cart, id) == cart[k].price
    decreases |cart|
  {
    var init := cart[..|cart| - 1];
    assert UniqueIds(init);
    if k == |cart| - 1 {
      AbsentCounts(init, id);
    } else {
      UniqueLineCount(init, id, k);
    }
  }

  lemma {:induction false} AbsentCounts(cart: Items, id: ProductId)
    requires forall k :: 0 <= k < |cart| ==> cart[k].productId != id
    ensures LineCount(cart, id) == 0 && PriceOf(cart, id) == 0
    decreases |cart|
  {
    if cart != [] {
      AbsentCounts(cart[..|cart| - 1], id);
    }
  }

  /** In a cart with one line per product, `add` raises the item count by
      exactly `q`, and the total by `q` times the line's price: the price
      already in the cart when the product is there, `product.price || 0`
      when it is new. */
  lemma AddTotals(cart: Items, p: CatalogueProduct, q: int)
    requires UniqueIds(cart)
    ensures ItemCount(Add(cart, p, q)) == ItemCount(cart) + q
    ensures Has(cart, p.id) ==> exists k :: 0 <= k < |cart| && cart[k].productId == p.id
                                   && Total(Add(cart, p, q)) == Total(cart) + q * cart[k].price
    ensures !Has(cart, p.id) ==> Total(Add(cart, p, q)) == Total(cart) + q * OrZero(p.price)
  {
    if Has(cart, p.id) {
      var k :| 0 <= k < |cart| && cart[k].productId == p.id;
      UniqueLineCount(cart, p.id, k);
      BumpCount(cart, p.id, q);
      BumpTotal(cart, p.id, q);
    } else {
      FoldsAppend(cart, [NewLine(p, q)]);
      assert [NewLine(p, q)][..0] == [];
    }
  }

  /** A worked cart: two of a 1000 product, one of a 2500 product, then one
      more of the first; the first line grows to 3 and the total is 5500. */
  lemma CartExample()
    ensures var a := CatalogueProduct(1, "cable", Some(1000), None);
            var b := CatalogueProduct(2, "mouse", Some(2500), Some(""));
            var c := Add(Add(Add([], a, 2), b, 1), a, 1);
            c == [Line(1, "cable", 1000, 3, None), Line(2, "mouse", 2500, 1, None)]
            && Total(c) == 5500 && ItemCount(c) == 4
  {
    var a := CatalogueProduct(1, "cable", Some(1000), None);
    var b := CatalogueProduct(2, "mouse", Some(2500), Some(""));
    var c1 := Add([], a, 2);
    assert c1 == [Line(1, "cable", 1000, 2, None)];
    var c2 := Add(c1, b, 1);
    assert !Has(c1, 2);
    assert c2 == [Line(1, "cable", 1000, 2, None), Line(2, "mouse", 2500, 1, None)];
    assert Has(c2, 1) by { assert c2[0].productId == 1; }
    var c3 := Add(c2, a, 1);
    assert c3 == [Line(1, "cable", 1000, 3, None), Line(2, "mouse", 2500, 1, None)];
    assert c3[..1] == [c3[0]];
  }
}
