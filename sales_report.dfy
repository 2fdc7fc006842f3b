/** `GET /api/sales/reports/daily` of backend/routes/sales.js: the completed
    sales of one day, their count and total, and two dictionaries filled in
    one pass — the amount per payment method, and the count and amount per
    cashier name. */
module SalesReport {
  import opened Common
  import opened SaleModel
  import opened Ledger

  /** The query: the completed sales created between `start` and `end`
      (both inclusive), in store order. */
  function DaySales(sales: seq<Sale>, start: Time, end: Time): (r: seq<Sale>)
    ensures |r| <= |sales|
    ensures forall k :: 0 <= k < |r| ==> r[k].status == Completed && start <= r[k].createdAt <= end
    decreases |sales|
  {
    if sales == [] then []
    else
      var last := sales[|sales| - 1];
      DaySales(sales[..|sales| - 1], start, end)
        + (if last.status == Completed && start <= last.createdAt <= end then [last] else [])
  }

  /** Sum of the sales' totals (the `reduce`). */
  function TotalAmount(sales: seq<Sale>): int
    decreases |sales|
  {
    if sales == [] then 0 else TotalAmount(sales[..|sales| - 1]) + sales[|sales| - 1].totals.total
  }

  datatype CashierTally = CashierTally(count: nat, amount: int)

  datatype Summary = Summary(
    totalSales: nat,
    totalAmount: int,
    paymentMethods: map<PaymentMethod, int>,
    salesByCashier: map<string, CashierTally>)

  /** `(dict[key] || 0) + amount`. */
  function AddAmount(d: map<PaymentMethod, int>, key: PaymentMethod, amount: int): map<PaymentMethod, int> {
    d[key := (if key in d then d[key] else 0) + amount]
  }

  function AddSale(d: map<string, CashierTally>, name: string, amount: int): map<string, CashierTally> {
    var t := if name in d then d[name] else CashierTally(0, 0);
    d[name := CashierTally(t.count + 1, t.amount + amount)]
  }

  /** The `forEach` over the sales. `names` maps a user to its `fullName`;
      a sale whose cashier does not populate makes `sale.cashier.fullName`
      throw, and the report fails. */
  function Tally(sales: seq<Sale>, names: map<UserId, string>): Result<(map<PaymentMethod, int>, map<string, CashierTally>)>
    decreases |sales|
  {
    if sales == [] then Ok((map[], map[]))
    else
      match Tally(sales[..|sales| - 1], names)
      case Err(e) => Err(e)
      case Ok(acc) =>
        var last := sales[|sales| - 1];
        if last.cashier !in names then Err(MissingCashier(last.cashier))
        else Ok((AddAmount(acc.0, last.paymentMethod, last.totals.total),
                 AddSale(acc.1, names[last.cashier], last.totals.total)))
  }

  function DailySummarySpec(sales: seq<Sale>, names: map<UserId, string>, start: Time, end: Time): Result<Summary> {
    var day := DaySales(sales, start, end);
    match Tally(day, names)
    case Err(e) => Err(e)
    case Ok(acc) => Ok(Summary(|day|, TotalAmount(day), acc.0, acc.1))
  }

  method DailySummary(db: Database, names: map<UserId, string>, start: Time, end: Time) returns (r: Result<Summary>)
    ensures r == DailySummarySpec(db.Snapshot().sales, names, start, end)
  {
    var sales := DaySales(db.sales, start, end);
    var paymentMethods: map<PaymentMethod, int> := map[];
    var salesByCashier: map<string, CashierTally> := map[];
    var i := 0;
    while i < |sales|
      invariant 0 <= i <= |sales|
      invariant Tally(sales[..i], names) == Ok((paymentMethods, salesByCashier))
    {
      var sale := sales[i];
      assert sales[..i + 1][..i] == sales[..i] && sales[..i + 1][i] == sale;
      paymentMethods := paymentMethods[sale.paymentMethod :=
        (if sale.paymentMethod in paymentMethods then paymentMethods[sale.paymentMethod] else 0) + sale.totals.total];
      if sale.cashier !in names {
        TallyExtendsError(sales, names, i + 1);
        return Err(MissingCashier(sale.cashier));
      }
      var cashierName := names[sale.cashier];
      if cashierName !in salesByCashier {
        salesByCashier := salesByCashier[cashierName := CashierTally(0, 0)];
      }
      var t := salesByCashier[cashierName];
      ghost var before := Tally(sales[..i], names).value.1;
      salesByCashier := salesByCashier[cashierName := CashierTally(t.count + 1, t.amount + sale.totals.total)];
      assert salesByCashier == AddSale(before, cashierName, sale.totals.total);
      assert Tally(sales[..i + 1], names) == Ok((paymentMethods, salesByCashier));
      i := i + 1;
    }
    assert sales[..i] == sales;
    r := Ok(Summary(|sales|, TotalAmount(sales), paymentMethods, salesByCashier));
  }

  // ---------------------------------------------------------------------
  // Reference definitions: the sales of one payment method or one cashier.

  function WithMethod(sales: seq<Sale>, m: PaymentMethod): seq<Sale>
    decreases |sales|
  {
    if sales == [] then []
    else
      var last := sales[|sales| - 1];
      WithMethod(sales[..|sales| - 1], m) + (if last.paymentMethod == m then [last] else [])
  }

  /** The sales whose cashier has the full name `name`. */
  function WithCashier(sales: seq<Sale>, names: map<UserId, string>, name: string): seq<Sale>
    decreases |sales|
  {
    if sales == [] then []
    else
      var last := sales[|sales| - 1];
      WithCashier(sales[..|sales| - 1], names, name)
        + (if last.cashier in names && names[last.cashier] == name then [last] else [])
  }

  /** The first failing sale decides the report's error. */
  lemma {:induction false} TallyExtendsError(sales: seq<Sale>, names: map<UserId, string>, j: nat)
    requires j <= |sales| && Tally(sales[..j], names).Err?
    ensures Tally(sales, names) == Tally(sales[..j], names)
    decreases |sales| - j
  {
    if j < |sales| {
      var init := sales[..|sales| - 1];
      assert init[..j] == sales[..j];
      TallyExtendsError(init, names, j);
    } else {
      assert sales[..j] == sales;
    }
  }

  lemma TotalAmountAppend(a: seq<Sale>, x: Sale)
    ensures TotalAmount(a + [x]) == TotalAmount(a) + x.totals.total
  {
    assert (a + [x])[..|a|] == a;
  }

  /** The report succeeds exactly when every sale of the day has a cashier
      whose name populates. */
  lemma {:induction false} TallySucceedsIff(sales: seq<Sale>, names: map<UserId, string>)
    ensures Tally(sales, names).Ok? <==> forall k :: 0 <= k < |sales| ==> sales[k].cashier in names
    decreases |sales|
  {
    if sales != [] {
      var init := sales[..|sales| - 1];
      TallySucceedsIff(init, names);
      assert forall k :: 0 <= k < |init| ==> init[k] == sales[k];
    }
  }

  /** Unfolding the tally by its last sale. */
  lemma TallyStep(sales: seq<Sale>, names: map<UserId, string>)
    requires sales != [] && Tally(sales, names).Ok?
    ensures var init, last := sales[..|sales| - 1], sales[|sales| - 1];
            && Tally(init, names).Ok? && last.cashier in names
            && Tally(sales, names).value.0 == AddAmount(Tally(init, names).value.0, last.paymentMethod, last.totals.total)
            && Tally(sales, names).value.1 == AddSale(Tally(init, names).value.1, names[last.cashier], last.totals.total)
  {
  }

  /** The amount recorded for a payment method is the total of that
      method's sales, and a method appears as a key exactly when one of the
      sales used it. */
  lemma {:induction false} TallyByMethod(sales: seq<Sale>, names: map<UserId, string>, m: PaymentMethod)
    requires Tally(sales, names).Ok?
    ensures var pm := Tally(sales, names).value.0;
            && (m in pm <==> WithMethod(sales, m) != [])
            && (m in pm ==> pm[m] == TotalAmount(WithMethod(sales, m)))
    decreases |sales|
  {
    if sales != [] {
      var init, last := sales[..|sales| - 1], sales[|sales| - 1];
      TallyStep(sales, names);
      TallyByMethod(init, names, m);
      if last.paymentMethod == m {
        assert WithMethod(sales, m) == WithMethod(init, m) + [last];
        TotalAmountAppend(WithMethod(init, m), last);
      } else {
        assert WithMethod(sales, m) == WithMethod(init, m);
      }
    }
  }

  /** The count and amount recorded for a cashier name are the number and
      total of that cashier's sales, and a name appears as a key exactly
      when one of the sales was made by a cashier of that name. */
  lemma {:induction false} TallyByCashier(sales: seq<Sale>, names: map<UserId, string>, name: string)
    requires Tally(sales, names).Ok?
    ensures var bc := Tally(sales, names).value.1;
            && (name in bc <==> WithCashier(sales, names, name) != [])
            && (name in bc ==> bc[name] == CashierTally(|WithCashier(sales, names, name)|,
                                                        TotalAmount(WithCashier(sales, names, name))))
    decreases |sales|
  {
    if sales != [] {
      var init, last := sales[..|sales| - 1], sales[|sales| - 1];
      TallyStep(sales, names);
      TallyByCashier(init, names, name);
      if names[last.cashier] == name {
        TotalAmountAppend(WithCashier(init, names, name), last);
      } else {
        assert WithCashier(sales, names, name) == WithCashier(init, names, name);
      }
    }
  }

  /** Splitting the sales by payment method loses no amount: the five
      methods' totals add up to the day's total. */
  lemma {:induction false} MethodsCoverTotal(sales: seq<Sale>)
    ensures TotalAmount(WithMethod(sales, Cash)) + TotalAmount(WithMethod(sales, Card))
            + TotalAmount(WithMethod(sales, BankTransfer)) + TotalAmount(WithMethod(sales, Credit))
            + TotalAmount(WithMethod(sales, Mixed)) == TotalAmount(sales)
    decreases |sales|
  {
    if sales != [] {
      var init, last := sales[..|sales| - 1], sales[|sales| - 1];
      MethodsCoverTotal(init);
      forall m: PaymentMethod
        ensures TotalAmount(WithMethod(sales, m))
                == TotalAmount(WithMethod(init, m)) + (if last.paymentMethod == m then last.totals.total else 0)
      {
        if last.paymentMethod == m {
          TotalAmountAppend(WithMethod(init, m), last);
        } else {
          assert WithMethod(sales, m) == WithMethod(init, m);
        }
      }
    }
  }

  /** The report's dictionaries agree with its headline numbers: the
      per-method amounts (0 for an absent key) add up to `totalAmount`. */
  lemma SummaryConsistent(sales: seq<Sale>, names: map<UserId, string>, start: Time, end: Time)
    requires DailySummarySpec(sales, names, start, end).Ok?
    ensures var r := DailySummarySpec(sales, names, start, end).value;
            var get := (m: PaymentMethod) => if m in r.paymentMethods then r.paymentMethods[m] else 0;
            get(Cash) + get(Card) + get(BankTransfer) + get(Credit) + get(Mixed) == r.totalAmount
  {
    var day := DaySales(sales, start, end);
    TallyByMethod(day, names, Cash);
    TallyByMethod(day, names, Card);
    TallyByMethod(day, names, BankTransfer);
    TallyByMethod(day, names, Credit);
    TallyByMethod(day, names, Mixed);
    MethodsCoverTotal(day);
  }

  /** Only completed sales of the day enter the report, and all of them. */
  lemma {:induction false} DaySalesComplete(sales: seq<Sale>, start: Time, end: Time, x: Sale)
    ensures x in DaySales(sales, start, end) <==> x in sales && x.status == Completed && start <= x.createdAt <= end
    decreases |sales|
  {
    if sales != [] {
      var init := sales[..|sales| - 1];
      DaySalesComplete(init, start, end, x);
      assert sales == init + [sales[|sales| - 1]];
    }
  }
}
