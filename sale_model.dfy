/** The sale record of backend/models/Sale.js: line items, totals, the
    status and payment enums, the refund sub-record and the `pre('save')`
    hook that numbers sales `V-000001`, `V-000002`, ... */
module SaleModel {
  import opened Common

  datatype PaymentMethod = Cash | Card | BankTransfer | Credit | Mixed
  {
    function Name(): string {
      match this
      case Cash => "cash"
      case Card => "card"
      case BankTransfer => "transfer"
      case Credit => "credit"
      case Mixed => "mixed"
    }
  }

  /** The `enum` check on `paymentMethod` (also the request validator of the
      sales route): only the five listed names are accepted. */
  function ParsePaymentMethod(s: string): (r: Option<PaymentMethod>)
    ensures r.Some? ==> r.value.Name() == s
  {
    if s == "cash" then Some(Cash)
    else if s == "card" then Some(Card)
    else if s == "transfer" then Some(BankTransfer)
    else if s == "credit" then Some(Credit)
    else if s == "mixed" then Some(Mixed)
    else None
  }

  lemma ParsePaymentMethodName(m: PaymentMethod)
    ensures ParsePaymentMethod(m.Name()) == Some(m)
  {
  }

  /** `status`, whose schema default is `completed`. */
  datatype SaleStatus = Completed | Cancelled | Refunded | Pending
  {
    function Name(): string {
      match this
      case Completed => "completed"
      case Cancelled => "cancelled"
      case Refunded => "refunded"
      case Pending => "pending"
    }
  }

  const DefaultStatus: SaleStatus := Completed

  function ParseSaleStatus(s: string): (r: Option<SaleStatus>)
    ensures r.Some? ==> r.value.Name() == s
  {
    if s == "completed" then Some(Completed)
    else if s == "cancelled" then Some(Cancelled)
    else if s == "refunded" then Some(Refunded)
    else if s == "pending" then Some(Pending)
    else None
  }

  lemma ParseSaleStatusName(st: SaleStatus)
    ensures ParseSaleStatus(st.Name()) == Some(st)
  {
  }

  datatype SaleItem = SaleItem(product: ProductId, quantity: int, unitPrice: int, subtotal: int, discount: int)

  datatype Totals = Totals(subtotal: int, discount: int, tax: int, total: int)

  datatype Refund = Refund(
    isRefunded: bool,
    refundDate: Option<Time>,
    refundAmount: Option<int>,
    refundReason: Option<string>,
    refundedBy: Option<UserId>)

  /** The refund sub-record of a new sale: `isRefunded` defaults to false. */
  const NoRefund: Refund := Refund(false, None, None, None, None)

  datatype Sale = Sale(
    saleNumber: string,
    customer: Option<CustomerId>,
    cashier: UserId,
    items: seq<SaleItem>,
    totals: Totals,
    paymentMethod: PaymentMethod,
    status: SaleStatus,
    refund: Refund,
    createdAt: Time)

  /** The item validators: `quantity` at least 1, `unitPrice`, `subtotal`
      and `discount` at least 0. */
  predicate ValidItem(it: SaleItem) {
    it.quantity >= 1 && it.unitPrice >= 0 && it.subtotal >= 0 && it.discount >= 0
  }

  /** The validators of the schema other than the sale number's: valid
      items and non-negative totals. */
  predicate ValidContent(s: Sale) {
    && (forall k :: 0 <= k < |s.items| ==> ValidItem(s.items[k]))
    && s.totals.subtotal >= 0
    && s.totals.discount >= 0
    && s.totals.tax >= 0
    && s.totals.total >= 0
  }

  /** Every validator of the schema: a present sale number (`required`),
      valid items and non-negative totals. */
  predicate ValidSale(s: Sale) {
    s.saleNumber != "" && ValidContent(s)
  }

  /** Sum of the stored line subtotals. */
  function ItemsSubtotal(items: seq<SaleItem>): int {
    if items == [] then 0 else items[0].subtotal + ItemsSubtotal(items[1..])
  }

  /** Units of `p` over the lines of a sale. */
  function SoldQuantity(items: seq<SaleItem>, p: ProductId): int {
    if items == [] then 0 else (if items[0].product == p then items[0].quantity else 0) + SoldQuantity(items[1..], p)
  }

  // ---------------------------------------------------------------------
  // Sale numbering.

  predicate IsDigit(c: char) { '0' <= c <= '9' }

  predicate AllDigits(s: string) { forall k :: 0 <= k < |s| ==> IsDigit(s[k]) }

  function DigitChar(d: nat): (c: char)
    requires d < 10
    ensures IsDigit(c) && c as int - '0' as int == d
  {
    ('0' as int + d) as char
  }

  /** `Number.prototype.toString()` of a natural number: its decimal digits. */
  function DecimalString(n: nat): (s: string)
    ensures |s| >= 1 && AllDigits(s)
  {
    if n < 10 then [DigitChar(n)] else DecimalString(n / 10) + [DigitChar(n % 10)]
  }

  /** The number a string of decimal digits denotes. */
  function DigitsValue(s: string): nat
    requires AllDigits(s)
  {
    if s == [] then 0 else DigitsValue(s[..|s| - 1]) * 10 + (s[|s| - 1] as int - '0' as int)
  }

  /** `s.replace(/\D/g, '')`: the decimal digits of `s`, in order. */
  function StripNonDigits(s: string): (r: string)
    ensures AllDigits(r) && |r| <= |s|
  {
    if s == [] then [] else (if IsDigit(s[0]) then [s[0]] else []) + StripNonDigits(s[1..])
  }

  /** `parseInt` of a string of digits: no number (NaN) for the empty string. */
  function ParseDigits(s: string): (r: Option<nat>)
    requires AllDigits(s)
    ensures r.None? <==> s == []
  {
    if s == [] then None else Some(DigitsValue(s))
  }

  /** `s.padStart(width, c)`: `c` repeated in front until `s` is `width` long. */
  function PadStart(s: string, width: nat, c: char): (r: string)
    ensures |r| == if |s| >= width then |s| else width
    ensures r[|r| - |s|..] == s
    ensures forall k :: 0 <= k < |r| - |s| ==> r[k] == c
    decreases width - |s|
  {
    if |s| >= width then s else PadStart([c] + s, width, c)
  }

  /** The counter the hook computes: a number, or NaN when the latest sale
      number holds no digit at all. */
  datatype Counter = Number(n: nat) | NotANumber

  /** `V-` followed by the counter left-padded with zeros to 6 places. */
  function FormatSaleNumber(c: Counter): (s: string)
    ensures |s| >= 8 && s[..2] == "V-"
  {
    var body := match c
      case Number(n) => DecimalString(n)
      case NotANumber => "NaN";
    "V-" + PadStart(body, 6, '0')
  }

  /** The counter the hook assigns after the latest sale: 1 without a
      previous numbered sale, else the digits of its number plus one. */
  function NextCounter(previous: seq<Sale>): Counter {
    if previous == [] || previous[|previous| - 1].saleNumber == "" then Number(1)
    else
      match ParseDigits(StripNonDigits(previous[|previous| - 1].saleNumber))
      case None => NotANumber
      case Some(k) => Number(k + 1)
  }

  /** The `pre('save')` hook: a sale without a number receives the next one;
      a numbered sale keeps its number. */
  function AssignSaleNumber(s: Sale, previous: seq<Sale>): (r: Sale)
    ensures s.saleNumber != "" ==> r == s
    ensures s.saleNumber == "" ==> r == s.(saleNumber := FormatSaleNumber(NextCounter(previous)))
  {
    if s.saleNumber == "" then s.(saleNumber := FormatSaleNumber(NextCounter(previous))) else s
  }

  /** Saving a new sale in the order the document library runs the steps:
      the schema's validators, `required` on `saleNumber` among them, run
      before the schema's own `pre('save')` hooks, and a document that fails
      them is not saved. */
  function SaveValidatingFirst(s: Sale, previous: seq<Sale>): (r: Option<Sale>)
    ensures r.Some? ==> r.value == s && ValidSale(s)
  {
    if !ValidSale(s) then None else Some(AssignSaleNumber(s, previous))
  }

  /** As written, a sale document created without a number never reaches
      the numbering hook: the `required` validator refuses it first. */
  lemma UnnumberedRefusedAsWritten(s: Sale, previous: seq<Sale>)
    requires s.saleNumber == ""
    ensures SaveValidatingFirst(s, previous) == None
  {
  }

  /** The evident intent, which the routes of this model follow: the hook
      numbers the document first, so a new sale is saved exactly when the
      rest of its content is valid, with the next number. */
  lemma HookFirstSavesUnnumbered(s: Sale, previous: seq<Sale>)
    requires s.saleNumber == ""
    ensures ValidSale(AssignSaleNumber(s, previous)) <==> ValidContent(s)
    ensures AssignSaleNumber(s, previous).saleNumber == FormatSaleNumber(NextCounter(previous))
  {
  }

  lemma {:induction false} DecimalStringValue(n: nat)
    ensures DigitsValue(DecimalString(n)) == n
  {
    if n >= 10 {
      DecimalStringValue(n / 10);
      var s := DecimalString(n);
      assert s[..|s| - 1] == DecimalString(n / 10);
    }
  }

  lemma {:induction false} LeadingZeroValue(t: string)
    requires AllDigits(t)
    ensures AllDigits(['0'] + t) && DigitsValue(['0'] + t) == DigitsValue(t)
  {
    if t != [] {
      var z := ['0'] + t;
      assert z[..|z| - 1] == ['0'] + t[..|t| - 1];
      LeadingZeroValue(t[..|t| - 1]);
    }
  }

  lemma {:induction false} PadStartValue(s: string, width: nat)
    requires AllDigits(s)
    ensures AllDigits(PadStart(s, width, '0')) && DigitsValue(PadStart(s, width, '0')) == DigitsValue(s)
    decreases width - |s|
  {
    if |s| < width {
      LeadingZeroValue(s);
      PadStartValue(['0'] + s, width);
    }
  }

  lemma {:induction false} StripDigits(s: string)
    requires AllDigits(s)
    ensures StripNonDigits(s) == s
  {
    if s != [] {
      StripDigits(s[1..]);
    }
  }

  /** Round trip of the hook's format and parse: the digits of a generated
      number give that number back. */
  lemma DigitsOfFormat(n: nat)
    ensures ParseDigits(StripNonDigits(FormatSaleNumber(Number(n)))) == Some(n)
  {
    var body := PadStart(DecimalString(n), 6, '0');
    PadStartValue(DecimalString(n), 6);
    DecimalStringValue(n);
    var s := "V-" + body;
    assert s[1..] == "-" + body;
    assert s[1..][1..] == body;
    StripDigits(body);
    assert StripNonDigits(s) == body;
  }

  /** Distinct counters are formatted as distinct sale numbers. */
  lemma FormatInjective(n: nat, m: nat)
    requires FormatSaleNumber(Number(n)) == FormatSaleNumber(Number(m))
    ensures n == m
  {
    DigitsOfFormat(n);
    DigitsOfFormat(m);
  }

  /** After a sale numbered with counter `n`, the hook assigns counter `n + 1`. */
  lemma NextAfterFormatted(previous: seq<Sale>, n: nat)
    requires previous != [] && previous[|previous| - 1].saleNumber == FormatSaleNumber(Number(n))
    ensures NextCounter(previous) == Number(n + 1)
  {
    DigitsOfFormat(n);
  }

  /** The sales carry the numbers V-000001, V-000002, ... in creation order. */
  ghost predicate NumberedInOrder(sales: seq<Sale>) {
    forall k :: 0 <= k < |sales| ==> sales[k].saleNumber == FormatSaleNumber(Number(k + 1))
  }

  /** Numbering a new sale through the hook keeps the numbers consecutive. */
  lemma NumberingStaysSequential(sales: seq<Sale>, s: Sale)
    requires NumberedInOrder(sales) && s.saleNumber == ""
    ensures NumberedInOrder(sales + [AssignSaleNumber(s, sales)])
  {
    NumberingExtends(sales, AssignSaleNumber(s, sales));
  }

  /** Appending a sale that carries the hook's next number keeps a
      consecutively numbered sequence consecutive. */
  lemma NumberingExtends(sales: seq<Sale>, t: Sale)
    requires NumberedInOrder(sales)
    requires t.saleNumber == FormatSaleNumber(NextCounter(sales))
    ensures NumberedInOrder(sales + [t])
  {
    if sales != [] {
      NextAfterFormatted(sales, |sales|);
    }
    assert NextCounter(sales) == Number(|sales| + 1);
    var all := sales + [t];
    forall k | 0 <= k < |all| ensures all[k].saleNumber == FormatSaleNumber(Number(k + 1)) {
      if k < |sales| { assert all[k] == sales[k]; } else { assert all[k] == t; }
    }
  }

  /** Consecutively numbered sales never share a number. */
  lemma SequentialNumbersDistinct(sales: seq<Sale>, i: nat, j: nat)
    requires NumberedInOrder(sales) && i < j < |sales|
    ensures sales[i].saleNumber != sales[j].saleNumber
  {
    if sales[i].saleNumber == sales[j].saleNumber {
      FormatInjective(i + 1, j + 1);
    }
  }
}
