# Point-of-sale inventory ledger — a verified model

This project models the sale and inventory core of a small point-of-sale
system. The system is a Node/Express backend over a document store, plus
a React storefront. The model covers:

- the **catalogue** (`Products`): the product record, its `isLowStock`
  virtual, its `pre('save')` stock timestamp, and its SKU normalisation;
- the **inventory ledger** (`Movements`, `Ledger`): one append-only
  movement per stock change, checked by `Replay`. `Replay` walks the
  movements from a stock map. It demands that each movement starts from
  the product's current stock, and that `newStock = previousStock +
  quantity`;
- the **store** (`Ledger.Database`): a class holding the products, sales,
  movements and customers. Every route works on a copy and commits it
  only on success, which is how the model treats the document store's
  transactions;
- **selling** through `POST /api/sales` (`SalesRoutes`) and through the
  second, controller-based sale path (`SalesController`);
- **cancel and refund** (`SalesCompensation`);
- the **daily summary** (`SalesReport`);
- the **inventory routes** (`InventoryRoutes`): batch adjustment,
  transfer, low-stock grouping by supplier, and the valuation totals;
- the **catalogue routes** (`ProductRoutes`): the field whitelist, SKU
  uniqueness, the listing's `limit` clamp and page count, and soft delete;
- the **storefront cart** (`Cart`).

Money is integer (CLP, no cents). Document ids are natural numbers.
Timestamps (`new Date()`) are opaque integers the caller passes in as
`now`.

Each route that changes the store is a method on `Database` with a
`modifies` clause. Each one's `ensures` ties the new store (or the
unchanged one, on error) to a pure specification function over `State`.
The properties the code promises are lemmas about those functions. The
loops of the source are `while` loops in non-mutating methods. Each such
method is proved equal to the specification function it implements.

In these places the code does something a reader might not expect; the
model follows the code:

- The controller sale path writes stock from a snapshot read before the
  loop, not from the running stock. It logs sale movements with a
  positive quantity. Both behaviours are modelled as written; see
  `SnapshotOversell` and `ControllerLedgerNotSigned`.
- The refund bound applies to each refund line on its own, not
  cumulatively per product; see `RefundBoundIsPerLine`.
- The listing's `limit` clamp lets a negative value through; see
  `NegativeLimitKept`.

In one place the code as written cannot work at all, and the model follows
its evident intent instead; see "## Findings".

## Model

| member | source | states |
|---|---|---|
| Products.PreSave | backend/models/Product.js:144-149 | the hook sets `lastStockUpdate := now` exactly when the stock changed, and leaves every other field as edited |
| Products.PreSaveStable | backend/models/Product.js:144-149 | a second save without a stock change keeps the first timestamp; the hook never breaks validity |
| Products.SkipLeading | backend/models/Product.js:19 | the index of the first non-whitespace character; everything before it is whitespace |
| Products.SkipTrailing | backend/models/Product.js:19 | the index just past the last non-whitespace character; everything after it is whitespace |
| Products.Trim | backend/models/Product.js:19 | `trim` removes the leading and trailing whitespace; the result is trimmed |
| Products.TrimOfTrimmed | backend/models/Product.js:19 | trim leaves a trimmed string unchanged |
| Products.UpperChar | backend/models/Product.js:18 | ASCII lower-case letters move to upper case; any other character is kept |
| Products.UpperCharKeepsWhitespace | backend/models/Product.js:18 | upper-casing neither creates nor removes whitespace |
| Products.ToUpper | backend/models/Product.js:18 | `toUpperCase` keeps the length and maps each character |
| Products.ToUpperKeepsTrimmed | backend/models/Product.js:18-19 | upper-casing a trimmed string keeps it trimmed |
| Products.NormalizeSku | backend/models/Product.js:14-20 | the stored SKU is the input trimmed and then upper-cased character by character; it is trimmed and has no lower-case ASCII letter |
| Products.NormalizeSkuIdempotent | backend/models/Product.js:14-20 | normalising a stored SKU changes nothing |
| Products.TrimPadded | backend/models/Product.js:19 | trim cuts exactly the whitespace around a trimmed middle |
| Products.NormalizeSkuIgnoresPadding | backend/models/Product.js:14-20 | whitespace before and after a SKU does not change its stored form |
| Products.TrimSplit | backend/models/Product.js:19 | every string is its trim between a whitespace prefix and a whitespace suffix |
| Products.TrimIgnoresPadding | backend/models/Product.js:19 | whitespace added before and after a string does not change its trim |
| Products.ToUpperWhitespace | backend/models/Product.js:18 | upper-casing a run of whitespace leaves whitespace |
| Products.TrimToUpper | backend/models/Product.js:18-19 | trimming and upper-casing commute |
| Products.NormalizeSkuIgnoresCase | backend/models/Product.js:14-20 | upper-casing a SKU first does not change its stored form, so SKUs differing only in ASCII letter case are stored alike |
| Movements.ParseMovementType | backend/models/InventoryMovement.js:9-13 | the enum accepts only the six movement names, each as its own type |
| Movements.ParseMovementTypeName | backend/models/InventoryMovement.js:9-13 | every movement type's name is accepted as that type |
| Movements.ParseDocumentType | backend/models/InventoryMovement.js:35-38 | the reference enum accepts only the four document names |
| Movements.ParseDocumentTypeName | backend/models/InventoryMovement.js:35-38 | every document type's name is accepted as that type |
| SaleModel.ParsePaymentMethod | backend/models/Sale.js:68-72 | the enum accepts only the five payment-method names |
| SaleModel.ParsePaymentMethodName | backend/models/Sale.js:68-72 | every payment method's name is accepted as that method |
| SaleModel.ParseSaleStatus | backend/models/Sale.js:96-100 | the enum accepts only the four status names |
| SaleModel.ParseSaleStatusName | backend/models/Sale.js:96-100 | every status's name is accepted as that status |
| SaleModel.DigitChar | backend/models/Sale.js:130 | a digit value below 10 is written as its decimal digit character |
| SaleModel.DecimalString | backend/models/Sale.js:130 | `toString` of a natural number is a non-empty digit string |
| SaleModel.StripNonDigits | backend/models/Sale.js:126 | `replace(/\D/g, '')` leaves only digits and never lengthens the string |
| SaleModel.ParseDigits | backend/models/Sale.js:126 | `parseInt` of a digit string is NaN exactly for the empty string |
| SaleModel.PadStart | backend/models/Sale.js:130 | `padStart` pads to the width with the fill character and keeps the string as its suffix |
| SaleModel.FormatSaleNumber | backend/models/Sale.js:130 | a generated sale number starts with `V-` and is at least 8 characters long |
| SaleModel.AssignSaleNumber | backend/models/Sale.js:120-133 | the hook numbers a sale without a number from its predecessor, and leaves a numbered sale as it is |
| SaleModel.DecimalStringValue | backend/models/Sale.js:130 | the digits of `toString(n)` denote `n` |
| SaleModel.LeadingZeroValue | backend/models/Sale.js:130 | a leading zero does not change a digit string's value |
| SaleModel.PadStartValue | backend/models/Sale.js:130 | zero padding keeps a digit string's value |
| SaleModel.StripDigits | backend/models/Sale.js:126 | stripping non-digits from a digit string changes nothing |
| SaleModel.DigitsOfFormat | backend/models/Sale.js:124-130 | round trip: parsing the digits of a formatted number gives the number back |
| SaleModel.FormatInjective | backend/models/Sale.js:130 | distinct counters give distinct sale numbers |
| SaleModel.NextAfterFormatted | backend/models/Sale.js:122-129 | after the sale numbered `n`, the hook hands out `n + 1` |
| SaleModel.NumberingStaysSequential | backend/models/Sale.js:120-133 | numbering a new sale through the hook keeps the sale numbers consecutive |
| SaleModel.SequentialNumbersDistinct | backend/models/Sale.js:120-133 | consecutively numbered sales never share a number |
| SaleModel.NumberingExtends | backend/models/Sale.js:120-133 | appending a sale that carries the hook's next number keeps the numbers consecutive |
| SaleModel.SaveValidatingFirst | backend/models/Sale.js:4-8 | as the document library orders the steps, a save succeeds only for a document that already passes every validator, and the hook then leaves it as it is |
| SaleModel.UnnumberedRefusedAsWritten | backend/models/Sale.js:4-8 | as written, a sale document without a number is refused before the hook can number it |
| SaleModel.HookFirstSavesUnnumbered | backend/models/Sale.js:120-133 | with the hook first, an unnumbered sale gets the next number and is saved exactly when the rest of its content is valid |
| Ledger.StockMap | backend/models/Product.js:74-79 | the stock map has one entry per product, holding its `currentStock` |
| Ledger.ReplayAppend | backend/models/InventoryMovement.js:14-25 | replaying two stretches of ledger in turn is replaying their concatenation |
| Ledger.ReplayConserves | backend/models/InventoryMovement.js:14-25 | a ledger that replays ends each product at its start stock plus its signed net quantity, and keeps the same products |
| Ledger.NetQuantityAppend | backend/models/InventoryMovement.js:14-17 | net quantities add over concatenated ledgers |
| Ledger.Database.Commit | backend/routes/sales.js:219 | committing a transaction makes the store the working copy |
| SalesRoutes.LineItem | backend/routes/sales.js:163-172 | a stored line's subtotal is `unitPrice * quantity - discount` and carries the line's fields |
| SalesRoutes.LineItems | backend/routes/sales.js:166-172 | one stored item per requested line, in order: item `k` is the stored form of line `k` |
| SalesRoutes.CreditCustomer | backend/routes/sales.js:199-217 | the named customer's `totalPurchases` grows by the total and `lastPurchase` becomes now, its `currentCredit` grows by the total only on a credit sale, and no other customer changes; an unknown id changes nothing |
| SalesRoutes.SellAll | backend/routes/sales.js:130-173 | the line loop computes the same outcome as the specification `SellLines` |
| SalesRoutes.CreateSale | backend/routes/sales.js:110-243 | the store becomes the committed state of `CreateSaleSpec`, or stays as it was on error |
| SalesRoutes.DemandNonNegative | backend/routes/sales.js:130-146 | the units the lines ask of a product are never negative |
| SalesRoutes.MovementCostValid | backend/routes/sales.js:150-161 | a sale movement at a non-negative price has non-negative costs |
| SalesRoutes.SellLinesSucceedsIff | backend/routes/sales.js:131-143 | the loop succeeds exactly when every line names an active product at a non-negative price and no product is asked for more than its stock, summed over its lines |
| SalesRoutes.DemandAbsent | backend/routes/sales.js:130-146 | a product no line names is asked for nothing |
| SalesRoutes.AvailableAfterLine | backend/routes/sales.js:141-147 | after one line, the rest of the lines still fit the lowered stock |
| SalesRoutes.SellLinesStock | backend/routes/sales.js:146-147 | each product's stock falls by exactly its demand, and nothing else about the catalogue changes |
| SalesRoutes.SellLinesMoves | backend/routes/sales.js:150-161 | the loop appends one `sale` movement per line, in line order |
| SalesRoutes.SellLinesReplay | backend/routes/sales.js:150-161 | the appended movements replay from the stock before the sale to the stock after it |
| SalesRoutes.SellLinesStep | backend/routes/sales.js:130-173 | unfolding the loop by one line that passes |
| SalesRoutes.SellLinesRecord | backend/routes/sales.js:163-172 | the processed items are the lines in order, and the subtotal is the sum of their subtotals |
| SalesRoutes.SpecAfterLines | backend/routes/sales.js:176-197 | when every line passes, the sale commits exactly when the sale it builds satisfies the schema |
| SalesRoutes.CreateSaleSucceedsIff | backend/routes/sales.js:110-243 | the route commits exactly when the validators pass, stock covers every product's demand, every product is active at a non-negative price, and the sale satisfies the schema |
| SalesRoutes.CreateSaleAppends | backend/routes/sales.js:181-197 | a committed sale is appended as the store's next sale |
| SalesRoutes.ProposedSaleRecord | backend/routes/sales.js:176-196 | the sale is numbered by the hook, completed and not refunded; it holds the lines and `total = subtotal - discount + tax` |
| SalesRoutes.CreateSaleStock | backend/routes/sales.js:146-147 | on commit each product's stock has fallen by its demand; the rest of the catalogue is unchanged |
| SalesRoutes.CreateSaleLedger | backend/routes/sales.js:150-161 | on commit the ledger grows by one sale movement per line, and the new entries replay from the old stock to the new |
| SalesRoutes.CreateSaleCustomer | backend/routes/sales.js:199-217 | on commit the customer's purchases grow by the total; its credit grows only on a credit sale |
| SalesRoutes.DemandCovered | backend/routes/sales.js:141-143 | every product's total demand is within its stock |
| SalesRoutes.SoldCatalogueValid | backend/routes/sales.js:146-148 | the sold catalogue stays within the product schema |
| SalesRoutes.SaleMovementValid | backend/routes/sales.js:150-161 | a sale movement at a non-negative price satisfies the movement schema |
| SalesRoutes.SoldMovementsValid | backend/routes/sales.js:150-161 | every appended movement satisfies the movement schema |
| SalesRoutes.CreateSalePreservesValid | backend/routes/sales.js:110-243 | a committed sale leaves every document within its schema |
| SalesRoutes.InsufficientStockExample | backend/routes/sales.js:141-143 | selling 3 units of a product with stock 2 fails, reporting 2 available, and stores nothing |
| SalesRoutes.CreateSaleKeepsLowStock | backend/models/Product.js:133-135 | a product low on stock before a sale is still low after it |
| SalesRoutes.CreateSaleAvailableCredit | backend/models/Customer.js:101-103 | a committed credit sale lowers its customer's `availableCredit` by the total, any other sale leaves it, with no check against the limit |
| SalesRoutes.CreateSaleKeepsNumbering | backend/models/Sale.js:120-133 | a store numbered V-000001, V-000002, ... in order stays so after a committed sale |
| SalesRoutes.CreateSaleRefusedAsWritten | backend/routes/sales.js:196 | as written, the draft the route saves is refused for every request, so the route never creates a sale |
| SalesCompensation.ItemReturns | backend/routes/sales.js:268-272 | a cancellation puts back every item of the sale, in order, line `k` naming item `k`'s product and quantity |
| SalesCompensation.ReverseCredit | backend/routes/sales.js:298-309 | only a credit sale with a known customer changes anything: that customer's `currentCredit` and `totalPurchases` fall by the total, and every other field and customer is kept |
| SalesCompensation.ReturnSaleItems | backend/routes/sales.js:268-292 | the cancel loop computes the specification `RestockAll` |
| SalesCompensation.Cancel | backend/routes/sales.js:246-328 | the store becomes the state of `CancelSpec`, or stays unchanged on error |
| SalesCompensation.FirstItem | backend/routes/sales.js:364-366 | `find` returns the first item of the sale for the product |
| SalesCompensation.RefundAmount | backend/routes/sales.js:406 | a missing or zero refund amount means the sale total |
| SalesCompensation.ReturnRefundItems | backend/routes/sales.js:363-399 | the refund loop computes the specification `RefundLines` |
| SalesCompensation.ProcessRefund | backend/routes/sales.js:331-431 | the store becomes the state of `RefundSpec`, or stays unchanged on error |
| SalesCompensation.RestockAllStep | backend/routes/sales.js:268-292 | unfolding the restock loop by one line |
| SalesCompensation.ReturnedValid | backend/routes/sales.js:271-272 | a restocked product is valid exactly when its new stock is not negative |
| SalesCompensation.RestockAllNonNegative | backend/routes/sales.js:268-292 | putting back non-negative quantities never trips the product schema |
| SalesCompensation.RestockAllStock | backend/routes/sales.js:269-272 | each surviving product gains exactly its lines' units; nothing else changes |
| SalesCompensation.RestockAllMoves | backend/routes/sales.js:275-289 | one `return` movement per line whose product exists, referring to the sale |
| SalesCompensation.RestockAllReplay | backend/routes/sales.js:275-289 | the return movements replay from the stock before to the stock after |
| SalesCompensation.ItemReturnsQuantity | backend/routes/sales.js:268-272 | the cancel lines name each product for as many units as the sale |
| SalesCompensation.ItemReturnsPositive | backend/models/Sale.js:25-29 | cancel lines have positive quantities, as sale items do |
| SalesCompensation.CancelSucceedsIff | backend/routes/sales.js:250-265 | in a valid store a cancellation fails only for a missing sale or one that is not completed |
| SalesCompensation.CancelStock | backend/routes/sales.js:268-272 | a cancellation puts back every unit of the sale on each surviving product |
| SalesCompensation.CancelStatus | backend/routes/sales.js:260-295 | only a completed sale is cancelled, and it becomes `cancelled`; other sales are untouched |
| SalesCompensation.CancelKeepsStocked | backend/models/Product.js:133-135 | in a valid store a cancellation never makes a product low on stock that was not |
| SalesCompensation.CancelLedger | backend/routes/sales.js:275-289 | one return movement per surviving item, referring to the sale, and the new entries replay |
| SalesCompensation.CancelCustomer | backend/routes/sales.js:298-309 | only a credit sale with a customer gives credit and purchases back; no other customer changes |
| SalesCompensation.CancelPreservesValid | backend/routes/sales.js:246-328 | a cancellation leaves every document within its schema |
| SalesCompensation.LineItemsQuantity | backend/routes/sales.js:166-172 | a created sale's items name each product for its total demand |
| SalesCompensation.CancelAfterCreate | backend/routes/sales.js:110-328 | a sale just created can be cancelled |
| SalesCompensation.CancelAfterCreateStock | backend/routes/sales.js:146-272 | after create-then-cancel each product's stock matches its original stock |
| SalesCompensation.CancelUndoesCreate | backend/routes/sales.js:110-328 | creating and then cancelling a sale restores every stock |
| SalesCompensation.CancelAfterCreateCredit | backend/routes/sales.js:199-309 | after create-then-cancel the customer's credit and `availableCredit` are restored; its purchases are restored only on a credit sale |
| SalesCompensation.RefundLinesChecked | backend/routes/sales.js:363-376 | a refund loop that succeeds had every line in the sale and within the sold quantity |
| SalesCompensation.RefundLinesMeetChecks | backend/routes/sales.js:363-376 | lines that meet the checks and keep stock non-negative let the loop succeed |
| SalesCompensation.RefundSucceedsIff | backend/routes/sales.js:338-380 | a refund goes through exactly when the sale exists, is completed and not refunded, every line is in the sale within its sold quantity, and stock stays non-negative |
| SalesCompensation.RefundRecord | backend/routes/sales.js:403-411 | the sale becomes `refunded`, with a refund record for the requested amount or else the total |
| SalesCompensation.RefundStock | backend/routes/sales.js:362-399 | the refunded units go back, with replayable return movements; a refund without lines touches neither stock nor ledger |
| SalesCompensation.RefundPreservesValid | backend/routes/sales.js:331-431 | a refund leaves every document within its schema |
| SalesCompensation.RefundProductValid | backend/routes/sales.js:379-381 | every product the refund saves passed the schema |
| SalesCompensation.RestockAllKeepsValid | backend/routes/sales.js:379-381 | a successful restock keeps the catalogue valid |
| SalesCompensation.RefundBoundIsPerLine | backend/routes/sales.js:363-376 | two refund lines of 2 against a sale item of 2 both pass, and 4 units go back |
| SalesReport.DaySales | backend/routes/sales.js:445-448 | only completed sales of the day are selected, and the selection is no longer than the input |
| SalesReport.DailySummary | backend/routes/sales.js:450-468 | the `forEach` computes the specification `DailySummarySpec` |
| SalesReport.TallyExtendsError | backend/routes/sales.js:462 | the first sale without a cashier decides the report's error |
| SalesReport.TotalAmountAppend | backend/routes/sales.js:452 | the total grows by each sale's total |
| SalesReport.TallyStep | backend/routes/sales.js:458-468 | one more sale adds its total under its method and its cashier's name |
| SalesReport.TallySucceedsIff | backend/routes/sales.js:462 | the report succeeds exactly when every sale's cashier resolves |
| SalesReport.TallyByMethod | backend/routes/sales.js:459-460 | a method is a key exactly when a sale used it, and its amount is the total of those sales |
| SalesReport.TallyByCashier | backend/routes/sales.js:462-467 | a cashier name is a key exactly when it made a sale, with the count and amount of its sales |
| SalesReport.MethodsCoverTotal | backend/routes/sales.js:452-460 | the five methods' totals add up to the day's total |
| SalesReport.SummaryConsistent | backend/routes/sales.js:450-468 | the per-method amounts add up to `totalAmount` |
| SalesReport.DaySalesComplete | backend/routes/sales.js:445-448 | a sale is in the report exactly when it is completed and within the day |
| SalesController.ActiveSnapshot | backend/controllers/salesController.js:22-26 | the snapshot holds exactly the active products, as stored |
| SalesController.PricedItems | backend/controllers/salesController.js:38-53 | one priced item per request line |
| SalesController.ValidateItems | backend/controllers/salesController.js:28-35 | the validation loop finds the first failing line, as `FirstFailure` does |
| SalesController.PriceItems | backend/controllers/salesController.js:38-53 | the pricing loop computes the priced items, gross subtotal and discount total |
| SalesController.WriteItems | backend/controllers/salesController.js:69-99 | the write loop computes `WriteAll` |
| SalesController.ControllerCreateSale | backend/controllers/salesController.js:6-124 | the store becomes the committed state of `ControllerSpec`, or stays unchanged on error |
| SalesController.FirstFailureNone | backend/controllers/salesController.js:28-35 | validation passes exactly when every line is active, positive and covered by the snapshot stock |
| SalesController.FirstFailureIsFirst | backend/controllers/salesController.js:28-35 | the reported error is that of the first failing line; every earlier line passed |
| SalesController.WriteAllErrors | backend/controllers/salesController.js:69-99 | the write loop fails only with a missing-product or schema error |
| SalesController.ControllerRejectsMalformed | backend/controllers/salesController.js:14-18 | missing or empty items, cashier or payment method give the validation error, and nothing else does |
| SalesController.ControllerValidatesFirst | backend/controllers/salesController.js:28-35 | a failing line fails the request with the first error, and a committed sale had every line valid |
| SalesController.PricedItemsAt | backend/controllers/salesController.js:38-53 | each line takes the client price or the catalogue price, and stores `unitPrice * quantity - discount` |
| SalesController.ControllerTotals | backend/controllers/salesController.js:49-64 | subtotal gross, discount the sum of discounts, tax 0, `total = subtotal - discount`; the sale is numbered and completed |
| SalesController.TotalsExample | backend/controllers/salesController.js:38-64 | 2 × 12990 and 3 × 4290 with discount 500 give subtotal 38850, total 38350, and line 12370 |
| SalesController.LastQuantityNamed | backend/controllers/salesController.js:69-80 | the last line for a product names that product |
| SalesController.WriteAllStock | backend/controllers/salesController.js:69-80 | each new stock is snapshot stock minus the last line's quantity; unnamed products and other fields are unchanged |
| SalesController.WriteAllMoves | backend/controllers/salesController.js:82-97 | one sale movement per line: `+q`, snapshot previous stock, new `previous - q`, catalogue cost, sale reference |
| SalesController.ControllerWrites | backend/controllers/salesController.js:69-99 | on commit the ledger and catalogue are as the write loop builds them |
| SalesController.DistinctLinesStock | backend/controllers/salesController.js:69-80 | with distinct products each one ends at stock minus its line's quantity |
| SalesController.LastQuantityOnly | backend/controllers/salesController.js:69-80 | when no two lines name the same product, the last quantity for line `k`'s product is line `k`'s quantity |
| SalesController.SnapshotOversell | backend/controllers/salesController.js:22-80 | two lines of 3 on a stock of 5 pass, record 6 units, and leave the stock at 2 |
| SalesController.RepeatedLinePricing | backend/controllers/salesController.js:38-53 | a line given twice is priced twice |
| SalesController.RepeatedLineWrite | backend/controllers/salesController.js:69-80 | both writes of a repeated line set the same stock |
| SalesController.ControllerLedgerNotSigned | backend/controllers/salesController.js:82-97 | the controller's movements do not replay under the signed convention |
| SalesController.ControllerProductsValid | backend/controllers/salesController.js:69-80 | every written product stays valid |
| SalesController.ControllerMovementsValid | backend/controllers/salesController.js:82-97 | every recorded movement has non-negative costs |
| SalesController.ControllerMovementValid | backend/controllers/salesController.js:82-97 | a movement for an accepted line of a valid product has non-negative costs |
| SalesController.ControllerSalesValid | backend/controllers/salesController.js:56-66 | the stored sale passed the sale schema, and earlier sales are unchanged |
| SalesController.ControllerPreservesValid | backend/controllers/salesController.js:6-124 | a controller sale leaves every document within its schema |
| SalesController.ControllerKeepsNumbering | backend/models/Sale.js:120-133 | a store numbered in order stays so after the controller creates a sale |
| SalesController.ControllerRefusedAsWritten | backend/controllers/salesController.js:56 | as written, the document `Sale.create` gets is refused for every request |
| InventoryRoutes.AdjustAll | backend/routes/inventory.js:191-229 | the adjustment loop computes `AdjustLines` |
| InventoryRoutes.Adjust | backend/routes/inventory.js:174-249 | the store becomes the state of `AdjustSpec`, or stays unchanged on error |
| InventoryRoutes.AdjustLinesOkIff | backend/routes/inventory.js:193-208 | the batch succeeds exactly when every entry is acceptable; product ids never change |
| InventoryRoutes.AdjustLinesRecords | backend/routes/inventory.js:211-228 | one result and one adjustment movement per entry, logging `newStock - previous` |
| InventoryRoutes.AdjustLinesReplay | backend/routes/inventory.js:203-221 | the batch's ledger replays from the old stocks to the new |
| InventoryRoutes.AdjustLinesStock | backend/routes/inventory.js:203-208 | each product ends at its last entry's value; others keep their stock; no other field changes |
| InventoryRoutes.AdjustSucceedsIff | backend/routes/inventory.js:181-240 | the batch commits exactly when the list is non-empty and every entry is acceptable; then the ledger grows by replayable movements |
| InventoryRoutes.AdjustPreservesValid | backend/routes/inventory.js:174-249 | an adjustment leaves every document within its schema |
| InventoryRoutes.AdjustTwiceExample | backend/routes/inventory.js:191-228 | adjusting 7 to 10 and then to 4 reports differences 3 and -6 and ends at 4 |
| InventoryRoutes.TransferStock | backend/routes/inventory.js:252-321 | the store becomes the state of `TransferSpec`, or stays unchanged on error |
| InventoryRoutes.TransferSucceedsIff | backend/routes/inventory.js:259-279 | in a valid store a transfer succeeds exactly when the id is present, the quantity is positive and the product exists; a missing id or non-positive quantity gives the invalid-transfer error |
| InventoryRoutes.TransferEffect | backend/routes/inventory.js:276-296 | no stock changes; one movement of quantity 0 logs the stock; the location changes only when a destination is given |
| InventoryRoutes.TransferPreservesValid | backend/routes/inventory.js:252-321 | a transfer leaves every document within its schema |
| InventoryRoutes.BucketOf | backend/routes/inventory.js:335-345 | the bucket found for a supplier belongs to that supplier |
| InventoryRoutes.BySupplier | backend/routes/inventory.js:335-345 | the grouping loop computes `GroupBySupplier` |
| InventoryRoutes.GroupBySupplierPartition | backend/routes/inventory.js:335-345 | each bucket holds exactly its supplier's products in order, and no supplier has two buckets |
| InventoryRoutes.OfSupplierLast | backend/routes/inventory.js:335-345 | filtering by supplier extends by the last product |
| InventoryRoutes.OpenBucketPartition | backend/routes/inventory.js:337-341 | a product of a new supplier opens a bucket at the end |
| InventoryRoutes.ExtendBucketPartition | backend/routes/inventory.js:342-343 | a product of a known supplier joins its bucket |
| InventoryRoutes.OfSupplierAbsent | backend/routes/inventory.js:335-345 | a supplier without a bucket has no product |
| InventoryRoutes.OfSupplierMembers | backend/routes/inventory.js:335-345 | the products filtered for a supplier come from the list and have that supplier |
| InventoryRoutes.ExactlyOneBucket | backend/routes/inventory.js:335-345 | every product lies in exactly one bucket, its supplier's |
| InventoryRoutes.PartitionHasOneBucket | backend/routes/inventory.js:335-345 | in a partition each listed product has exactly one bucket |
| InventoryRoutes.SumByAppend | backend/routes/inventory.js:438-450 | a column sum grows by the last row |
| InventoryRoutes.ValuationTotalsFieldwise | backend/routes/inventory.js:438-450 | each total is the sum of its column over the rows |
| InventoryRoutes.ValuationProfitConsistent | backend/routes/inventory.js:438-450 | when every row's profit is selling minus cost, so is the total's |
| ProductRoutes.Copied | backend/routes/products.js:48-57 | exactly the whitelisted keys present in the body are copied, with their values |
| ProductRoutes.PickSpec | backend/routes/products.js:47-61 | the whitelisted present keys plus `isActive`; a truthy SKU is stringified and normalised; `isActive` defaults to true |
| ProductRoutes.PickProductFields | backend/routes/products.js:47-61 | the key loop computes `PickSpec` |
| ProductRoutes.PickIdempotent | backend/routes/products.js:47-61 | whitelisting a whitelisted body changes nothing |
| ProductRoutes.PickSkuString | backend/routes/products.js:58 | a string SKU is stored trimmed and upper-cased |
| ProductRoutes.CreateChecksSku | backend/routes/products.js:169-191 | create refuses exactly the SKUs in use, otherwise adds a valid product, and keeps SKUs distinct |
| ProductRoutes.UpdateChecksSku | backend/routes/products.js:203-206 | update accepts a product keeping its own SKU, which create would refuse |
| ProductRoutes.UpdateKeepsSkusDistinct | backend/routes/products.js:194-219 | an accepted update keeps SKUs distinct, and the SKU was not held by another product |
| ProductRoutes.DigitRun | backend/routes/products.js:81 | the digit run read by `parseInt` is all digits and maximal |
| ProductRoutes.ParseIntDecimal | backend/routes/products.js:81 | `parseInt` reads back the decimal form of a number, with or without a minus sign |
| ProductRoutes.AllDigitsRun | backend/routes/products.js:81 | a digit suffix is read to its end |
| ProductRoutes.ListLimit | backend/routes/products.js:81-82 | the page size is at most 100 and never 0 |
| ProductRoutes.ListLimitCases | backend/routes/products.js:81-82 | absent, non-numeric or zero gives 20; up to 100 is kept; more gives 100 |
| ProductRoutes.NegativeLimitKept | backend/routes/products.js:81-82 | a negative limit passes the clamp unchanged |
| ProductRoutes.PagesIsCeiling | backend/routes/products.js:115 | for a positive limit the page count is the least number of pages holding all items |
| ProductRoutes.SoftDelete | backend/routes/products.js:222-232 | the store becomes the state of `SoftDeleteSpec`, or stays unchanged for an unknown id |
| ProductRoutes.SoftDeleteKeeps | backend/routes/products.js:222-232 | only `isActive` changes, to false; stock and ledger stay; deleting twice is deleting once |
| Cart.Clear | frontend/src/contexts/CartContext.jsx:48 | the cleared cart is empty |
| Cart.AddExisting | frontend/src/contexts/CartContext.jsx:12-18 | adding a product in the cart raises its line by `q` and adds no line; other lines and fields are unchanged |
| Cart.AddNew | frontend/src/contexts/CartContext.jsx:10-26 | adding a new product appends one line with quantity `q` and price `product.price \|\| 0` |
| Cart.AddKeepsUnique | frontend/src/contexts/CartContext.jsx:12-26 | after `add` the product has a line, and there is still one line per product |
| Cart.RemoveFilters | frontend/src/contexts/CartContext.jsx:30-32 | the kept lines are exactly those of other products, and the product has no line left |
| Cart.RemoveAbsent | frontend/src/contexts/CartContext.jsx:30-32 | removing a product without a line changes nothing |
| Cart.RemoveCutsLine | frontend/src/contexts/CartContext.jsx:30-32 | in a cart with one line per product, `remove` cuts out that line and keeps the rest in order |
| Cart.RemoveKeepsUnique | frontend/src/contexts/CartContext.jsx:30-32 | `remove` keeps one line per product |
| Cart.UpdateQuantityEffect | frontend/src/contexts/CartContext.jsx:34-45 | a quantity of 0 or less removes the line; a positive one replaces only the matching line's quantity |
| Cart.UpdateQuantityKeepsUnique | frontend/src/contexts/CartContext.jsx:34-45 | `updateQuantity` keeps one line per product |
| Cart.ClearEmpties | frontend/src/contexts/CartContext.jsx:48-58 | the cleared cart has total 0, no items and no lines |
| Cart.FoldsAppend | frontend/src/contexts/CartContext.jsx:50-58 | total and item count add over a split cart |
| Cart.RemoveTotals | frontend/src/contexts/CartContext.jsx:30-58 | removing a product lowers the total by its amount and the count by its quantity |
| Cart.BumpCount | frontend/src/contexts/CartContext.jsx:14-58 | raising a product's lines by `q` raises the count by `q` per line |
| Cart.BumpTotal | frontend/src/contexts/CartContext.jsx:14-53 | raising a product's lines by `q` raises the total by `q` times their price |
| Cart.UniqueLineCount | frontend/src/contexts/CartContext.jsx:12-26 | with one line per product, a product in the cart has one line |
| Cart.AddTotals | frontend/src/contexts/CartContext.jsx:9-58 | `add` raises the count by `q`, and the total by `q` times the line's price: the cart's price for a product already there, `product.price \|\| 0` for a new one |
| Cart.CartExample | frontend/src/contexts/CartContext.jsx:9-58 | two of a 1000 product, one of 2500, then one more of the first: one line of 3, total 5500, 4 items |

## Left out

- Transactions and concurrency: a transaction is "commit the working copy on success, keep the old store on error". The race in the sale-number hook (reading the latest sale, then incrementing) and the race between the SKU check and the insert cannot occur in a sequential model.
- Database queries and population: the low-stock query and its sort, the listing's filters, skip and page parsing, `GET /:id`, and the aggregation pipelines of the valuation and the reports are done by the store. The model takes their results as inputs (`GroupBySupplier` gets the low-stock list; `ValuationTotals` gets the per-category rows).
- The valuation's `Math.round(x * 100) / 100` and every float: money is integer.
- `paymentDetails`, `notes`, free-text reasons and images are stored but never read, so they are not modelled beyond the cart line's image.
- Request validators of the product routes (express-validator) and the merge of an update body into the stored product: `UpdateProduct` gets the merged product, and `CreateProduct` gets the product built from the body.
- `toUpperCase` and `trim` beyond ASCII letters and the JavaScript whitespace set: no Unicode case mapping.
- `lastStockUpdate` is not a declared schema field. The model keeps it as the product field the hook writes.
- Two cashiers with the same full name are merged into one entry of the daily summary, as the source's dictionary does. The model does not tell them apart.
- A sale's cashier that does not populate makes the daily summary fail; the model reports `MissingCashier` for it.
- Refund lines' quantities are plain integers, as the request carries them; negative quantities are not refused by the source and are not refused by the model.
- The customer rule `currentCredit <= creditLimit` is not enforced by the sale routes, and the model does not enforce it either: `CreateSaleAvailableCredit` shows a credit sale lowering `availableCredit` by its total with no bound.
- Authentication, roles, the payments controller (card-processor calls), the supplier, category, customer and auth routes, and all pages and components other than the cart.
- JSON key order of a picked body: a map has no order, which the route never relies on.
- An adjustment entry with an absent or non-numeric `newStock` is not modelled: `newStock` is an integer. In the source `undefined < 0` is false, so such an entry passes the check at inventory.js:193 and the batch fails only when the save meets `required`; string coercion is not modelled either.
- ProductRoutes.ParseInt: `parseInt` is modelled for decimal strings; hexadecimal prefixes and exponent forms are not read.
- The schema defaults of `currentStock` (0) and `minStock` (5): no modelled route builds a product document from a request body, so no default is ever applied.
- The latest sale, `findOne().sort({ createdAt: -1 })`, is taken to be the last sale of the store's sequence: the store's order is taken as creation order, since `now` is an input and nothing orders the timestamps.

## Findings

| source | as written | input that shows it | evidently intended | confidence | as-written member | corrected member |
|---|---|---|---|---|---|---|
| backend/models/Sale.js:4-8 | `saleNumber` is `required`, and the document library runs the schema validators before the schema's `pre('save')` hooks, so the hook at Sale.js:120-133 never numbers a new sale; `sale.save` (sales.js:196) and `Sale.create` (salesController.js:56) refuse every new sale | any valid sale request: the draft has no `saleNumber` | the hook numbers the sale first, then the validators run | not executed; rests on the library's documented hook order | SaleModel.UnnumberedRefusedAsWritten | SaleModel.HookFirstSavesUnnumbered |
