/** Identifiers, optional values and the error taxonomy shared by every
    part of the point-of-sale model.

    Document identifiers of the document store are modelled as natural
    numbers; timestamps (`new Date()` in the routes) are opaque integers
    supplied by the caller. */
module Common {

  type ProductId = nat
  type SaleId = nat
  type CustomerId = nat
  type UserId = nat
  type SupplierId = nat
  type CategoryId = nat
  type Time = int

  datatype Option<+T> = None | Some(value: T)

  /** `x || 0` on an optional number: an absent value, and also 0, give 0. */
  function OrZero(x: Option<int>): (r: int)
    ensures x.None? ==> r == 0
    ensures x.Some? ==> r == x.value
  {
    if x.Some? then x.value else 0
  }

  /** The failures the routes report. Each of them aborts the operation
      that raises it, with no effect on the store. */
  datatype Error =
    | ValidationFailed                         // the request itself is malformed (HTTP 400)
    | ProductNotFound(product: ProductId)
    | ProductInactive(product: ProductId)
    | ProductUnavailable(product: ProductId)   // not found or inactive (one message in the controller)
    | InvalidQuantity(product: ProductId)
    | InsufficientStock(product: ProductId, available: int)
    | SchemaViolation                          // a document failed its schema validators on save
    | SaleNotFound(sale: SaleId)
    | NotCompleted                             // only completed sales may be cancelled or refunded
    | AlreadyRefunded
    | NotInSale(product: ProductId)
    | RefundExceedsSale(product: ProductId)
    | InvalidAdjustment
    | InvalidTransfer
    | DuplicateSku
    | MissingCashier(cashier: UserId)          // a sale whose cashier cannot be resolved

  datatype Result<+T> = Ok(value: T) | Err(error: Error)
}
