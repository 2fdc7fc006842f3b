/** The inventory-movement ledger record of
    backend/models/InventoryMovement.js: one append-only row per stock
    change, naming the product, the kind of change, the signed quantity and
    the stock before and after. */
module Movements {
  import opened Common
  import P = Products

  datatype MovementType = Purchase | SaleOut | Adjustment | Transfer | Return | Damage
  {
    /** The value stored in the `type` field. */
    function Name(): string {
      match this
      case Purchase => "purchase"
      case SaleOut => "sale"
      case Adjustment => "adjustment"
      case Transfer => "transfer"
      case Return => "return"
      case Damage => "damage"
    }
  }

  /** The schema's `enum` check on `type`: only the six listed names are accepted. */
  function ParseMovementType(s: string): (r: Option<MovementType>)
    ensures r.Some? ==> r.value.Name() == s
  {
    if s == "purchase" then Some(Purchase)
    else if s == "sale" then Some(SaleOut)
    else if s == "adjustment" then Some(Adjustment)
    else if s == "transfer" then Some(Transfer)
    else if s == "return" then Some(Return)
    else if s == "damage" then Some(Damage)
    else None
  }

  lemma ParseMovementTypeName(t: MovementType)
    ensures ParseMovementType(t.Name()) == Some(t)
  {
  }

  datatype DocumentType = SaleDocument | PurchaseOrderDocument | AdjustmentDocument | TransferDocument
  {
    function Name(): string {
      match this
      case SaleDocument => "sale"
      case PurchaseOrderDocument => "purchase_order"
      case AdjustmentDocument => "adjustment"
      case TransferDocument => "transfer"
    }
  }

  /** The schema's `enum` check on `reference.documentType`. */
  function ParseDocumentType(s: string): (r: Option<DocumentType>)
    ensures r.Some? ==> r.value.Name() == s
  {
    if s == "sale" then Some(SaleDocument)
    else if s == "purchase_order" then Some(PurchaseOrderDocument)
    else if s == "adjustment" then Some(AdjustmentDocument)
    else if s == "transfer" then Some(TransferDocument)
    else None
  }

  lemma ParseDocumentTypeName(t: DocumentType)
    ensures ParseDocumentType(t.Name()) == Some(t)
  {
  }

  datatype Reference = Reference(documentType: DocumentType, documentId: nat, documentNumber: string)

  /** `quantity`, `previousStock` and `newStock` are required plain numbers:
      `quantity` has no lower bound, so it carries a sign. */
  datatype Movement = Movement(
    product: ProductId,
    kind: MovementType,
    quantity: int,
    previousStock: int,
    newStock: int,
    unitCost: Option<int>,
    totalCost: Option<int>,
    reference: Option<Reference>,
    user: UserId,
    fromLocation: Option<P.Location>,
    toLocation: Option<P.Location>)

  /** The schema's validators beyond the types: `unitCost` and `totalCost`,
      when present, are `min: 0`. */
  predicate ValidMovement(m: Movement) {
    && (m.unitCost.Some? ==> m.unitCost.value >= 0)
    && (m.totalCost.Some? ==> m.totalCost.value >= 0)
  }

  /** A movement is consistent with the signed-quantity convention when its
      new stock is its previous stock plus its quantity. */
  predicate Signed(m: Movement) {
    m.newStock == m.previousStock + m.quantity
  }
}
