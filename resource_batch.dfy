/** `ResourceBatch`: one purchase lot of a resource, held at the hub or at a
    project, counted in its own unit. */
module ResourceBatch {
  import opened Wrappers
  import opened Transactions

  datatype Batch = Batch(
    id: nat,
    location: Location,
    unitType: string,
    conversionFactor: real,
    purchasePrice: real,
    quantityPurchased: real,
    quantityRemaining: real,
    purchaseDate: int,
    supplier: Option<string>)

  /** The database's check constraints on a batch, and a conversion factor
      a batch quantity can be divided by. */
  predicate Sound(b: Batch) {
    0.0 <= b.quantityRemaining <= b.quantityPurchased && b.conversionFactor > 0.0
  }

  /** `getTotalValueAttribute`: what is left, at the batch's price. */
  function TotalValue(b: Batch): (v: real)
    ensures b.quantityRemaining == 0.0 ==> v == 0.0
    ensures b.quantityRemaining >= 0.0 && b.purchasePrice >= 0.0 ==> v >= 0.0
  {
    b.quantityRemaining * b.purchasePrice
  }

  /** `getQuantityUsedAttribute`: what has been taken out of the lot. */
  function QuantityUsed(b: Batch): (u: real)
    ensures Sound(b) ==> 0.0 <= u <= b.quantityPurchased
    ensures b.quantityRemaining == 0.0 ==> u == b.quantityPurchased
    ensures b.quantityRemaining == b.quantityPurchased ==> u == 0.0
  {
    b.quantityPurchased - b.quantityRemaining
  }

  /** What is left, in the resource's base unit. */
  function BaseQuantity(b: Batch): (q: real)
    ensures Sound(b) ==> q >= 0.0
    ensures Sound(b) ==> (q == 0.0 <==> b.quantityRemaining == 0.0)
  {
    b.quantityRemaining * b.conversionFactor
  }
}
