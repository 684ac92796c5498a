/** A goods receipt note's line item (`GoodsReceiptNoteLineItem`): the
    total its hooks keep and the base quantity it converts to. */
module GrnLineItems {
  import opened Wrappers
  import opened Decimal
  import opened UnitConversion

  /** One received line: the resource's id and, when the resource exists,
      its base unit; the quantity in the receipt unit and the unit price. */
  datatype LineItem = LineItem(
    resourceId: Option<nat>,
    baseUnit: Option<string>,
    quantityReceived: real,
    receiptUnit: string,
    unitPrice: Option<real>,
    totalValue: Option<real>)

  /** A quantity as the hooks read it, through its `decimal:3` cast. */
  function ReadQuantity(q: real): real {
    Round(q, 3)
  }

  /** A price as the hooks read it, through its `decimal:2` cast; a null
      price counts as 0 in PHP arithmetic. */
  function ReadPrice(p: Option<real>): real {
    if p.None? then 0.0 else Round(p.value, 2)
  }

  /** `quantity_received * unit_price` as the hooks compute it. */
  function CastTotal(q: real, p: Option<real>): real {
    ReadQuantity(q) * ReadPrice(p)
  }

  /** The total agrees with quantity and price as the casts read them. */
  predicate TotalConsistent(li: LineItem) {
    li.totalValue == Some(CastTotal(li.quantityReceived, li.unitPrice))
  }

  /** The creating hook: the total is computed whenever the price is set,
      and left as given otherwise. The quantity is read through its
      `decimal:3` cast, so any quantity, zero included, is a non-empty
      string such as "0.000" and passes the hook's truthiness test; the
      product is taken of the cast values, three and two decimals. */
  function LineCreating(li: LineItem): (r: LineItem)
    ensures r.(totalValue := li.totalValue) == li
    ensures li.unitPrice.Some? ==> TotalConsistent(r)
    ensures li.unitPrice.None? ==> r == li
  {
    if li.unitPrice.Some? then
      li.(totalValue := Some(CastTotal(li.quantityReceived, li.unitPrice)))
    else li
  }

  /** With a price set, the hook's total is the product of quantity and
      price rounded to the casts' three and two decimals. */
  lemma CreatingTotal(li: LineItem)
    requires li.unitPrice.Some?
    ensures LineCreating(li).totalValue == Some(Round(li.quantityReceived, 3) * Round(li.unitPrice.value, 2))
  {
  }

  /** A zero quantity at a set price still has its total recomputed: a
      given total of 7.00 at 0 units of 5.00 is stored as 0. */
  lemma ZeroQuantityCreating()
    ensures var li := LineItem(Some(1), Some("piece"), 0.0, "piece", Some(5.0), Some(7.0));
      LineCreating(li).totalValue == Some(0.0) && TotalConsistent(LineCreating(li))
  {
    RoundExact(0, 3);
    assert ReadQuantity(0.0) == 0.0;
    assert CastTotal(0.0, Some(5.0)) == 0.0;
  }

  /** A quantity and a price that already have the casts' three and two
      decimals are read as they are, so the hook's total is their exact
      product. */
  lemma CreatingAtCastPrecision(li: LineItem, k: int, m: int)
    requires li.quantityReceived == k as real / (Pow10(3) as real)
    requires li.unitPrice == Some(m as real / (Pow10(2) as real))
    ensures LineCreating(li).totalValue == Some(li.quantityReceived * li.unitPrice.value)
  {
    RoundExact(k, 3);
    RoundExact(m, 2);
  }

  /** The updating hook: the total is recomputed only when quantity or price
      changed since the stored version `original`. */
  function LineUpdating(original: LineItem, li: LineItem): (r: LineItem)
    ensures r.(totalValue := li.totalValue) == li
    ensures li.quantityReceived == original.quantityReceived && li.unitPrice == original.unitPrice ==> r == li
    ensures li.quantityReceived != original.quantityReceived || li.unitPrice != original.unitPrice ==> TotalConsistent(r)
  {
    if li.quantityReceived != original.quantityReceived || li.unitPrice != original.unitPrice then
      li.(totalValue := Some(CastTotal(li.quantityReceived, li.unitPrice)))
    else li
  }

  /** An update keeps a consistent stored total consistent, whether or not it
      touches quantity or price (the total itself is not edited). */
  lemma UpdatingKeepsTotal(original: LineItem, li: LineItem)
    requires TotalConsistent(original) && li.totalValue == original.totalValue
    ensures TotalConsistent(LineUpdating(original, li))
  {
  }

  /** The base quantity with the factor of groups `gs`: 0 without a
      resource, otherwise the received quantity converted to the base unit. */
  function BaseQuantityIn(gs: seq<Table<real>>, li: LineItem): real
    requires AllPositive(gs)
  {
    if li.baseUnit.None? then 0.0 else GroupedConvert(gs, li.quantityReceived, li.receiptUnit, li.baseUnit.value)
  }

  /** `getBaseQuantity`, with `getConversionFactor`'s four measure groups. */
  function BaseQuantity(li: LineItem): real {
    LineGroupsPositive();
    BaseQuantityIn(LineGroups, li)
  }

  /** `getBaseQuantity` with the count units converted as well. */
  function CorrectedBaseQuantity(li: LineItem): real {
    CorrectedLineGroupsPositive();
    BaseQuantityIn(CorrectedLineGroups, li)
  }

  /** The base quantity is positive exactly when the resource exists and the
      received quantity is positive. */
  lemma BaseQuantityPositive(gs: seq<Table<real>>, li: LineItem)
    requires AllPositive(gs)
    ensures BaseQuantityIn(gs, li) > 0.0 <==> li.baseUnit.Some? && li.quantityReceived > 0.0
  {
  }

  /** The price per base unit the receipt books: the unit price (0 when
      null) over the line's factor. */
  function BasePrice(gs: seq<Table<real>>, li: LineItem): real
    requires AllPositive(gs) && li.baseUnit.Some?
  {
    GroupedBooking(gs, li.quantityReceived, li.unitPrice.GetOr(0.0), li.receiptUnit, li.baseUnit.value).unitPrice
  }

  /** Booking the base quantity at that price keeps the line's value. */
  lemma BaseQuantityKeepsValue(gs: seq<Table<real>>, li: LineItem)
    requires AllPositive(gs) && li.baseUnit.Some?
    ensures BaseQuantityIn(gs, li) * BasePrice(gs, li) == li.quantityReceived * li.unitPrice.GetOr(0.0)
  {
    var b := GroupedBooking(gs, li.quantityReceived, li.unitPrice.GetOr(0.0), li.receiptUnit, li.baseUnit.value);
    assert KeepsValue(b, li.quantityReceived, li.unitPrice.GetOr(0.0));
  }

  /** As written, 3 dozen received for a resource counted in pieces book as
      3 pieces; with the count group they book as 36. */
  lemma DozenReceipt(li: LineItem)
    requires li.baseUnit == Some("piece") && li.receiptUnit == "dozen" && li.quantityReceived == 3.0
    ensures BaseQuantity(li) == 3.0
    ensures CorrectedBaseQuantity(li) == 36.0
  {
    LineFactorIgnoresCounts();
    CorrectedCounts();
  }
}
