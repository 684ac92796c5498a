/** The inventory ledger's entries (`InventoryTransaction`): who, where,
    what kind of movement, a signed quantity in the resource's base unit and
    its value, and the filtered sums every stock query is built from.

    Dates are day numbers. Quantities, prices and values are `real`. */
module Transactions {
  import opened Wrappers

  /** A database id: auto-increment ids start at 1, so an id is never falsy. */
  type Id = n: nat | n > 0 witness 1

  /** Where stock sits: the central hub (`project_id` null) or a project. */
  datatype Location = Hub | Project(id: Id)

  /** `project_id` as the queries read it: null is the hub. */
  function LocationOf(projectId: Option<Id>): (loc: Location)
    ensures loc.Hub? <==> projectId.None?
    ensures projectId.Some? ==> loc == Project(projectId.value)
  {
    match projectId
    case None => Hub
    case Some(id) => Project(id)
  }

  /** The nine transaction types. */
  datatype TxType =
    | Purchase | GoodsReceipt | AllocationOut | AllocationIn | Consumption
    | DirectConsumption | TransferOut | TransferIn | Adjustment

  /** The string each type is stored as. */
  function TypeName(t: TxType): string {
    match t
    case Purchase => "PURCHASE"
    case GoodsReceipt => "GOODS_RECEIPT"
    case AllocationOut => "ALLOCATION_OUT"
    case AllocationIn => "ALLOCATION_IN"
    case Consumption => "CONSUMPTION"
    case DirectConsumption => "DIRECT_CONSUMPTION"
    case TransferOut => "TRANSFER_OUT"
    case TransferIn => "TRANSFER_IN"
    case Adjustment => "ADJUSTMENT"
  }

  /** `getTransactionTypes()`. */
  const TransactionTypes: seq<TxType> := [
    Purchase, GoodsReceipt, AllocationOut, AllocationIn, Consumption,
    DirectConsumption, TransferOut, TransferIn, Adjustment]

  /** The list names every type once. */
  lemma TransactionTypesExact()
    ensures |TransactionTypes| == 9
    ensures forall t: TxType :: t in TransactionTypes
    ensures forall i, j :: 0 <= i < j < |TransactionTypes| ==> TransactionTypes[i] != TransactionTypes[j]
  {
    forall t: TxType
      ensures t in TransactionTypes
    {
      match t
      case Purchase => assert TransactionTypes[0] == t;
      case GoodsReceipt => assert TransactionTypes[1] == t;
      case AllocationOut => assert TransactionTypes[2] == t;
      case AllocationIn => assert TransactionTypes[3] == t;
      case Consumption => assert TransactionTypes[4] == t;
      case DirectConsumption => assert TransactionTypes[5] == t;
      case TransferOut => assert TransactionTypes[6] == t;
      case TransferIn => assert TransactionTypes[7] == t;
      case Adjustment => assert TransactionTypes[8] == t;
    }
  }

  /** Reads a stored type name back (the column's enum). */
  function ParseType(name: string): Option<TxType> {
    if name == "PURCHASE" then Some(Purchase)
    else if name == "GOODS_RECEIPT" then Some(GoodsReceipt)
    else if name == "ALLOCATION_OUT" then Some(AllocationOut)
    else if name == "ALLOCATION_IN" then Some(AllocationIn)
    else if name == "CONSUMPTION" then Some(Consumption)
    else if name == "DIRECT_CONSUMPTION" then Some(DirectConsumption)
    else if name == "TRANSFER_OUT" then Some(TransferOut)
    else if name == "TRANSFER_IN" then Some(TransferIn)
    else if name == "ADJUSTMENT" then Some(Adjustment)
    else None
  }

  /** Every stored name reads back as its type, so no two types share a name. */
  lemma TypeNameRoundTrip(t: TxType)
    ensures ParseType(TypeName(t)) == Some(t)
  {
  }

  lemma TypeNameInjective(a: TxType, b: TxType)
    ensures TypeName(a) == TypeName(b) ==> a == b
  {
    TypeNameRoundTrip(a);
    TypeNameRoundTrip(b);
  }

  /** One immutable ledger row. */
  datatype Entry = Entry(
    resource: Id,
    location: Location,
    txType: TxType,
    quantity: real,
    unitPrice: real,
    totalValue: real,
    date: int)

  /** `InventoryTransaction::create`: whatever total the caller passes, the
      creating hook stores `quantity * unit_price`. */
  function Create(resource: Id, location: Location, txType: TxType, quantity: real, unitPrice: real, date: int): (e: Entry)
    ensures WellFormed(e)
    ensures e.resource == resource && e.location == location && e.txType == txType
    ensures e.quantity == quantity && e.unitPrice == unitPrice && e.date == date
  {
    Entry(resource, location, txType, quantity, unitPrice, quantity * unitPrice, date)
  }

  /** What the creating hook guarantees of every stored entry. */
  predicate WellFormed(e: Entry) {
    e.totalValue == e.quantity * e.unitPrice
  }

  predicate AllWellFormed(es: seq<Entry>) {
    forall i :: 0 <= i < |es| ==> WellFormed(es[i])
  }

  lemma AllWellFormedAppend(a: seq<Entry>, b: seq<Entry>)
    requires AllWellFormed(a) && AllWellFormed(b)
    ensures AllWellFormed(a + b)
  {
    forall i | 0 <= i < |a + b|
      ensures WellFormed((a + b)[i])
    {
      if i >= |a| {
        assert (a + b)[i] == b[i - |a|];
      }
    }
  }

  predicate IsHubTransaction(e: Entry) {
    e.location == Hub
  }

  predicate IsProjectTransaction(e: Entry) {
    e.location != Hub
  }

  predicate IsIncoming(e: Entry) {
    e.quantity > 0.0
  }

  predicate IsOutgoing(e: Entry) {
    e.quantity < 0.0
  }

  /** Every entry is at the hub or at a project and not both; no entry is
      both incoming and outgoing, and a zero quantity is neither. */
  lemma Classification(e: Entry)
    ensures IsHubTransaction(e) <==> !IsProjectTransaction(e)
    ensures IsProjectTransaction(e) <==> e.location.Project?
    ensures !(IsIncoming(e) && IsOutgoing(e))
    ensures e.quantity == 0.0 <==> !IsIncoming(e) && !IsOutgoing(e)
  {
  }

  // Filtered sums. `Sum(es, keep, val)` is `$query->sum(...)` over the
  // entries `keep` selects; the filters below are the query builders'
  // `where` clauses.

  function Sum(es: seq<Entry>, keep: Entry -> bool, val: Entry -> real): real
    decreases |es|
  {
    if es == [] then 0.0
    else Sum(es[..|es| - 1], keep, val) + (if keep(es[|es| - 1]) then val(es[|es| - 1]) else 0.0)
  }

  function Quantity(e: Entry): real {
    e.quantity
  }

  function Value(e: Entry): real {
    e.totalValue
  }

  /** The sum over a ledger written in two parts is the sum of the parts. */
  lemma {:induction false} SumConcat(a: seq<Entry>, b: seq<Entry>, keep: Entry -> bool, val: Entry -> real)
    ensures Sum(a + b, keep, val) == Sum(a, keep, val) + Sum(b, keep, val)
    decreases |b|
  {
    if b != [] {
      assert (a + b)[..|a + b| - 1] == a + b[..|b| - 1];
      SumConcat(a, b[..|b| - 1], keep, val);
    } else {
      assert a + b == a;
    }
  }

  /** Two filters that agree on every entry give the same sum. */
  lemma {:induction false} SumExt(es: seq<Entry>, k1: Entry -> bool, k2: Entry -> bool, val: Entry -> real)
    requires forall i :: 0 <= i < |es| ==> k1(es[i]) == k2(es[i])
    ensures Sum(es, k1, val) == Sum(es, k2, val)
    decreases |es|
  {
    if es != [] {
      SumExt(es[..|es| - 1], k1, k2, val);
    }
  }

  /** A filter that is the disjoint union of two others sums to their sum. */
  lemma {:induction false} SumPartition(es: seq<Entry>, k: Entry -> bool, k1: Entry -> bool, k2: Entry -> bool, val: Entry -> real)
    requires forall i :: 0 <= i < |es| ==> k(es[i]) == (k1(es[i]) || k2(es[i])) && !(k1(es[i]) && k2(es[i]))
    ensures Sum(es, k, val) == Sum(es, k1, val) + Sum(es, k2, val)
    decreases |es|
  {
    if es != [] {
      SumPartition(es[..|es| - 1], k, k1, k2, val);
    }
  }

  /** A sum of values that are all non-negative (non-positive) is too. */
  lemma {:induction false} SumSign(es: seq<Entry>, keep: Entry -> bool, val: Entry -> real)
    ensures (forall i :: 0 <= i < |es| && keep(es[i]) ==> val(es[i]) >= 0.0) ==> Sum(es, keep, val) >= 0.0
    ensures (forall i :: 0 <= i < |es| && keep(es[i]) ==> val(es[i]) <= 0.0) ==> Sum(es, keep, val) <= 0.0
    decreases |es|
  {
    if es != [] {
      SumSign(es[..|es| - 1], keep, val);
    }
  }

  /** A filter that keeps nothing sums to zero. */
  lemma {:induction false} SumNoneKept(es: seq<Entry>, keep: Entry -> bool, val: Entry -> real)
    requires forall i :: 0 <= i < |es| ==> !keep(es[i])
    ensures Sum(es, keep, val) == 0.0
    decreases |es|
  {
    if es != [] {
      SumNoneKept(es[..|es| - 1], keep, val);
    }
  }

  /** A sum of positive values is positive exactly when the filter keeps
      something. */
  lemma {:induction false} SumPositive(es: seq<Entry>, keep: Entry -> bool, val: Entry -> real)
    requires forall i :: 0 <= i < |es| && keep(es[i]) ==> val(es[i]) > 0.0
    ensures Sum(es, keep, val) >= 0.0
    ensures Sum(es, keep, val) > 0.0 <==> exists i :: 0 <= i < |es| && keep(es[i])
    decreases |es|
  {
    if es != [] {
      var init := es[..|es| - 1];
      assert forall i :: 0 <= i < |init| ==> init[i] == es[i];
      SumPositive(init, keep, val);
      if !keep(es[|es| - 1]) && exists i :: 0 <= i < |es| && keep(es[i]) {
        var i :| 0 <= i < |es| && keep(es[i]);
        assert keep(init[i]);
      }
    }
  }

  /** A sum of negative values is negative exactly when the filter keeps
      something. */
  lemma {:induction false} SumNegative(es: seq<Entry>, keep: Entry -> bool, val: Entry -> real)
    requires forall i :: 0 <= i < |es| && keep(es[i]) ==> val(es[i]) < 0.0
    ensures Sum(es, keep, val) <= 0.0
    ensures Sum(es, keep, val) < 0.0 <==> exists i :: 0 <= i < |es| && keep(es[i])
    decreases |es|
  {
    if es != [] {
      var init := es[..|es| - 1];
      assert forall i :: 0 <= i < |init| ==> init[i] == es[i];
      SumNegative(init, keep, val);
      if !keep(es[|es| - 1]) && exists i :: 0 <= i < |es| && keep(es[i]) {
        var i :| 0 <= i < |es| && keep(es[i]);
        assert keep(init[i]);
      }
    }
  }

  /** In a well-formed ledger the summed value of entries at one unit price
      is their summed quantity times that price. */
  lemma {:induction false} SumAtPrice(es: seq<Entry>, keep: Entry -> bool, price: real)
    requires AllWellFormed(es)
    requires forall i :: 0 <= i < |es| && keep(es[i]) ==> es[i].unitPrice == price
    ensures Sum(es, keep, Value) == Sum(es, keep, Quantity) * price
    decreases |es|
  {
    if es != [] {
      SumAtPrice(es[..|es| - 1], keep, price);
    }
  }

  /** The sum over a one-entry ledger. */
  lemma SumOfOne(e: Entry, keep: Entry -> bool, val: Entry -> real)
    ensures Sum([e], keep, val) == if keep(e) then val(e) else 0.0
  {
    assert [e][..0] == [];
  }

  lemma SumOfTwo(e1: Entry, e2: Entry, keep: Entry -> bool, val: Entry -> real)
    ensures Sum([e1, e2], keep, val) == (if keep(e1) then val(e1) else 0.0) + (if keep(e2) then val(e2) else 0.0)
  {
    assert [e1, e2][..1] == [e1];
    SumOfOne(e1, keep, val);
  }

  /** The entries of one resource at one location. */
  function At(resource: Id, loc: Location): Entry -> bool {
    (e: Entry) => e.resource == resource && e.location == loc
  }

  /** `getCurrentStock` (and `StockCalculator::getHubStock` for the hub). */
  function Stock(es: seq<Entry>, resource: Id, loc: Location): real {
    Sum(es, At(resource, loc), Quantity)
  }

  /** Appending entries moves a location's stock by their quantities there. */
  lemma StockAppend(es: seq<Entry>, more: seq<Entry>, resource: Id, loc: Location)
    ensures Stock(es + more, resource, loc) == Stock(es, resource, loc) + Stock(more, resource, loc)
  {
    SumConcat(es, more, At(resource, loc), Quantity);
  }

  /** The stock of a ledger of one or two entries. */
  lemma StockOfOne(e: Entry, resource: Id, loc: Location)
    ensures Stock([e], resource, loc) == if e.resource == resource && e.location == loc then e.quantity else 0.0
  {
    SumOfOne(e, At(resource, loc), Quantity);
    assert At(resource, loc)(e) == (e.resource == resource && e.location == loc);
  }

  lemma StockOfTwo(e1: Entry, e2: Entry, resource: Id, loc: Location)
    ensures Stock([e1, e2], resource, loc) ==
      (if e1.resource == resource && e1.location == loc then e1.quantity else 0.0)
      + (if e2.resource == resource && e2.location == loc then e2.quantity else 0.0)
  {
    SumOfTwo(e1, e2, At(resource, loc), Quantity);
  }

  /** The summed value at one location (`sum('total_value')`). */
  function StockValue(es: seq<Entry>, resource: Id, loc: Location): real {
    Sum(es, At(resource, loc), Value)
  }

  lemma StockValueAppend(es: seq<Entry>, more: seq<Entry>, resource: Id, loc: Location)
    ensures StockValue(es + more, resource, loc) == StockValue(es, resource, loc) + StockValue(more, resource, loc)
  {
    SumConcat(es, more, At(resource, loc), Value);
  }

  lemma StockValueOfTwo(e1: Entry, e2: Entry, resource: Id, loc: Location)
    ensures StockValue([e1, e2], resource, loc) ==
      (if e1.resource == resource && e1.location == loc then e1.totalValue else 0.0)
      + (if e2.resource == resource && e2.location == loc then e2.totalValue else 0.0)
  {
    SumOfTwo(e1, e2, At(resource, loc), Value);
  }

  lemma StockValueOfOne(e: Entry, resource: Id, loc: Location)
    ensures StockValue([e], resource, loc) == if e.resource == resource && e.location == loc then e.totalValue else 0.0
  {
    SumOfOne(e, At(resource, loc), Value);
  }

  /** The entries of one resource, wherever they are. */
  function OfResource(resource: Id): Entry -> bool {
    (e: Entry) => e.resource == resource
  }

  /** A resource's quantity and value summed over every location. */
  function SystemStock(es: seq<Entry>, resource: Id): real {
    Sum(es, OfResource(resource), Quantity)
  }

  function SystemValue(es: seq<Entry>, resource: Id): real {
    Sum(es, OfResource(resource), Value)
  }

  /** The system-wide sums of a ledger of two entries. */
  lemma SystemAppend(es: seq<Entry>, more: seq<Entry>, resource: Id)
    ensures SystemStock(es + more, resource) == SystemStock(es, resource) + SystemStock(more, resource)
    ensures SystemValue(es + more, resource) == SystemValue(es, resource) + SystemValue(more, resource)
  {
    SumConcat(es, more, OfResource(resource), Quantity);
    SumConcat(es, more, OfResource(resource), Value);
  }

  lemma SystemOfTwo(e1: Entry, e2: Entry, resource: Id)
    ensures SystemStock([e1, e2], resource) ==
      (if e1.resource == resource then e1.quantity else 0.0) + (if e2.resource == resource then e2.quantity else 0.0)
    ensures SystemValue([e1, e2], resource) ==
      (if e1.resource == resource then e1.totalValue else 0.0) + (if e2.resource == resource then e2.totalValue else 0.0)
  {
    SumOfTwo(e1, e2, OfResource(resource), Quantity);
    SumOfTwo(e1, e2, OfResource(resource), Value);
  }

  lemma SystemOfOne(e: Entry, resource: Id)
    ensures SystemStock([e], resource) == if e.resource == resource then e.quantity else 0.0
    ensures SystemValue([e], resource) == if e.resource == resource then e.totalValue else 0.0
  {
    SumOfOne(e, OfResource(resource), Quantity);
    SumOfOne(e, OfResource(resource), Value);
  }

  /** `getWeightedAveragePrice`: summed value over summed quantity at a
      location, or 0 when the summed quantity is not positive. */
  function AveragePrice(es: seq<Entry>, resource: Id, loc: Location): (p: real)
    ensures Stock(es, resource, loc) <= 0.0 ==> p == 0.0
    ensures Stock(es, resource, loc) > 0.0 ==>
      p * Stock(es, resource, loc) == StockValue(es, resource, loc)
  {
    var q := Stock(es, resource, loc);
    if q <= 0.0 then 0.0 else StockValue(es, resource, loc) / q
  }

  /** When every entry at a location was booked at one price, the weighted
      average is that price. */
  lemma AveragePriceUniform(es: seq<Entry>, resource: Id, loc: Location, price: real)
    requires AllWellFormed(es)
    requires forall i :: 0 <= i < |es| && At(resource, loc)(es[i]) ==> es[i].unitPrice == price
    requires Stock(es, resource, loc) > 0.0
    ensures AveragePrice(es, resource, loc) == price
  {
    var q := Stock(es, resource, loc);
    var p := AveragePrice(es, resource, loc);
    SumAtPrice(es, At(resource, loc), price);
    assert (p - price) * q == 0.0;
  }
}
