/** `InventoryTransactionService`: the operations that append entries to the
    inventory ledger. Each operation is a pure step that, from the ledger so
    far, either rejects the request or yields the entries to append; the
    `Ledger` class applies the step to its sequence of entries. */
module InventoryLedger {
  import opened Wrappers
  import opened Transactions
  import opened UnitConversion
  import opened GrnLineItems

  /** Why the service refuses a request (`InvalidArgumentException`). */
  datatype LedgerError =
    | NonPositiveQuantity
    | NegativePrice
    | InsufficientStock(available: real, requested: real)
    | SameProject
    | IncompleteReceipt
    | InvalidLine(resourceId: Option<nat>)
    | InvalidConversion(convertedId: nat)
    | Immutable
    | Permanent

  /** The entries a step appends: its result, or nothing when it failed. */
  function Appended(r: Result<seq<Entry>, LedgerError>): seq<Entry> {
    if r.Ok? then r.value else []
  }

  // ------------------------------------------------------------------
  // Purchase

  /** `recordPurchase`: a positive quantity at a non-negative price enters
      the hub. */
  function PurchaseStep(resource: Id, quantity: real, unitPrice: real, date: int): (r: Result<seq<Entry>, LedgerError>)
    ensures r.Err? <==> quantity <= 0.0 || unitPrice < 0.0
    ensures quantity <= 0.0 ==> r == Err(NonPositiveQuantity)
    ensures r.Ok? ==> AllWellFormed(r.value)
  {
    if quantity <= 0.0 then Err(NonPositiveQuantity)
    else if unitPrice < 0.0 then Err(NegativePrice)
    else Ok([Create(resource, Hub, TxType.Purchase, quantity, unitPrice, date)])
  }

  /** A purchase raises the hub's stock of its resource by the quantity and
      its value by quantity times price; no other stock moves. */
  lemma PurchaseEffect(es: seq<Entry>, resource: Id, quantity: real, unitPrice: real, date: int, other: Id, loc: Location)
    requires PurchaseStep(resource, quantity, unitPrice, date).Ok?
    ensures var after := es + Appended(PurchaseStep(resource, quantity, unitPrice, date));
      Stock(after, other, loc) == Stock(es, other, loc) + (if other == resource && loc == Hub then quantity else 0.0)
      && StockValue(after, other, loc) == StockValue(es, other, loc) + (if other == resource && loc == Hub then quantity * unitPrice else 0.0)
  {
    var e := Create(resource, Hub, TxType.Purchase, quantity, unitPrice, date);
    StockAppend(es, [e], other, loc);
    StockOfOne(e, other, loc);
    StockValueAppend(es, [e], other, loc);
    StockValueOfOne(e, other, loc);
  }

  // ------------------------------------------------------------------
  // Withdrawals at the weighted average price

  /** Taking `q` out of a location at its weighted average price leaves that
      average as it was, as long as some stock remains. */
  lemma {:induction false} AverageAfterWithdrawal(es: seq<Entry>, after: seq<Entry>, resource: Id, loc: Location, q: real)
    requires q > 0.0
    requires Stock(after, resource, loc) == Stock(es, resource, loc) - q
    requires StockValue(after, resource, loc) == StockValue(es, resource, loc) - q * AveragePrice(es, resource, loc)
    requires Stock(after, resource, loc) > 0.0
    ensures AveragePrice(after, resource, loc) == AveragePrice(es, resource, loc)
  {
    var p := AveragePrice(es, resource, loc);
    var p' := AveragePrice(after, resource, loc);
    var n := Stock(after, resource, loc);
    assert p * (n + q) == StockValue(es, resource, loc);
    assert p' * n == p * (n + q) - q * p;
    assert (p' - p) * n == 0.0;
  }

  // ------------------------------------------------------------------
  // Allocation from the hub to a project

  /** `recordAllocation`: a positive quantity that the hub holds leaves the
      hub and enters the project, both at the hub's weighted average price. */
  function AllocationStep(es: seq<Entry>, resource: Id, project: Id, quantity: real, date: int): (r: Result<seq<Entry>, LedgerError>)
    ensures quantity <= 0.0 ==> r == Err(NonPositiveQuantity)
    ensures quantity > 0.0 && Stock(es, resource, Hub) < quantity ==>
      r == Err(InsufficientStock(Stock(es, resource, Hub), quantity))
    ensures r.Ok? <==> 0.0 < quantity <= Stock(es, resource, Hub)
    ensures r.Ok? ==> AllWellFormed(r.value)
  {
    if quantity <= 0.0 then Err(NonPositiveQuantity)
    else
      var hubStock := Stock(es, resource, Hub);
      if hubStock < quantity then Err(InsufficientStock(hubStock, quantity))
      else
        var price := AveragePrice(es, resource, Hub);
        Ok([Create(resource, Hub, AllocationOut, -quantity, price, date),
            Create(resource, Project(project), AllocationIn, quantity, price, date)])
  }

  /** An allocation moves the quantity, and its value at the hub's average
      price, from the hub to the project and leaves every other stock as it
      was; the hub never goes negative. */
  lemma AllocationMoves(es: seq<Entry>, resource: Id, project: Id, quantity: real, date: int, other: Id, loc: Location)
    requires AllocationStep(es, resource, project, quantity, date).Ok?
    ensures var after := es + Appended(AllocationStep(es, resource, project, quantity, date));
      var delta := if other != resource then 0.0 else if loc == Hub then -quantity
        else if loc == Project(project) then quantity else 0.0;
      Stock(after, other, loc) == Stock(es, other, loc) + delta
      && StockValue(after, other, loc) == StockValue(es, other, loc) + delta * AveragePrice(es, resource, Hub)
    ensures Stock(es + Appended(AllocationStep(es, resource, project, quantity, date)), resource, Hub) >= 0.0
  {
    var price := AveragePrice(es, resource, Hub);
    var outflow := Create(resource, Hub, AllocationOut, -quantity, price, date);
    var inflow := Create(resource, Project(project), AllocationIn, quantity, price, date);
    StockAppend(es, [outflow, inflow], other, loc);
    StockOfTwo(outflow, inflow, other, loc);
    StockValueAppend(es, [outflow, inflow], other, loc);
    StockValueOfTwo(outflow, inflow, other, loc);
    StockAppend(es, [outflow, inflow], resource, Hub);
    StockOfTwo(outflow, inflow, resource, Hub);
  }

  /** An allocation neither creates nor destroys stock or value. */
  lemma AllocationConserves(es: seq<Entry>, resource: Id, project: Id, quantity: real, date: int, other: Id)
    requires AllocationStep(es, resource, project, quantity, date).Ok?
    ensures var after := es + Appended(AllocationStep(es, resource, project, quantity, date));
      SystemStock(after, other) == SystemStock(es, other) && SystemValue(after, other) == SystemValue(es, other)
  {
    var price := AveragePrice(es, resource, Hub);
    var outflow := Create(resource, Hub, AllocationOut, -quantity, price, date);
    var inflow := Create(resource, Project(project), AllocationIn, quantity, price, date);
    SystemAppend(es, [outflow, inflow], other);
    SystemOfTwo(outflow, inflow, other);
  }

  /** What remains at the hub keeps its average price. */
  lemma AllocationKeepsHubAverage(es: seq<Entry>, resource: Id, project: Id, quantity: real, date: int)
    requires AllocationStep(es, resource, project, quantity, date).Ok?
    requires Stock(es, resource, Hub) > quantity
    ensures AveragePrice(es + Appended(AllocationStep(es, resource, project, quantity, date)), resource, Hub)
      == AveragePrice(es, resource, Hub)
  {
    var after := es + Appended(AllocationStep(es, resource, project, quantity, date));
    AllocationMoves(es, resource, project, quantity, date, resource, Hub);
    AverageAfterWithdrawal(es, after, resource, Hub, quantity);
  }

  // ------------------------------------------------------------------
  // Consumption

  /** `recordConsumption`: a positive quantity that the location holds
      leaves the system at that location's weighted average price, as
      CONSUMPTION at a project or DIRECT_CONSUMPTION at the hub. */
  function ConsumptionStep(es: seq<Entry>, resource: Id, project: Option<Id>, quantity: real, date: int): (r: Result<seq<Entry>, LedgerError>)
    ensures quantity <= 0.0 ==> r == Err(NonPositiveQuantity)
    ensures quantity > 0.0 && Stock(es, resource, LocationOf(project)) < quantity ==>
      r == Err(InsufficientStock(Stock(es, resource, LocationOf(project)), quantity))
    ensures r.Ok? <==> 0.0 < quantity <= Stock(es, resource, LocationOf(project))
    ensures r.Ok? ==> AllWellFormed(r.value) && |r.value| == 1
    ensures r.Ok? ==> r.value[0].txType == (if project.Some? then TxType.Consumption else DirectConsumption)
  {
    if quantity <= 0.0 then Err(NonPositiveQuantity)
    else
      var loc := LocationOf(project);
      var available := Stock(es, resource, loc);
      if available < quantity then Err(InsufficientStock(available, quantity))
      else
        var price := AveragePrice(es, resource, loc);
        var kind := if project.Some? then TxType.Consumption else DirectConsumption;
        Ok([Create(resource, loc, kind, -quantity, price, date)])
  }

  /** Consumption lowers the location's stock by the quantity, never below
      zero, and its value by quantity times the average price; the system
      as a whole loses exactly that. */
  lemma ConsumptionEffect(es: seq<Entry>, resource: Id, project: Option<Id>, quantity: real, date: int, other: Id, loc: Location)
    requires ConsumptionStep(es, resource, project, quantity, date).Ok?
    ensures var after := es + Appended(ConsumptionStep(es, resource, project, quantity, date));
      var delta := if other == resource && loc == LocationOf(project) then -quantity else 0.0;
      Stock(after, other, loc) == Stock(es, other, loc) + delta
      && StockValue(after, other, loc) == StockValue(es, other, loc) + delta * AveragePrice(es, resource, LocationOf(project))
    ensures var after := es + Appended(ConsumptionStep(es, resource, project, quantity, date));
      Stock(after, resource, LocationOf(project)) >= 0.0
      && SystemStock(after, resource) == SystemStock(es, resource) - quantity
  {
    var src := LocationOf(project);
    var price := AveragePrice(es, resource, src);
    var kind := if project.Some? then TxType.Consumption else DirectConsumption;
    var e := Create(resource, src, kind, -quantity, price, date);
    StockAppend(es, [e], other, loc);
    StockOfOne(e, other, loc);
    StockValueAppend(es, [e], other, loc);
    StockValueOfOne(e, other, loc);
    StockAppend(es, [e], resource, src);
    StockOfOne(e, resource, src);
    SystemAppend(es, [e], resource);
    SystemOfOne(e, resource);
  }

  /** What remains at the location keeps its average price. */
  lemma ConsumptionKeepsAverage(es: seq<Entry>, resource: Id, project: Option<Id>, quantity: real, date: int)
    requires ConsumptionStep(es, resource, project, quantity, date).Ok?
    requires Stock(es, resource, LocationOf(project)) > quantity
    ensures AveragePrice(es + Appended(ConsumptionStep(es, resource, project, quantity, date)), resource, LocationOf(project))
      == AveragePrice(es, resource, LocationOf(project))
  {
    var after := es + Appended(ConsumptionStep(es, resource, project, quantity, date));
    ConsumptionEffect(es, resource, project, quantity, date, resource, LocationOf(project));
    AverageAfterWithdrawal(es, after, resource, LocationOf(project), quantity);
  }

  // ------------------------------------------------------------------
  // Transfer out of a project

  /** `recordTransfer`: a positive quantity that the source project holds
      moves to another project, or back to the hub when there is no
      destination, at the source's weighted average price. */
  function TransferStep(es: seq<Entry>, resource: Id, from: Id, to: Option<Id>, quantity: real, date: int): (r: Result<seq<Entry>, LedgerError>)
    ensures quantity <= 0.0 ==> r == Err(NonPositiveQuantity)
    ensures quantity > 0.0 && to == Some(from) ==> r == Err(SameProject)
    ensures quantity > 0.0 && to != Some(from) && Stock(es, resource, Project(from)) < quantity ==>
      r == Err(InsufficientStock(Stock(es, resource, Project(from)), quantity))
    ensures r.Ok? <==> 0.0 < quantity <= Stock(es, resource, Project(from)) && to != Some(from)
    ensures r.Ok? ==> AllWellFormed(r.value)
  {
    if quantity <= 0.0 then Err(NonPositiveQuantity)
    else if to == Some(from) then Err(SameProject)
    else
      var available := Stock(es, resource, Project(from));
      if available < quantity then Err(InsufficientStock(available, quantity))
      else
        var price := AveragePrice(es, resource, Project(from));
        Ok([Create(resource, Project(from), TransferOut, -quantity, price, date),
            Create(resource, LocationOf(to), TransferIn, quantity, price, date)])
  }

  /** A transfer moves the quantity, and its value at the source's average
      price, from the source to the destination; nothing else moves and the
      source never goes negative. */
  lemma TransferMoves(es: seq<Entry>, resource: Id, from: Id, to: Option<Id>, quantity: real, date: int, other: Id, loc: Location)
    requires TransferStep(es, resource, from, to, quantity, date).Ok?
    ensures var after := es + Appended(TransferStep(es, resource, from, to, quantity, date));
      var delta := if other != resource then 0.0 else if loc == Project(from) then -quantity
        else if loc == LocationOf(to) then quantity else 0.0;
      Stock(after, other, loc) == Stock(es, other, loc) + delta
      && StockValue(after, other, loc) == StockValue(es, other, loc) + delta * AveragePrice(es, resource, Project(from))
    ensures Stock(es + Appended(TransferStep(es, resource, from, to, quantity, date)), resource, Project(from)) >= 0.0
  {
    var price := AveragePrice(es, resource, Project(from));
    var outflow := Create(resource, Project(from), TransferOut, -quantity, price, date);
    var inflow := Create(resource, LocationOf(to), TransferIn, quantity, price, date);
    StockAppend(es, [outflow, inflow], other, loc);
    StockOfTwo(outflow, inflow, other, loc);
    StockValueAppend(es, [outflow, inflow], other, loc);
    StockValueOfTwo(outflow, inflow, other, loc);
    StockAppend(es, [outflow, inflow], resource, Project(from));
    StockOfTwo(outflow, inflow, resource, Project(from));
  }

  /** A transfer neither creates nor destroys stock or value. */
  lemma TransferConserves(es: seq<Entry>, resource: Id, from: Id, to: Option<Id>, quantity: real, date: int, other: Id)
    requires TransferStep(es, resource, from, to, quantity, date).Ok?
    ensures var after := es + Appended(TransferStep(es, resource, from, to, quantity, date));
      SystemStock(after, other) == SystemStock(es, other) && SystemValue(after, other) == SystemValue(es, other)
  {
    var price := AveragePrice(es, resource, Project(from));
    var outflow := Create(resource, Project(from), TransferOut, -quantity, price, date);
    var inflow := Create(resource, LocationOf(to), TransferIn, quantity, price, date);
    SystemAppend(es, [outflow, inflow], other);
    SystemOfTwo(outflow, inflow, other);
  }

  /** What remains at the source keeps its average price. */
  lemma TransferKeepsSourceAverage(es: seq<Entry>, resource: Id, from: Id, to: Option<Id>, quantity: real, date: int)
    requires TransferStep(es, resource, from, to, quantity, date).Ok?
    requires Stock(es, resource, Project(from)) > quantity
    ensures AveragePrice(es + Appended(TransferStep(es, resource, from, to, quantity, date)), resource, Project(from))
      == AveragePrice(es, resource, Project(from))
  {
    var after := es + Appended(TransferStep(es, resource, from, to, quantity, date));
    TransferMoves(es, resource, from, to, quantity, date, resource, Project(from));
    AverageAfterWithdrawal(es, after, resource, Project(from), quantity);
  }

  // ------------------------------------------------------------------
  // Goods receipt

  /** The header fields of a goods receipt note that the ledger reads. */
  datatype ReceiptHeader = ReceiptHeader(supplierId: Option<nat>, projectId: Option<Id>, receiptDate: int)

  /** A note without a supplier or without lines is refused outright. */
  predicate HeaderAccepted(grn: ReceiptHeader, lines: seq<LineItem>) {
    grn.supplierId.Some? && grn.supplierId.value != 0 && lines != []
  }

  /** A line is booked when it names a resource, has a positive quantity and
      converts to a positive base quantity with the factor groups `gs`. */
  predicate LineAccepted(gs: seq<Table<real>>, li: LineItem)
    requires AllPositive(gs)
  {
    li.resourceId.Some? && li.resourceId.value != 0 && li.quantityReceived > 0.0 && BaseQuantityIn(gs, li) > 0.0
  }

  /** The base quantity is positive exactly when the resource exists, so an
      accepted line always has a base unit. */
  lemma LineAcceptedIff(gs: seq<Table<real>>, li: LineItem)
    requires AllPositive(gs)
    ensures LineAccepted(gs, li) <==>
      li.resourceId.Some? && li.resourceId.value != 0 && li.quantityReceived > 0.0 && li.baseUnit.Some?
  {
    BaseQuantityPositive(gs, li);
  }

  /** The error the first refused line raises. */
  function LineError(li: LineItem): LedgerError {
    if li.resourceId.None? || li.resourceId.value == 0 || li.quantityReceived <= 0.0 then InvalidLine(li.resourceId)
    else InvalidConversion(li.resourceId.value)
  }

  /** Where a receipt's goods end up: the note's project, or the hub. */
  function Destination(grn: ReceiptHeader): Location {
    LocationOf(grn.projectId)
  }

  /** The entries one accepted line books: the base quantity into the hub at
      the base price and, for a note with a project, the same quantity into
      the project and out of the hub. */
  function LineEntries(gs: seq<Table<real>>, grn: ReceiptHeader, li: LineItem): seq<Entry>
    requires AllPositive(gs) && LineAccepted(gs, li)
  {
    LineAcceptedIff(gs, li);
    var resource: Id := li.resourceId.value;
    var q := BaseQuantityIn(gs, li);
    var price := BasePrice(gs, li);
    var receipt := Create(resource, Hub, GoodsReceipt, q, price, grn.receiptDate);
    if grn.projectId.Some? then
      [receipt,
       Create(resource, Project(grn.projectId.value), AllocationIn, q, price, grn.receiptDate),
       Create(resource, Hub, AllocationOut, -q, price, grn.receiptDate)]
    else [receipt]
  }

  /** The entries of a run of accepted lines, in line order. */
  function Posted(gs: seq<Table<real>>, grn: ReceiptHeader, lines: seq<LineItem>): seq<Entry>
    requires AllPositive(gs)
    requires forall i :: 0 <= i < |lines| ==> LineAccepted(gs, lines[i])
    decreases |lines|
  {
    if lines == [] then []
    else Posted(gs, grn, lines[..|lines| - 1]) + LineEntries(gs, grn, lines[|lines| - 1])
  }

  /** The index of the first refused line at or after `i`, or `|lines|`. */
  function AcceptedUpTo(gs: seq<Table<real>>, lines: seq<LineItem>, i: nat): (k: nat)
    requires AllPositive(gs) && i <= |lines|
    ensures i <= k <= |lines|
    ensures forall j :: i <= j < k ==> LineAccepted(gs, lines[j])
    ensures k < |lines| ==> !LineAccepted(gs, lines[k])
    decreases |lines| - i
  {
    if i == |lines| || !LineAccepted(gs, lines[i]) then i else AcceptedUpTo(gs, lines, i + 1)
  }

  /** `recordGoodsReceipt`'s outcome: the note's entries when every line is
      accepted, otherwise the error of the header or of the first refused
      line. */
  function ReceiptStep(gs: seq<Table<real>>, grn: ReceiptHeader, lines: seq<LineItem>): (r: Result<seq<Entry>, LedgerError>)
    requires AllPositive(gs)
    ensures !HeaderAccepted(grn, lines) ==> r == Err(IncompleteReceipt)
    ensures r.Ok? <==> HeaderAccepted(grn, lines) && forall i :: 0 <= i < |lines| ==> LineAccepted(gs, lines[i])
  {
    if !HeaderAccepted(grn, lines) then Err(IncompleteReceipt)
    else
      var k := AcceptedUpTo(gs, lines, 0);
      if k == |lines| then Ok(Posted(gs, grn, lines)) else Err(LineError(lines[k]))
  }

  /** What `recordGoodsReceipt` leaves in the ledger: each line is written
      as it is processed, so the lines before the first refused one stay
      booked even though the call fails. */
  function ReceiptWrites(gs: seq<Table<real>>, grn: ReceiptHeader, lines: seq<LineItem>): (w: seq<Entry>)
    requires AllPositive(gs)
    ensures ReceiptStep(gs, grn, lines).Ok? ==> w == ReceiptStep(gs, grn, lines).value
    ensures !HeaderAccepted(grn, lines) ==> w == []
  {
    if !HeaderAccepted(grn, lines) then []
    else
      var k := AcceptedUpTo(gs, lines, 0);
      assert k == |lines| ==> lines[..k] == lines;
      Posted(gs, grn, lines[..k])
  }

  /** Booking one more accepted line extends the entries of the lines
      before it. */
  lemma PostedStep(gs: seq<Table<real>>, grn: ReceiptHeader, lines: seq<LineItem>, i: nat)
    requires AllPositive(gs) && i < |lines|
    requires forall j :: 0 <= j < i ==> LineAccepted(gs, lines[j])
    requires LineAccepted(gs, lines[i])
    ensures forall j :: 0 <= j < i + 1 ==> LineAccepted(gs, lines[j])
    ensures Posted(gs, grn, lines[..i + 1]) == Posted(gs, grn, lines[..i]) + LineEntries(gs, grn, lines[i])
  {
    assert lines[..i + 1][..i] == lines[..i];
  }

  lemma AppendAssociates(a: seq<Entry>, b: seq<Entry>, c: seq<Entry>)
    ensures (a + b) + c == a + (b + c)
  {
  }

  /** The first refused line is where `AcceptedUpTo` stops. */
  lemma AcceptedUpToIs(gs: seq<Table<real>>, lines: seq<LineItem>, i: nat)
    requires AllPositive(gs) && i <= |lines|
    requires forall j :: 0 <= j < i ==> LineAccepted(gs, lines[j])
    requires i < |lines| ==> !LineAccepted(gs, lines[i])
    ensures AcceptedUpTo(gs, lines, 0) == i
  {
  }

  /** What one line receives of `resource`: its base quantity, and its
      invoiced value (quantity times unit price, a null price counting as 0). */
  function LineReceived(gs: seq<Table<real>>, li: LineItem, resource: Id): real
    requires AllPositive(gs)
  {
    if li.resourceId == Some(resource) then BaseQuantityIn(gs, li) else 0.0
  }

  function LineValue(li: LineItem, resource: Id): real {
    if li.resourceId == Some(resource) then li.quantityReceived * li.unitPrice.GetOr(0.0) else 0.0
  }

  /** The base quantity of the lines that receive `resource`. */
  function Received(gs: seq<Table<real>>, lines: seq<LineItem>, resource: Id): real
    requires AllPositive(gs)
    decreases |lines|
  {
    if lines == [] then 0.0
    else
      Received(gs, lines[..|lines| - 1], resource) + LineReceived(gs, lines[|lines| - 1], resource)
  }

  /** The invoiced value of the lines that receive `resource`. */
  function ReceivedValue(lines: seq<LineItem>, resource: Id): real
    decreases |lines|
  {
    if lines == [] then 0.0
    else
      ReceivedValue(lines[..|lines| - 1], resource) + LineValue(lines[|lines| - 1], resource)
  }

  /** One line's entries leave its base quantity, and its invoiced value, at
      the note's destination; the hub's receipt and allocation out cancel
      when the note names a project. */
  lemma LineEntriesEffect(gs: seq<Table<real>>, grn: ReceiptHeader, li: LineItem, other: Id, loc: Location)
    requires AllPositive(gs) && LineAccepted(gs, li)
    ensures Stock(LineEntries(gs, grn, li), other, loc) == (if loc == Destination(grn) then LineReceived(gs, li, other) else 0.0)
    ensures StockValue(LineEntries(gs, grn, li), other, loc) == (if loc == Destination(grn) then LineValue(li, other) else 0.0)
  {
    LineAcceptedIff(gs, li);
    BaseQuantityKeepsValue(gs, li);
    var resource: Id := li.resourceId.value;
    var q := BaseQuantityIn(gs, li);
    var price := BasePrice(gs, li);
    var receipt := Create(resource, Hub, GoodsReceipt, q, price, grn.receiptDate);
    if grn.projectId.Some? {
      var inflow := Create(resource, Project(grn.projectId.value), AllocationIn, q, price, grn.receiptDate);
      var outflow := Create(resource, Hub, AllocationOut, -q, price, grn.receiptDate);
      assert LineEntries(gs, grn, li) == [receipt, inflow] + [outflow];
      StockAppend([receipt, inflow], [outflow], other, loc);
      StockOfTwo(receipt, inflow, other, loc);
      StockOfOne(outflow, other, loc);
      StockValueAppend([receipt, inflow], [outflow], other, loc);
      StockValueOfTwo(receipt, inflow, other, loc);
      StockValueOfOne(outflow, other, loc);
    } else {
      StockOfOne(receipt, other, loc);
      StockValueOfOne(receipt, other, loc);
    }
  }

  /** A run of accepted lines books, at the note's destination and nowhere
      else, the base quantity and the invoiced value of those lines. */
  lemma {:induction false} PostedStock(gs: seq<Table<real>>, grn: ReceiptHeader, lines: seq<LineItem>, other: Id, loc: Location)
    requires AllPositive(gs)
    requires forall i :: 0 <= i < |lines| ==> LineAccepted(gs, lines[i])
    ensures Stock(Posted(gs, grn, lines), other, loc) == (if loc == Destination(grn) then Received(gs, lines, other) else 0.0)
    decreases |lines|
  {
    if lines != [] {
      var init := lines[..|lines| - 1];
      var li := lines[|lines| - 1];
      PostedStock(gs, grn, init, other, loc);
      LineEntriesEffect(gs, grn, li, other, loc);
      StockAppend(Posted(gs, grn, init), LineEntries(gs, grn, li), other, loc);
    }
  }

  lemma {:induction false} PostedValue(gs: seq<Table<real>>, grn: ReceiptHeader, lines: seq<LineItem>, other: Id, loc: Location)
    requires AllPositive(gs)
    requires forall i :: 0 <= i < |lines| ==> LineAccepted(gs, lines[i])
    ensures StockValue(Posted(gs, grn, lines), other, loc) == (if loc == Destination(grn) then ReceivedValue(lines, other) else 0.0)
    decreases |lines|
  {
    if lines != [] {
      var init := lines[..|lines| - 1];
      var li := lines[|lines| - 1];
      PostedValue(gs, grn, init, other, loc);
      LineEntriesEffect(gs, grn, li, other, loc);
      StockValueAppend(Posted(gs, grn, init), LineEntries(gs, grn, li), other, loc);
    }
  }

  /** A receipt that goes through raises the destination's stock of each
      resource by the base quantity received and its value by the invoiced
      value; every other stock, the hub's included when the note names a
      project, is left as it was. */
  lemma ReceiptEffect(es: seq<Entry>, gs: seq<Table<real>>, grn: ReceiptHeader, lines: seq<LineItem>, other: Id, loc: Location)
    requires AllPositive(gs) && ReceiptStep(gs, grn, lines).Ok?
    ensures var after := es + Appended(ReceiptStep(gs, grn, lines));
      var here := loc == Destination(grn);
      Stock(after, other, loc) == Stock(es, other, loc) + (if here then Received(gs, lines, other) else 0.0)
      && StockValue(after, other, loc) == StockValue(es, other, loc) + (if here then ReceivedValue(lines, other) else 0.0)
  {
    PostedStock(gs, grn, lines, other, loc);
    PostedValue(gs, grn, lines, other, loc);
    StockAppend(es, Posted(gs, grn, lines), other, loc);
    StockValueAppend(es, Posted(gs, grn, lines), other, loc);
  }

  /** A one-line receipt at the hub raises the hub's stock of the line's
      resource by the line's base quantity with the factor groups `gs`. */
  lemma SingleLineStock(es: seq<Entry>, gs: seq<Table<real>>, grn: ReceiptHeader, li: LineItem, resource: Id)
    requires AllPositive(gs) && grn.supplierId.Some? && grn.supplierId.value != 0 && grn.projectId.None?
    requires li.resourceId == Some(resource) && li.quantityReceived > 0.0 && li.baseUnit.Some?
    ensures Stock(es + ReceiptWrites(gs, grn, [li]), resource, Hub) == Stock(es, resource, Hub) + BaseQuantityIn(gs, li)
  {
    LineAcceptedIff(gs, li);
    AcceptedUpToIs(gs, [li], 1);
    ReceiptEffect(es, gs, grn, [li], resource, Hub);
    assert [li][..0] == [];
  }

  /** 3 dozen received at the hub for a resource counted in pieces: booked
      with the line item's own factor they add 3 to the hub's stock, with
      the count group 36. */
  lemma DozenReceiptStock(es: seq<Entry>, grn: ReceiptHeader, li: LineItem, resource: Id)
    requires grn.supplierId.Some? && grn.supplierId.value != 0 && grn.projectId.None?
    requires li.resourceId == Some(resource) && li.baseUnit == Some("piece")
    requires li.receiptUnit == "dozen" && li.quantityReceived == 3.0
    ensures AllPositive(LineGroups) && AllPositive(CorrectedLineGroups)
    ensures Stock(es + ReceiptWrites(LineGroups, grn, [li]), resource, Hub) == Stock(es, resource, Hub) + 3.0
    ensures Stock(es + ReceiptWrites(CorrectedLineGroups, grn, [li]), resource, Hub) == Stock(es, resource, Hub) + 36.0
  {
    LineGroupsPositive();
    CorrectedLineGroupsPositive();
    DozenReceipt(li);
    SingleLineStock(es, LineGroups, grn, li, resource);
    SingleLineStock(es, CorrectedLineGroups, grn, li, resource);
  }

  /** A receipt whose second line is refused fails, yet the first line's
      entries stay in the ledger. */
  lemma ReceiptKeepsEarlierLines(gs: seq<Table<real>>, grn: ReceiptHeader, good: LineItem, bad: LineItem)
    requires AllPositive(gs) && grn.supplierId.Some? && grn.supplierId.value != 0
    requires LineAccepted(gs, good) && !LineAccepted(gs, bad)
    ensures ReceiptStep(gs, grn, [good, bad]) == Err(LineError(bad))
    ensures ReceiptWrites(gs, grn, [good, bad]) == LineEntries(gs, grn, good) != []
  {
    AcceptedUpToIs(gs, [good, bad], 1);
    assert [good, bad][..1] == [good];
    assert [good][..0] == [];
    assert Posted(gs, grn, [good]) == [] + LineEntries(gs, grn, good);
    assert LineEntries(gs, grn, good)[0].txType == GoodsReceipt;
  }

  /** The service over a ledger held in memory. */
  class Ledger {
    var entries: seq<Entry>

    /** Every stored entry went through the creating hook. */
    predicate Valid()
      reads this
    {
      AllWellFormed(entries)
    }

    constructor ()
      ensures entries == [] && Valid()
    {
      entries := [];
    }

    method RecordPurchase(resource: Id, quantity: real, unitPrice: real, date: int) returns (r: Result<seq<Entry>, LedgerError>)
      requires Valid()
      modifies this
      ensures Valid()
      ensures r == PurchaseStep(resource, quantity, unitPrice, date)
      ensures entries == old(entries) + Appended(r)
    {
      if quantity <= 0.0 {
        return Err(NonPositiveQuantity);
      }
      if unitPrice < 0.0 {
        return Err(NegativePrice);
      }
      var e := Create(resource, Hub, TxType.Purchase, quantity, unitPrice, date);
      entries := entries + [e];
      r := Ok([e]);
    }

    method RecordAllocation(resource: Id, project: Id, quantity: real, date: int) returns (r: Result<seq<Entry>, LedgerError>)
      requires Valid()
      modifies this
      ensures Valid()
      ensures r == AllocationStep(old(entries), resource, project, quantity, date)
      ensures entries == old(entries) + Appended(r)
    {
      if quantity <= 0.0 {
        return Err(NonPositiveQuantity);
      }
      var hubStock := Stock(entries, resource, Hub);
      if hubStock < quantity {
        return Err(InsufficientStock(hubStock, quantity));
      }
      var price := AveragePrice(entries, resource, Hub);
      var outflow := Create(resource, Hub, AllocationOut, -quantity, price, date);
      var inflow := Create(resource, Project(project), AllocationIn, quantity, price, date);
      entries := entries + [outflow, inflow];
      r := Ok([outflow, inflow]);
    }

    method RecordConsumption(resource: Id, project: Option<Id>, quantity: real, date: int) returns (r: Result<seq<Entry>, LedgerError>)
      requires Valid()
      modifies this
      ensures Valid()
      ensures r == ConsumptionStep(old(entries), resource, project, quantity, date)
      ensures entries == old(entries) + Appended(r)
    {
      if quantity <= 0.0 {
        return Err(NonPositiveQuantity);
      }
      var loc := LocationOf(project);
      var available := Stock(entries, resource, loc);
      if available < quantity {
        return Err(InsufficientStock(available, quantity));
      }
      var price := AveragePrice(entries, resource, loc);
      var kind := if project.Some? then TxType.Consumption else DirectConsumption;
      var e := Create(resource, loc, kind, -quantity, price, date);
      entries := entries + [e];
      r := Ok([e]);
    }

    method RecordTransfer(resource: Id, from: Id, to: Option<Id>, quantity: real, date: int) returns (r: Result<seq<Entry>, LedgerError>)
      requires Valid()
      modifies this
      ensures Valid()
      ensures r == TransferStep(old(entries), resource, from, to, quantity, date)
      ensures entries == old(entries) + Appended(r)
    {
      if quantity <= 0.0 {
        return Err(NonPositiveQuantity);
      }
      if to.Some? && to.value == from {
        return Err(SameProject);
      }
      var available := Stock(entries, resource, Project(from));
      if available < quantity {
        return Err(InsufficientStock(available, quantity));
      }
      var price := AveragePrice(entries, resource, Project(from));
      var outflow := Create(resource, Project(from), TransferOut, -quantity, price, date);
      var inflow := Create(resource, LocationOf(to), TransferIn, quantity, price, date);
      entries := entries + [outflow, inflow];
      r := Ok([outflow, inflow]);
    }

    /** `recordGoodsReceipt` with the factor groups `gs`: each line is
        checked and booked in turn, so a refused line ends the call after
        the earlier lines have been written. */
    method ReceiveWith(gs: seq<Table<real>>, grn: ReceiptHeader, lines: seq<LineItem>) returns (r: Result<seq<Entry>, LedgerError>)
      requires Valid() && AllPositive(gs)
      modifies this
      ensures Valid()
      ensures r == ReceiptStep(gs, grn, lines)
      ensures entries == old(entries) + ReceiptWrites(gs, grn, lines)
    {
      if grn.supplierId.None? || grn.supplierId.value == 0 || lines == [] {
        return Err(IncompleteReceipt);
      }
      var posted: seq<Entry> := [];
      var i := 0;
      while i < |lines|
        invariant 0 <= i <= |lines|
        invariant forall j :: 0 <= j < i ==> LineAccepted(gs, lines[j])
        invariant posted == Posted(gs, grn, lines[..i])
        invariant entries == old(entries) + posted
        invariant AllWellFormed(entries)
      {
        var li := lines[i];
        if li.resourceId.None? || li.resourceId.value == 0 || li.quantityReceived <= 0.0 {
          AcceptedUpToIs(gs, lines, i);
          return Err(InvalidLine(li.resourceId));
        }
        var baseQuantity := BaseQuantityIn(gs, li);
        if baseQuantity <= 0.0 {
          AcceptedUpToIs(gs, lines, i);
          return Err(InvalidConversion(li.resourceId.value));
        }
        var booked := BookLine(gs, grn, li);
        PostedStep(gs, grn, lines, i);
        AppendAssociates(old(entries), posted, booked);
        posted := posted + booked;
        i := i + 1;
      }
      assert lines[..i] == lines;
      AcceptedUpToIs(gs, lines, i);
      r := Ok(posted);
    }

    /** The entries of one accepted line: the receipt into the hub and, for
        a note with a project, the allocation into the project and out of
        the hub, all at the line's price per base unit. */
    method BookLine(gs: seq<Table<real>>, grn: ReceiptHeader, li: LineItem) returns (booked: seq<Entry>)
      requires Valid() && AllPositive(gs) && LineAccepted(gs, li)
      modifies this
      ensures Valid()
      ensures booked == LineEntries(gs, grn, li)
      ensures entries == old(entries) + booked
    {
      LineAcceptedIff(gs, li);
      var resource: Id := li.resourceId.value;
      var baseQuantity := BaseQuantityIn(gs, li);
      var price := BasePrice(gs, li);
      booked := [Create(resource, Hub, GoodsReceipt, baseQuantity, price, grn.receiptDate)];
      if grn.projectId.Some? {
        booked := booked + [Create(resource, Project(grn.projectId.value), AllocationIn, baseQuantity, price, grn.receiptDate),
                            Create(resource, Hub, AllocationOut, -baseQuantity, price, grn.receiptDate)];
      }
      AllWellFormedAppend(entries, booked);
      entries := entries + booked;
    }

    /** `recordGoodsReceipt`, with count units converted as well as
        measures. */
    method RecordGoodsReceipt(grn: ReceiptHeader, lines: seq<LineItem>) returns (r: Result<seq<Entry>, LedgerError>)
      requires Valid()
      modifies this
      ensures Valid()
      ensures AllPositive(CorrectedLineGroups)
      ensures r == ReceiptStep(CorrectedLineGroups, grn, lines)
      ensures entries == old(entries) + ReceiptWrites(CorrectedLineGroups, grn, lines)
    {
      CorrectedLineGroupsPositive();
      r := ReceiveWith(CorrectedLineGroups, grn, lines);
    }

    /** `recordGoodsReceipt` as written: each line converts with its own
        factor, which knows the four measure groups only, so a line received
        in a count unit books its quantity in that unit. */
    method RecordGoodsReceiptAsWritten(grn: ReceiptHeader, lines: seq<LineItem>) returns (r: Result<seq<Entry>, LedgerError>)
      requires Valid()
      modifies this
      ensures Valid()
      ensures AllPositive(LineGroups)
      ensures r == ReceiptStep(LineGroups, grn, lines)
      ensures entries == old(entries) + ReceiptWrites(LineGroups, grn, lines)
    {
      LineGroupsPositive();
      r := ReceiveWith(LineGroups, grn, lines);
    }

    /** The updating hook: a stored entry is never modified. */
    method UpdateEntry(index: nat, replacement: Entry) returns (r: Result<Entry, LedgerError>)
      ensures r == Err(Immutable)
    {
      r := Err(Immutable);
    }

    /** The deleting hook: a stored entry is never removed. */
    method DeleteEntry(index: nat) returns (r: Result<Entry, LedgerError>)
      ensures r == Err(Permanent)
    {
      r := Err(Permanent);
    }
  }
}
