/** The bulk goods receipt page: every complete row becomes a goods receipt
    note with one line item, booked into the ledger, all in one database
    transaction that a missing resource rolls back. */
module BulkAddGrn {
  import opened Wrappers
  import opened Text
  import opened Decimal
  import opened UnitConversion
  import opened Transactions
  import opened GrnLineItems
  import opened GoodsReceipt
  import opened InventoryLedger
  import opened BulkRows

  /** One repeater row as submitted; blank fields are null. Dates are day
      numbers. */
  datatype GrnRow = GrnRow(
    supplierId: Option<nat>,
    resourceId: Option<nat>,
    quantityReceived: Option<real>,
    receiptUnit: Option<string>,
    unitPrice: Option<real>,
    receiptDate: Option<int>,
    deliveryReference: Option<string>,
    notes: Option<string>)

  /** A select left empty, or PHP's falsy id 0. */
  predicate Chosen(id: Option<nat>) {
    id.Some? && id.value != 0
  }

  /** The row filter: supplier, resource, quantity and unit price are all
      non-empty. */
  predicate Complete(row: GrnRow) {
    Chosen(row.supplierId) && Chosen(row.resourceId) && !EmptyNumber(row.quantityReceived) && !EmptyNumber(row.unitPrice)
  }

  function ResourceOf(row: GrnRow): nat {
    row.resourceId.GetOr(0)
  }

  /** `Resource::find` on the kept rows from `i` on: the index of the first
      row whose resource does not exist, or the number of rows.
      `resources` maps the ids of the resources table to base units. */
  function FirstMissing(kept: seq<(nat, GrnRow)>, resources: map<nat, string>, i: nat): (k: nat)
    requires i <= |kept|
    ensures i <= k <= |kept|
    ensures forall j :: i <= j < k ==> ResourceOf(kept[j].1) in resources
    ensures k < |kept| ==> ResourceOf(kept[k].1) !in resources
    decreases |kept| - i
  {
    if i == |kept| || ResourceOf(kept[i].1) !in resources then i else FirstMissing(kept, resources, i + 1)
  }

  lemma FirstMissingIs(kept: seq<(nat, GrnRow)>, resources: map<nat, string>, i: nat)
    requires i <= |kept| && Ready(kept[..i], resources)
    requires i < |kept| ==> ResourceOf(kept[i].1) !in resources
    ensures FirstMissing(kept, resources, 0) == i
  {
    assert forall j :: 0 <= j < i ==> kept[..i][j] == kept[j];
  }

  /** Every kept row is complete and names an existing resource. */
  predicate Ready(kept: seq<(nat, GrnRow)>, resources: map<nat, string>) {
    forall j :: 0 <= j < |kept| ==> Complete(kept[j].1) && ResourceOf(kept[j].1) in resources
  }

  // ------------------------------------------------------------------
  // What one row creates

  /** A note's number by its parts: the year and how many notes that year
      had before it. The stored string is `Rendered`. */
  datatype GrnNo = GrnNo(year: nat, countBefore: nat)

  function Rendered(no: GrnNo): string {
    GrnNumber(no.year, no.countBefore)
  }

  /** A stored note, with the year it was created in (`whereYear('created_at')`). */
  datatype GrnNote = GrnNote(
    grnNumber: GrnNo,
    createdYear: nat,
    supplierId: nat,
    receiptDate: int,
    deliveryReference: Option<string>,
    notes: Option<string>,
    createdBy: Option<nat>)

  /** `Auth::id()`. */
  function UserId(user: Option<Id>): Option<nat> {
    if user.Some? then Some(user.value as nat) else None
  }

  /** The given receipt date, or today. */
  function ReceiptDateOf(row: GrnRow, today: int): int {
    if row.receiptDate.Some? then row.receiptDate.value else today
  }

  /** The note a row creates: no number is given, so the creating hook
      numbers it; the author is the logged-in user. */
  function NoteFor(row: GrnRow, year: nat, countThisYear: nat, today: int, user: Option<Id>): GrnNote {
    GrnNote(GrnNo(year, countThisYear), year, row.supplierId.GetOr(0), ReceiptDateOf(row, today),
      row.deliveryReference, row.notes, UserId(user))
  }

  /** The number of stored notes created in `year`. */
  function ThisYear(grns: seq<GrnNote>, year: nat): (n: nat)
    ensures n <= |grns|
    decreases |grns|
  {
    if grns == [] then 0
    else ThisYear(grns[..|grns| - 1], year) + (if grns[|grns| - 1].createdYear == year then 1 else 0)
  }

  lemma ThisYearStep(grns: seq<GrnNote>, g: GrnNote, year: nat)
    ensures ThisYear(grns + [g], year) == ThisYear(grns, year) + (if g.createdYear == year then 1 else 0)
  {
    assert (grns + [g])[..|grns|] == grns;
  }

  /** The line item a row creates: the receipt unit defaults to the base
      unit, and the creating hook replaces the rounded total the page passes
      with the exact product of quantity and price. */
  function LineFor(row: GrnRow, baseUnit: string): (li: LineItem)
    requires Complete(row)
    ensures li.resourceId == row.resourceId && li.baseUnit == Some(baseUnit)
    ensures Some(li.quantityReceived) == row.quantityReceived && li.unitPrice == row.unitPrice
    ensures Blank(row.receiptUnit) ==> li.receiptUnit == baseUnit
    ensures !Blank(row.receiptUnit) ==> Some(li.receiptUnit) == row.receiptUnit
    ensures li.totalValue.Some?
    ensures TotalConsistent(li)
  {
    var q := row.quantityReceived.value;
    var p := row.unitPrice.value;
    var unit := if Blank(row.receiptUnit) then baseUnit else row.receiptUnit.value;
    var given := LineItem(row.resourceId, Some(baseUnit), q, unit, Some(p), Some(Round(q * p, 2)));
    LineCreating(given)
  }

  /** The header `recordGoodsReceipt` reads: the row's supplier, no
      project, and the receipt date. */
  function HeaderFor(row: GrnRow, today: int): ReceiptHeader {
    ReceiptHeader(row.supplierId, None, ReceiptDateOf(row, today))
  }

  /** The entries `recordGoodsReceipt` writes for a row's note; its errors
      are caught and logged, so whatever it wrote stays. */
  function RowWrites(row: GrnRow, baseUnit: string, today: int): seq<Entry>
    requires Complete(row)
  {
    CorrectedLineGroupsPositive();
    ReceiptWrites(CorrectedLineGroups, HeaderFor(row, today), [LineFor(row, baseUnit)])
  }

  /** What a row receives into the hub of `resource`: the line's base
      quantity when the quantity is positive, nothing otherwise. */
  function RowReceived(row: GrnRow, baseUnit: string, resource: Id): real
    requires Complete(row)
  {
    CorrectedLineGroupsPositive();
    if row.quantityReceived.value > 0.0 then LineReceived(CorrectedLineGroups, LineFor(row, baseUnit), resource) else 0.0
  }

  /** A row's note books its base quantity into the hub when its quantity
      is positive, and is refused (the error swallowed) with nothing booked
      otherwise; no project's stock moves. */
  lemma RowWritesStock(row: GrnRow, baseUnit: string, today: int, other: Id, loc: Location)
    requires Complete(row)
    ensures Stock(RowWrites(row, baseUnit, today), other, loc) == if loc == Hub then RowReceived(row, baseUnit, other) else 0.0
  {
    CorrectedLineGroupsPositive();
    var gs := CorrectedLineGroups;
    var grn := HeaderFor(row, today);
    var li := LineFor(row, baseUnit);
    LineAcceptedIff(gs, li);
    if row.quantityReceived.value > 0.0 {
      AcceptedUpToIs(gs, [li], 1);
      assert [li][..1] == [li];
      PostedStock(gs, grn, [li], other, loc);
    } else {
      AcceptedUpToIs(gs, [li], 0);
      assert [li][..0] == [];
    }
  }

  // ------------------------------------------------------------------
  // What a whole submission creates

  /** The notes of the kept rows, numbered on from `count0` notes this year. */
  function Notes(kept: seq<(nat, GrnRow)>, year: nat, count0: nat, today: int, user: Option<Id>): (ns: seq<GrnNote>)
    ensures |ns| == |kept|
  {
    seq(|kept|, j requires 0 <= j < |kept| => NoteFor(kept[j].1, year, count0 + j, today, user))
  }

  /** Their line items, each with the id of its note, ids counting on from
      `firstId`. */
  function Lines(kept: seq<(nat, GrnRow)>, resources: map<nat, string>, firstId: nat): (ls: seq<(nat, LineItem)>)
    requires Ready(kept, resources)
    ensures |ls| == |kept|
  {
    seq(|kept|, j requires 0 <= j < |kept| => (firstId + j, LineFor(kept[j].1, resources[ResourceOf(kept[j].1)])))
  }

  /** The ledger entries of the kept rows, in row order. */
  function Bookings(kept: seq<(nat, GrnRow)>, resources: map<nat, string>, today: int): seq<Entry>
    requires Ready(kept, resources)
    decreases |kept|
  {
    if kept == [] then []
    else
      var n := |kept| - 1;
      assert Ready(kept[..n], resources) by {
        assert forall j :: 0 <= j < n ==> kept[..n][j] == kept[j];
      }
      Bookings(kept[..n], resources, today) + RowWrites(kept[n].1, resources[ResourceOf(kept[n].1)], today)
  }

  /** What the kept rows receive into the hub of `resource`. */
  function HubReceived(kept: seq<(nat, GrnRow)>, resources: map<nat, string>, resource: Id): real
    requires Ready(kept, resources)
    decreases |kept|
  {
    if kept == [] then 0.0
    else
      var n := |kept| - 1;
      assert Ready(kept[..n], resources) by {
        assert forall j :: 0 <= j < n ==> kept[..n][j] == kept[j];
      }
      HubReceived(kept[..n], resources, resource) + RowReceived(kept[n].1, resources[ResourceOf(kept[n].1)], resource)
  }

  lemma PrefixReady(kept: seq<(nat, GrnRow)>, resources: map<nat, string>, i: nat)
    requires i <= |kept| && Ready(kept, resources)
    ensures Ready(kept[..i], resources)
  {
    assert forall j :: 0 <= j < i ==> kept[..i][j] == kept[j];
  }

  /** One more row: its note, its line and its entries follow the earlier
      rows'. */
  lemma NotesStep(kept: seq<(nat, GrnRow)>, year: nat, count0: nat, today: int, user: Option<Id>, i: nat)
    requires i < |kept|
    ensures Notes(kept[..i + 1], year, count0, today, user) == Notes(kept[..i], year, count0, today, user) + [NoteFor(kept[i].1, year, count0 + i, today, user)]
  {
    var a := Notes(kept[..i + 1], year, count0, today, user);
    var b := Notes(kept[..i], year, count0, today, user) + [NoteFor(kept[i].1, year, count0 + i, today, user)];
    forall j | 0 <= j < i + 1
      ensures a[j] == b[j]
    {
      assert kept[..i + 1][j] == kept[j];
    }
  }

  lemma LinesStep(kept: seq<(nat, GrnRow)>, resources: map<nat, string>, firstId: nat, i: nat)
    requires i < |kept| && Ready(kept[..i + 1], resources)
    ensures Ready(kept[..i], resources)
    ensures Lines(kept[..i + 1], resources, firstId) == Lines(kept[..i], resources, firstId) + [(firstId + i, LineFor(kept[i].1, resources[ResourceOf(kept[i].1)]))]
  {
    assert kept[..i + 1][..i] == kept[..i];
    PrefixReady(kept[..i + 1], resources, i);
    assert kept[..i + 1][i] == kept[i];
    var a := Lines(kept[..i + 1], resources, firstId);
    var b := Lines(kept[..i], resources, firstId) + [(firstId + i, LineFor(kept[i].1, resources[ResourceOf(kept[i].1)]))];
    forall j | 0 <= j < i + 1
      ensures a[j] == b[j]
    {
      assert kept[..i + 1][j] == kept[j];
    }
  }

  lemma BookingsStep(kept: seq<(nat, GrnRow)>, resources: map<nat, string>, today: int, i: nat)
    requires i < |kept| && Ready(kept[..i + 1], resources)
    ensures Ready(kept[..i], resources)
    ensures Bookings(kept[..i + 1], resources, today) == Bookings(kept[..i], resources, today) + RowWrites(kept[i].1, resources[ResourceOf(kept[i].1)], today)
  {
    assert kept[..i + 1][..i] == kept[..i];
    assert kept[..i + 1][i] == kept[i];
    PrefixReady(kept[..i + 1], resources, i);
  }

  /** A submission books, into the hub and nowhere else, the base quantity
      of every row with a positive quantity. */
  lemma {:induction false} BookingsStock(es: seq<Entry>, kept: seq<(nat, GrnRow)>, resources: map<nat, string>, today: int, other: Id, loc: Location)
    requires Ready(kept, resources)
    ensures Stock(es + Bookings(kept, resources, today), other, loc)
      == Stock(es, other, loc) + (if loc == Hub then HubReceived(kept, resources, other) else 0.0)
    decreases |kept|
  {
    StockAppend(es, Bookings(kept, resources, today), other, loc);
    if kept == [] {
      assert es + [] == es;
    } else {
      var n := |kept| - 1;
      PrefixReady(kept, resources, n);
      var row := kept[n].1;
      var base := resources[ResourceOf(row)];
      BookingsStock(es, kept[..n], resources, today, other, loc);
      StockAppend(es, Bookings(kept[..n], resources, today), other, loc);
      StockAppend(Bookings(kept[..n], resources, today), RowWrites(row, base, today), other, loc);
      RowWritesStock(row, base, today, other, loc);
    }
  }

  /** A resource's base quantity is positive, so nothing a submission books
      lowers a stock. */
  lemma {:induction false} HubReceivedNonNegative(kept: seq<(nat, GrnRow)>, resources: map<nat, string>, resource: Id)
    requires Ready(kept, resources)
    ensures HubReceived(kept, resources, resource) >= 0.0
    decreases |kept|
  {
    if kept != [] {
      var n := |kept| - 1;
      PrefixReady(kept, resources, n);
      HubReceivedNonNegative(kept[..n], resources, resource);
      var row := kept[n].1;
      CorrectedLineGroupsPositive();
      BaseQuantityPositive(CorrectedLineGroups, LineFor(row, resources[ResourceOf(row)]));
    }
  }

  lemma NumberAt(kept: seq<(nat, GrnRow)>, year: nat, count0: nat, today: int, user: Option<Id>, i: nat)
    requires i < |kept|
    ensures Rendered(Notes(kept, year, count0, today, user)[i].grnNumber) == GrnNumber(year, count0 + i)
  {
  }

  /** The notes of one submission all have different numbers. */
  lemma NumbersDistinct(kept: seq<(nat, GrnRow)>, year: nat, count0: nat, today: int, user: Option<Id>)
    ensures forall i, j :: 0 <= i < j < |kept| ==>
      Rendered(Notes(kept, year, count0, today, user)[i].grnNumber) != Rendered(Notes(kept, year, count0, today, user)[j].grnNumber)
  {
    var ns := Notes(kept, year, count0, today, user);
    forall i, j | 0 <= i < j < |kept|
      ensures Rendered(ns[i].grnNumber) != Rendered(ns[j].grnNumber)
    {
      NumberAt(kept, year, count0, today, user, i);
      NumberAt(kept, year, count0, today, user, j);
      GrnNumberInjective(year, count0 + i, year, count0 + j);
    }
  }

  /** The notes stored after `i` rows, the first `count0` of this year
      before them. */
  predicate NotesDone(kept: seq<(nat, GrnRow)>, year: nat, count0: nat, today: int, user: Option<Id>,
    savedGrns: seq<GrnNote>, i: nat, grns: seq<GrnNote>)
  {
    i <= |kept| && ThisYear(grns, year) == count0 + i && grns == savedGrns + Notes(kept[..i], year, count0, today, user)
  }

  /** The line items and the ledger entries stored after `i` rows. */
  predicate LinesDone(kept: seq<(nat, GrnRow)>, resources: map<nat, string>, firstId: nat,
    savedLines: seq<(nat, LineItem)>, i: nat, lines: seq<(nat, LineItem)>)
  {
    i <= |kept| && Ready(kept[..i], resources) && lines == savedLines + Lines(kept[..i], resources, firstId)
  }

  predicate EntriesDone(kept: seq<(nat, GrnRow)>, resources: map<nat, string>, today: int,
    savedEntries: seq<Entry>, i: nat, entries: seq<Entry>)
  {
    i <= |kept| && Ready(kept[..i], resources) && entries == savedEntries + Bookings(kept[..i], resources, today)
  }

  /** One more row whose resource exists keeps each of them. */
  lemma AdvanceNotes(kept: seq<(nat, GrnRow)>, year: nat, count0: nat, today: int, user: Option<Id>,
    savedGrns: seq<GrnNote>, i: nat, grns: seq<GrnNote>, grns': seq<GrnNote>)
    requires i < |kept| && NotesDone(kept, year, count0, today, user, savedGrns, i, grns)
    requires grns' == grns + [NoteFor(kept[i].1, year, ThisYear(grns, year), today, user)]
    requires ThisYear(grns', year) == ThisYear(grns, year) + 1
    ensures NotesDone(kept, year, count0, today, user, savedGrns, i + 1, grns')
  {
    NotesStep(kept, year, count0, today, user, i);
  }

  lemma AdvanceLines(kept: seq<(nat, GrnRow)>, resources: map<nat, string>, firstId: nat,
    savedLines: seq<(nat, LineItem)>, i: nat, lines: seq<(nat, LineItem)>, lines': seq<(nat, LineItem)>)
    requires i < |kept| && Complete(kept[i].1) && ResourceOf(kept[i].1) in resources
    requires LinesDone(kept, resources, firstId, savedLines, i, lines)
    requires lines' == lines + [(firstId + i, LineFor(kept[i].1, resources[ResourceOf(kept[i].1)]))]
    ensures LinesDone(kept, resources, firstId, savedLines, i + 1, lines')
  {
    GrowReady(kept, resources, i);
    LinesStep(kept, resources, firstId, i);
  }

  lemma AdvanceEntries(kept: seq<(nat, GrnRow)>, resources: map<nat, string>, today: int,
    savedEntries: seq<Entry>, i: nat, entries: seq<Entry>, entries': seq<Entry>)
    requires i < |kept| && Complete(kept[i].1) && ResourceOf(kept[i].1) in resources
    requires EntriesDone(kept, resources, today, savedEntries, i, entries)
    requires entries' == entries + RowWrites(kept[i].1, resources[ResourceOf(kept[i].1)], today)
    ensures EntriesDone(kept, resources, today, savedEntries, i + 1, entries')
  {
    GrowReady(kept, resources, i);
    BookingsStep(kept, resources, today, i);
  }

  lemma GrowReady(kept: seq<(nat, GrnRow)>, resources: map<nat, string>, i: nat)
    requires i < |kept| && Ready(kept[..i], resources)
    requires Complete(kept[i].1) && ResourceOf(kept[i].1) in resources
    ensures Ready(kept[..i + 1], resources)
  {
    assert forall j :: 0 <= j < i ==> kept[..i + 1][j] == kept[..i][j];
  }

  /** Every line item names a resource and belongs to a stored note. */
  predicate Linked(grns: seq<GrnNote>, lines: seq<(nat, LineItem)>) {
    forall k :: 0 <= k < |lines| ==> lines[k].1.resourceId.Some? && lines[k].0 < |grns|
  }

  lemma LinkedStep(grns: seq<GrnNote>, lines: seq<(nat, LineItem)>, note: GrnNote, line: (nat, LineItem))
    requires Linked(grns, lines) && line.1.resourceId.Some? && line.0 == |grns|
    ensures Linked(grns + [note], lines + [line])
  {
  }

  /** What the transaction has done after `i` rows, from the notes `grns0`,
      line items `lines0` and ledger entries `entries0`. */
  predicate Progress(kept: seq<(nat, GrnRow)>, resources: map<nat, string>, year: nat, today: int, user: Option<Id>,
    grns0: seq<GrnNote>, lines0: seq<(nat, LineItem)>, entries0: seq<Entry>, i: nat,
    grns: seq<GrnNote>, lines: seq<(nat, LineItem)>, entries: seq<Entry>)
  {
    NotesDone(kept, year, ThisYear(grns0, year), today, user, grns0, i, grns)
    && LinesDone(kept, resources, |grns0|, lines0, i, lines)
    && EntriesDone(kept, resources, today, entries0, i, entries)
    && Linked(grns, lines)
  }

  /** One more row whose resource exists: its note, its line item and its
      ledger entries keep the progress. */
  lemma Advance(kept: seq<(nat, GrnRow)>, resources: map<nat, string>, year: nat, today: int, user: Option<Id>,
    grns0: seq<GrnNote>, lines0: seq<(nat, LineItem)>, entries0: seq<Entry>, i: nat,
    grns: seq<GrnNote>, lines: seq<(nat, LineItem)>, entries: seq<Entry>,
    note: GrnNote, line: (nat, LineItem), entries': seq<Entry>)
    requires i < |kept| && Complete(kept[i].1) && ResourceOf(kept[i].1) in resources
    requires Linked(grns0, lines0)
    requires Progress(kept, resources, year, today, user, grns0, lines0, entries0, i, grns, lines, entries)
    requires note == NoteFor(kept[i].1, year, ThisYear(grns, year), today, user)
    requires line == (|grns|, LineFor(kept[i].1, resources[ResourceOf(kept[i].1)]))
    requires entries' == entries + RowWrites(kept[i].1, resources[ResourceOf(kept[i].1)], today)
    ensures Progress(kept, resources, year, today, user, grns0, lines0, entries0, i + 1, grns + [note], lines + [line], entries')
  {
    ThisYearStep(grns, note, year);
    AdvanceNotes(kept, year, ThisYear(grns0, year), today, user, grns0, i, grns, grns + [note]);
    AdvanceLines(kept, resources, |grns0|, lines0, i, lines, lines + [line]);
    AdvanceEntries(kept, resources, today, entries0, i, entries, entries');
    LinkedStep(grns, lines, note, line);
  }

  /** What the transaction leaves behind, from the notes `grns0`, line items
      `lines0` and ledger entries `entries0`: the first row naming a missing
      resource is reported and nothing is kept; otherwise every row is
      received. */
  predicate Transacted(kept: seq<(nat, GrnRow)>, resources: map<nat, string>, year: nat, today: int, user: Option<Id>,
    grns0: seq<GrnNote>, lines0: seq<(nat, LineItem)>, entries0: seq<Entry>,
    missing: Option<nat>, grns: seq<GrnNote>, lines: seq<(nat, LineItem)>, entries: seq<Entry>)
  {
    (missing.Some? <==> FirstMissing(kept, resources, 0) < |kept|)
    && (missing.Some? ==>
      missing.value == ResourceOf(kept[FirstMissing(kept, resources, 0)].1)
      && grns == grns0 && lines == lines0 && entries == entries0)
    && (missing.None? ==>
      Ready(kept, resources)
      && grns == grns0 + Notes(kept, year, ThisYear(grns0, year), today, user)
      && lines == lines0 + Lines(kept, resources, |grns0|)
      && entries == entries0 + Bookings(kept, resources, today))
  }

  /** A row naming a missing resource after `i` received rows rolls back. */
  lemma RolledBack(kept: seq<(nat, GrnRow)>, resources: map<nat, string>, year: nat, today: int, user: Option<Id>,
    grns0: seq<GrnNote>, lines0: seq<(nat, LineItem)>, entries0: seq<Entry>, i: nat,
    grns: seq<GrnNote>, lines: seq<(nat, LineItem)>, entries: seq<Entry>)
    requires i < |kept| && ResourceOf(kept[i].1) !in resources
    requires Progress(kept, resources, year, today, user, grns0, lines0, entries0, i, grns, lines, entries)
    ensures Transacted(kept, resources, year, today, user, grns0, lines0, entries0,
      Some(ResourceOf(kept[i].1)), grns0, lines0, entries0)
  {
    FirstMissingIs(kept, resources, i);
  }

  /** Every row received commits the transaction. */
  lemma Committed(kept: seq<(nat, GrnRow)>, resources: map<nat, string>, year: nat, today: int, user: Option<Id>,
    grns0: seq<GrnNote>, lines0: seq<(nat, LineItem)>, entries0: seq<Entry>,
    grns: seq<GrnNote>, lines: seq<(nat, LineItem)>, entries: seq<Entry>)
    requires Progress(kept, resources, year, today, user, grns0, lines0, entries0, |kept|, grns, lines, entries)
    ensures Transacted(kept, resources, year, today, user, grns0, lines0, entries0, None, grns, lines, entries)
  {
    assert kept[..|kept|] == kept;
    FirstMissingIs(kept, resources, |kept|);
  }

  /** The service books a row's note on the ledger; an error it reports is
      logged and dropped. */
  method BookRow(ledger: Ledger, row: GrnRow, baseUnit: string, today: int)
    requires ledger.Valid() && Complete(row)
    modifies ledger
    ensures ledger.Valid()
    ensures ledger.entries == old(ledger.entries) + RowWrites(row, baseUnit, today)
  {
    var _ := ledger.RecordGoodsReceipt(HeaderFor(row, today), [LineFor(row, baseUnit)]);
  }

  /** The creating hook numbers a new note, given no number, and fills in
      its author. */
  method NewNote(row: GrnRow, year: nat, countThisYear: nat, today: int, user: Option<Id>) returns (note: GrnNote)
    ensures note == NoteFor(row, year, countThisYear, today, user)
    ensures Rendered(note.grnNumber) == GrnNumber(year, countThisYear)
  {
    var hook := new GoodsReceiptNote(None, UserId(user));
    hook.Creating(year, countThisYear, user);
    note := GrnNote(GrnNo(year, countThisYear), year, row.supplierId.GetOr(0), ReceiptDateOf(row, today),
      row.deliveryReference, row.notes, hook.createdBy);
    assert hook.grnNumber == Some(Rendered(note.grnNumber));
  }

  /** One row whose resource exists: its note, its line item and its
      ledger entries. */
  method ReceiveRow(ledger: Ledger, kept: seq<(nat, GrnRow)>, resources: map<nat, string>, year: nat, today: int, user: Option<Id>,
    grns0: seq<GrnNote>, lines0: seq<(nat, LineItem)>, entries0: seq<Entry>, i: nat,
    grns: seq<GrnNote>, lines: seq<(nat, LineItem)>)
    returns (grns': seq<GrnNote>, lines': seq<(nat, LineItem)>)
    requires i < |kept| && Complete(kept[i].1) && ResourceOf(kept[i].1) in resources
    requires ledger.Valid() && Linked(grns0, lines0)
    requires Progress(kept, resources, year, today, user, grns0, lines0, entries0, i, grns, lines, ledger.entries)
    modifies ledger
    ensures ledger.Valid()
    ensures Progress(kept, resources, year, today, user, grns0, lines0, entries0, i + 1, grns', lines', ledger.entries)
  {
    var row := kept[i].1;
    var baseUnit := resources[ResourceOf(row)];
    var note := NewNote(row, year, ThisYear(grns, year), today, user);
    var li := LineFor(row, baseUnit);
    var id: nat := |grns|;
    var line: (nat, LineItem) := (id, li);
    ghost var entries := ledger.entries;
    BookRow(ledger, row, baseUnit, today);
    Advance(kept, resources, year, today, user, grns0, lines0, entries0, i, grns, lines, entries, note, line, ledger.entries);
    grns', lines' := grns + [note], lines + [line];
  }

  datatype Outcome = NoValidGrns | Created(count: nat) | ResourceNotFound(resourceId: nat)

  /** The goods receipt notes and line items tables, and the ledger the
      service writes to. */
  class ReceiptBook {
    var grns: seq<GrnNote>
    var lines: seq<(nat, LineItem)>
    const ledger: Ledger

    /** Every line belongs to a stored note, and the ledger is well formed. */
    predicate Valid()
      reads this, ledger
    {
      ledger.Valid() && Linked(grns, lines)
    }

    constructor (ledger: Ledger)
      requires ledger.Valid()
      ensures Valid() && this.ledger == ledger && grns == [] && lines == []
    {
      this.ledger := ledger;
      grns := [];
      lines := [];
    }

    /** The database transaction: each row in turn, until a row names a
        resource that does not exist, which rolls back everything written.
        The notes and line items are held back until the transaction
        commits; the ledger is written as the service books each note. */
    method ReceiveAll(kept: seq<(nat, GrnRow)>, resources: map<nat, string>, year: nat, today: int, user: Option<Id>)
      returns (missing: Option<nat>)
      requires Valid() && forall j :: 0 <= j < |kept| ==> Complete(kept[j].1)
      modifies this, ledger
      ensures Valid()
      ensures Transacted(kept, resources, year, today, user, old(grns), old(lines), old(ledger.entries),
        missing, grns, lines, ledger.entries)
    {
      var g, l := grns, lines;
      var savedEntries := ledger.entries;
      var i := 0;
      while i < |kept|
        modifies ledger
        invariant 0 <= i <= |kept|
        invariant ledger.Valid()
        invariant Progress(kept, resources, year, today, user, grns, lines, savedEntries, i, g, l, ledger.entries)
      {
        var row := kept[i].1;
        var resourceId := row.resourceId.GetOr(0);
        if resourceId !in resources {
          RolledBack(kept, resources, year, today, user, grns, lines, savedEntries, i, g, l, ledger.entries);
          ledger.entries := savedEntries;
          return Some(resourceId);
        }
        g, l := ReceiveRow(ledger, kept, resources, year, today, user, grns, lines, savedEntries, i, g, l);
        i := i + 1;
      }
      Committed(kept, resources, year, today, user, grns, lines, savedEntries, g, l, ledger.entries);
      grns, lines := g, l;
      missing := None;
    }

    /** `submit` in the year `year` on the day `today`: without a complete
        row nothing happens; a complete row naming a missing resource rolls
        the whole submission back; otherwise every complete row has its note
        (numbered on from this year's), its line item and its ledger entries. */
    method Submit(rows: seq<GrnRow>, resources: map<nat, string>, year: nat, today: int, user: Option<Id>)
      returns (outcome: Outcome)
      requires Valid()
      modifies this, ledger
      ensures Valid()
      ensures Kept(rows, Complete) == [] ==> outcome == NoValidGrns
      ensures outcome.NoValidGrns? || outcome.ResourceNotFound? ==>
        grns == old(grns) && lines == old(lines) && ledger.entries == old(ledger.entries)
      ensures var kept := Kept(rows, Complete);
        kept != [] && FirstMissing(kept, resources, 0) < |kept| ==>
        outcome == ResourceNotFound(ResourceOf(kept[FirstMissing(kept, resources, 0)].1))
      ensures var kept := Kept(rows, Complete);
        kept != [] && FirstMissing(kept, resources, 0) == |kept| ==>
        Ready(kept, resources)
        && outcome == Created(|kept|)
        && grns == old(grns) + Notes(kept, year, ThisYear(old(grns), year), today, user)
        && lines == old(lines) + Lines(kept, resources, |old(grns)|)
        && ledger.entries == old(ledger.entries) + Bookings(kept, resources, today)
    {
      var kept := Kept(rows, Complete);
      if kept == [] {
        return NoValidGrns;
      }
      var missing := ReceiveAll(kept, resources, year, today, user);
      if missing.Some? {
        outcome := ResourceNotFound(missing.value);
      } else {
        outcome := Created(|kept|);
      }
    }
  }

  /** `getUnitOptionsForResource`: nothing until an existing resource is
      chosen, then the receipt units offered for its base unit. */
  function UnitOptionsFor(resourceId: Option<nat>, resources: map<nat, string>): (units: seq<string>)
    ensures units == [] <==> !(Chosen(resourceId) && resourceId.value in resources)
    ensures Chosen(resourceId) && resourceId.value in resources ==> units == ReceiptOptions(resources[resourceId.value])
  {
    if Chosen(resourceId) && resourceId.value in resources then
      OptionMapsWellFormed();
      OptionsOfferBase(ReceiptOptionMap, resources[resourceId.value]);
      ReceiptOptions(resources[resourceId.value])
    else []
  }

  /** A row without a receipt unit is received in the base unit, and its
      total is taken by the creating hook from the cast values: 2.5 at
      3.333 reads as 2.500 at 3.33, so the total is 8.325 rather than the
      page's round(2.5 * 3.333, 2) = 8.33 (the stored column's own rounding
      is not modelled). */
  lemma ExactTotal()
    ensures var row := GrnRow(Some(4), Some(9), Some(2.5), None, Some(3.333), None, None, None);
      LineFor(row, "kg").receiptUnit == "kg" && LineFor(row, "kg").totalValue == Some(8.325)
  {
    var row := GrnRow(Some(4), Some(9), Some(2.5), None, Some(3.333), None, None, None);
    var li := LineFor(row, "kg");
    RoundExact(2500, 3);
    assert Pow10(3) == 1000 && Pow10(2) == 100;
    assert ReadQuantity(2.5) == Round(2.5, 3) == 2.5;
    assert ReadPrice(Some(3.333)) == Round(3.333, 2) == 3.33;
  }
}
