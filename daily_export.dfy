/** `DailyConsumptionExport`: one project's movements on one day, a row per
    resource and a closing summary row. */
module DailyExport {
  import opened Transactions
  import opened Decimal
  import opened Text
  import opened StockCalculator

  /** The ten figures of a row, in column order. */
  datatype Figures = Figures(
    opening: real,
    purchases: real,
    allocationsIn: real,
    transfersIn: real,
    totalIn: real,
    consumption: real,
    transfersOut: real,
    allocationsOut: real,
    totalOut: real,
    closing: real)

  datatype RowKind = ResourceRow(resource: Id) | SummaryRow

  datatype Row = Row(kind: RowKind, figures: Figures)

  const NoFigures := Figures(0.0, 0.0, 0.0, 0.0, 0.0, 0.0, 0.0, 0.0, 0.0, 0.0)

  function Plus(a: Figures, b: Figures): Figures {
    Figures(a.opening + b.opening, a.purchases + b.purchases, a.allocationsIn + b.allocationsIn,
      a.transfersIn + b.transfersIn, a.totalIn + b.totalIn, a.consumption + b.consumption,
      a.transfersOut + b.transfersOut, a.allocationsOut + b.allocationsOut, a.totalOut + b.totalOut,
      a.closing + b.closing)
  }

  /** The project's entries of one resource on the day, of one type. */
  function DayOfType(resource: Id, project: Id, d: int, t: TxType): Entry -> bool {
    (e: Entry) => e.resource == resource && e.location == Project(project) && e.date == d && e.txType == t
  }

  /** The project's entries up to the day: the resources they name are the
      export's candidates. */
  function OnOrBefore(project: Id, d: int): Entry -> bool {
    (e: Entry) => e.location == Project(project) && e.date <= d
  }

  /** A row's figures: the opening balance, the three incoming and three
      outgoing kinds (outgoing as absolute values) and the closing that
      follows from them. */
  function ResourceFigures(es: seq<Entry>, resource: Id, project: Id, d: int): (f: Figures)
    ensures f.totalIn == f.purchases + f.allocationsIn + f.transfersIn
    ensures f.totalOut == f.consumption + f.transfersOut + f.allocationsOut
    ensures f.closing == f.opening + f.totalIn - f.totalOut
    ensures f.consumption >= 0.0 && f.transfersOut >= 0.0 && f.allocationsOut >= 0.0 && f.totalOut >= 0.0
  {
    var opening := OpeningBalance(es, resource, Project(project), d);
    var purchases := Sum(es, DayOfType(resource, project, d, Purchase), Quantity);
    var allocations := Sum(es, DayOfType(resource, project, d, AllocationIn), Quantity);
    var transfersIn := Sum(es, DayOfType(resource, project, d, TransferIn), Quantity);
    var consumption := Abs(Sum(es, DayOfType(resource, project, d, Consumption), Quantity));
    var transfersOut := Abs(Sum(es, DayOfType(resource, project, d, TransferOut), Quantity));
    var allocationsOut := Abs(Sum(es, DayOfType(resource, project, d, AllocationOut), Quantity));
    var totalIn := purchases + allocations + transfersIn;
    var totalOut := consumption + transfersOut + allocationsOut;
    Figures(opening, purchases, allocations, transfersIn, totalIn, consumption, transfersOut, allocationsOut,
      totalOut, opening + totalIn - totalOut)
  }

  /** A resource is left out when it opens the day at 0 and has no entry at
      the project that day. */
  predicate Listed(es: seq<Entry>, resource: Id, project: Id, d: int) {
    OpeningBalance(es, resource, Project(project), d) != 0.0
    || exists i :: 0 <= i < |es| && OnDay(resource, Project(project), d)(es[i])
  }

  /** The resource rows for the candidates `ids`, in order. */
  function ResourceRows(es: seq<Entry>, project: Id, d: int, ids: seq<Id>): seq<Row>
    decreases |ids|
  {
    if ids == [] then []
    else
      var x := ids[|ids| - 1];
      ResourceRows(es, project, d, ids[..|ids| - 1])
        + (if Listed(es, x, project, d) then [Row(ResourceRow(x), ResourceFigures(es, x, project, d))] else [])
  }

  /** The column sums of some rows. */
  function ColumnSums(rows: seq<Row>): Figures
    decreases |rows|
  {
    if rows == [] then NoFigures else Plus(ColumnSums(rows[..|rows| - 1]), rows[|rows| - 1].figures)
  }

  /** The sheet: the resource rows, then a summary row of their column sums
      when there is at least one. */
  function Sheet(es: seq<Entry>, project: Id, d: int): seq<Row> {
    var rows := ResourceRows(es, project, d, Resources(es, OnOrBefore(project, d)));
    rows + (if rows != [] then [Row(SummaryRow, ColumnSums(rows))] else [])
  }

  /** `collection()`: the foreach over the candidate resources with its ten
      running totals. */
  method Collection(es: seq<Entry>, project: Id, d: int) returns (result: seq<Row>)
    ensures result == Sheet(es, project, d)
  {
    var resourceIds := Resources(es, OnOrBefore(project, d));
    result := [];
    var summaryOpening, summaryPurchases, summaryAllocationsIn, summaryTransfersIn, summaryTotalIn := 0.0, 0.0, 0.0, 0.0, 0.0;
    var summaryConsumption, summaryTransfersOut, summaryAllocationsOut, summaryTotalOut, summaryClosing := 0.0, 0.0, 0.0, 0.0, 0.0;
    var i := 0;
    while i < |resourceIds|
      invariant 0 <= i <= |resourceIds|
      invariant result == ResourceRows(es, project, d, resourceIds[..i])
      invariant Figures(summaryOpening, summaryPurchases, summaryAllocationsIn, summaryTransfersIn, summaryTotalIn,
        summaryConsumption, summaryTransfersOut, summaryAllocationsOut, summaryTotalOut, summaryClosing) == ColumnSums(result)
    {
      var resourceId := resourceIds[i];
      assert resourceIds[..i + 1][..i] == resourceIds[..i];
      if Listed(es, resourceId, project, d) {
        var f := ResourceFigures(es, resourceId, project, d);
        summaryOpening := summaryOpening + f.opening;
        summaryPurchases := summaryPurchases + f.purchases;
        summaryAllocationsIn := summaryAllocationsIn + f.allocationsIn;
        summaryTransfersIn := summaryTransfersIn + f.transfersIn;
        summaryTotalIn := summaryTotalIn + f.totalIn;
        summaryConsumption := summaryConsumption + f.consumption;
        summaryTransfersOut := summaryTransfersOut + f.transfersOut;
        summaryAllocationsOut := summaryAllocationsOut + f.allocationsOut;
        summaryTotalOut := summaryTotalOut + f.totalOut;
        summaryClosing := summaryClosing + f.closing;
        assert (result + [Row(ResourceRow(resourceId), f)])[..|result|] == result;
        result := result + [Row(ResourceRow(resourceId), f)];
      }
      i := i + 1;
    }
    assert resourceIds[..i] == resourceIds;
    if result != [] {
      result := result + [Row(SummaryRow, Figures(summaryOpening, summaryPurchases, summaryAllocationsIn,
        summaryTransfersIn, summaryTotalIn, summaryConsumption, summaryTransfersOut, summaryAllocationsOut,
        summaryTotalOut, summaryClosing))];
    }
  }

  /** Every resource row closes at opening plus in minus out, and so does
      the sum of any rows that do. */
  predicate Balanced(f: Figures) {
    f.closing == f.opening + f.totalIn - f.totalOut
  }

  lemma {:induction false} ColumnSumsBalanced(rows: seq<Row>)
    requires forall k :: 0 <= k < |rows| ==> Balanced(rows[k].figures)
    ensures Balanced(ColumnSums(rows))
    decreases |rows|
  {
    if rows != [] {
      ColumnSumsBalanced(rows[..|rows| - 1]);
    }
  }

  lemma {:induction false} ResourceRowsBalanced(es: seq<Entry>, project: Id, d: int, ids: seq<Id>)
    ensures forall k :: 0 <= k < |ResourceRows(es, project, d, ids)| ==> Balanced(ResourceRows(es, project, d, ids)[k].figures)
    ensures forall k :: 0 <= k < |ResourceRows(es, project, d, ids)| ==> ResourceRows(es, project, d, ids)[k].kind.ResourceRow?
    decreases |ids|
  {
    if ids != [] {
      ResourceRowsBalanced(es, project, d, ids[..|ids| - 1]);
    }
  }

  /** The sheet: resource rows only, then exactly one summary row (when any
      resource is listed), every row balanced. */
  lemma SheetShape(es: seq<Entry>, project: Id, d: int)
    ensures var s := Sheet(es, project, d);
      forall k :: 0 <= k < |s| ==> Balanced(s[k].figures) && (s[k].kind == SummaryRow <==> k == |s| - 1)
  {
    var rows := ResourceRows(es, project, d, Resources(es, OnOrBefore(project, d)));
    ResourceRowsBalanced(es, project, d, Resources(es, OnOrBefore(project, d)));
    ColumnSumsBalanced(rows);
  }

  /** The six kinds the export counts. */
  predicate Counted(t: TxType) {
    t in {Purchase, AllocationIn, TransferIn, Consumption, TransferOut, AllocationOut}
  }

  /** Entries of a kind the export does not count (a direct consumption, a
      goods receipt, an adjustment) change no figure of the day. */
  lemma UncountedIgnored(es: seq<Entry>, e: Entry, resource: Id, project: Id, d: int)
    requires !Counted(e.txType) && e.date >= d
    ensures ResourceFigures(es + [e], resource, project, d) == ResourceFigures(es, resource, project, d)
  {
    assert (es + [e])[..|es|] == es;
  }

  /** When the project's entries of the day are all of the counted kinds and
      the outgoing ones are not positive, as the ledger service books them,
      the row's closing is the closing balance. */
  lemma {:induction false} DaySumByKind(es: seq<Entry>, resource: Id, project: Id, d: int)
    requires forall i :: 0 <= i < |es| && OnDay(resource, Project(project), d)(es[i]) ==> Counted(es[i].txType)
    ensures Sum(es, OnDay(resource, Project(project), d), Quantity) ==
      Sum(es, DayOfType(resource, project, d, Purchase), Quantity)
      + Sum(es, DayOfType(resource, project, d, AllocationIn), Quantity)
      + Sum(es, DayOfType(resource, project, d, TransferIn), Quantity)
      + Sum(es, DayOfType(resource, project, d, Consumption), Quantity)
      + Sum(es, DayOfType(resource, project, d, TransferOut), Quantity)
      + Sum(es, DayOfType(resource, project, d, AllocationOut), Quantity)
    decreases |es|
  {
    if es != [] {
      DaySumByKind(es[..|es| - 1], resource, project, d);
    }
  }

  lemma {:induction false} UpToIsBeforePlusDay(es: seq<Entry>, resource: Id, loc: Location, d: int)
    ensures Sum(es, UpTo(resource, loc, d), Quantity) ==
      Sum(es, Before(resource, loc, d), Quantity) + Sum(es, OnDay(resource, loc, d), Quantity)
  {
    SumPartition(es, UpTo(resource, loc, d), Before(resource, loc, d), OnDay(resource, loc, d), Quantity);
  }

  lemma ClosingAgrees(es: seq<Entry>, resource: Id, project: Id, d: int)
    requires forall i :: 0 <= i < |es| && OnDay(resource, Project(project), d)(es[i]) ==> Counted(es[i].txType)
    requires forall i :: 0 <= i < |es| && OnDay(resource, Project(project), d)(es[i]) ==>
      (es[i].txType in {Consumption, TransferOut, AllocationOut} ==> es[i].quantity <= 0.0)
    ensures ResourceFigures(es, resource, project, d).closing == ClosingBalance(es, resource, Project(project), d)
  {
    DaySumByKind(es, resource, project, d);
    UpToIsBeforePlusDay(es, resource, Project(project), d);
    SumSign(es, DayOfType(resource, project, d, Consumption), Quantity);
    SumSign(es, DayOfType(resource, project, d, TransferOut), Quantity);
    SumSign(es, DayOfType(resource, project, d, AllocationOut), Quantity);
  }

  /** `title()`: the project code and the date, cut to the 31 characters a
      sheet name may have. */
  function Title(code: string, date: string): (t: string)
    ensures |t| <= 31 && |t| <= |code + " " + date|
    ensures t == (code + " " + date)[..|t|]
    ensures |code + " " + date| <= 31 ==> t == code + " " + date
  {
    Prefix(code + " " + date, 31)
  }
}
