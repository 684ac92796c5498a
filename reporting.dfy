/** `ReportingService`: reports over every resource of the catalogue (given
    in catalogue order as `resources`) and period and project summaries. */
module Reporting {
  import opened Transactions
  import opened Decimal
  import opened StockCalculator

  // ------------------------------------------------------------------
  // Daily report for all resources

  /** A resource appears in the all-resources daily report when it had
      opening stock or moved that day. */
  predicate Active(r: DayReport) {
    r.opening > 0.0 || r.totalIn > 0.0 || r.totalOut > 0.0
  }

  /** `generateDailyReportForAllResources`: the daily reports of the active
      resources, in catalogue order. */
  function DailyReportsForAll(es: seq<Entry>, resources: seq<Id>, loc: Location, d: int): (reports: seq<DayReport>)
    ensures forall k :: 0 <= k < |reports| ==>
      reports[k].resource in resources && reports[k] == DailyReport(es, reports[k].resource, loc, d) && Active(reports[k])
    ensures forall x :: x in resources && Active(DailyReport(es, x, loc, d)) ==>
      exists k :: 0 <= k < |reports| && reports[k].resource == x
    decreases |resources|
  {
    if resources == [] then []
    else
      var x := resources[|resources| - 1];
      var init := DailyReportsForAll(es, resources[..|resources| - 1], loc, d);
      assert forall y :: y in resources ==> y in resources[..|resources| - 1] || y == x;
      var report := DailyReport(es, x, loc, d);
      if Active(report) then
        var reports := init + [report];
        assert forall k :: 0 <= k < |init| ==> reports[k] == init[k];
        assert reports[|init|].resource == x;
        reports
      else init
  }

  // ------------------------------------------------------------------
  // Period summary

  /** The entries of one type at a location dated within [start, end]. */
  function InPeriod(loc: Location, start: int, end: int, t: TxType): Entry -> bool {
    (e: Entry) => e.location == loc && start <= e.date <= end && e.txType == t
  }

  function InWindow(loc: Location, start: int, end: int): Entry -> bool {
    (e: Entry) => e.location == loc && start <= e.date <= end
  }

  datatype PeriodTotals = PeriodTotals(
    purchases: real,
    purchasesValue: real,
    consumptions: real,
    consumptionsValue: real,
    allocationsOut: real,
    allocationsIn: real,
    transfersOut: real,
    transfersIn: real)

  datatype PeriodSummary = PeriodSummary(start: int, end: int, loc: Location, totals: PeriodTotals, entries: seq<Entry>)

  /** `generatePeriodSummary`: per-type totals of the period's entries at one
      location; outgoing kinds are reported as absolute values. */
  function Summary(es: seq<Entry>, loc: Location, start: int, end: int): (s: PeriodSummary)
    ensures s.totals.consumptions >= 0.0 && s.totals.consumptionsValue >= 0.0
    ensures s.totals.allocationsOut >= 0.0 && s.totals.transfersOut >= 0.0
    ensures forall i :: 0 <= i < |s.entries| ==> s.entries[i].location == loc && start <= s.entries[i].date <= end
  {
    var totals := PeriodTotals(
      Sum(es, InPeriod(loc, start, end, Purchase), Quantity),
      Sum(es, InPeriod(loc, start, end, Purchase), Value),
      Abs(Sum(es, InPeriod(loc, start, end, Consumption), Quantity)),
      Abs(Sum(es, InPeriod(loc, start, end, Consumption), Value)),
      Abs(Sum(es, InPeriod(loc, start, end, AllocationOut), Quantity)),
      Sum(es, InPeriod(loc, start, end, AllocationIn), Quantity),
      Abs(Sum(es, InPeriod(loc, start, end, TransferOut), Quantity)),
      Sum(es, InPeriod(loc, start, end, TransferIn), Quantity));
    var s := PeriodSummary(start, end, loc, totals, Select(es, InWindow(loc, start, end)));
    assert forall i :: 0 <= i < |s.entries| ==> InWindow(loc, start, end)(s.entries[i]);
    s
  }

  /** The summary lists exactly the entries of the location dated within
      the period, as many as that query counts. */
  lemma SummaryEntries(es: seq<Entry>, loc: Location, start: int, end: int)
    ensures var s := Summary(es, loc, start, end);
      (forall e :: e in s.entries <==> e in es && e.location == loc && start <= e.date <= end)
      && |s.entries| == CountKept(es, InWindow(loc, start, end))
  {
    SelectMembers(es, InWindow(loc, start, end));
    SelectLength(es, InWindow(loc, start, end));
  }

  /** The summary lists its entries in ledger order: over a ledger written in
      two parts, the first part's entries come first. */
  lemma SummaryEntriesInOrder(a: seq<Entry>, b: seq<Entry>, loc: Location, start: int, end: int)
    ensures Summary(a + b, loc, start, end).entries == Summary(a, loc, start, end).entries + Summary(b, loc, start, end).entries
  {
    SelectConcat(a, b, InWindow(loc, start, end));
  }

  /** An entry outside the period, or at another location, changes nothing
      in the summary. */
  lemma SummaryIgnores(es: seq<Entry>, e: Entry, loc: Location, start: int, end: int)
    requires !(e.location == loc && start <= e.date <= end)
    ensures Summary(es + [e], loc, start, end) == Summary(es, loc, start, end)
  {
    assert (es + [e])[..|es|] == es;
  }

  // ------------------------------------------------------------------
  // Inventory valuation report

  datatype ValuedResource = ValuedResource(resource: Id, quantity: real, averagePrice: real, totalValue: real)

  datatype ValuationReport = ValuationReport(date: int, loc: Location, items: seq<ValuedResource>, totalValue: real, totalItems: nat)

  /** The resources with a positive closing balance, each with its closing
      value and the average price that value gives. */
  function ValuedResources(es: seq<Entry>, resources: seq<Id>, loc: Location, d: int): (items: seq<ValuedResource>)
    ensures forall k :: 0 <= k < |items| ==>
      items[k].resource in resources && items[k].quantity == ClosingBalance(es, items[k].resource, loc, d) > 0.0
      && items[k].totalValue == ClosingValue(es, items[k].resource, loc, d)
      && items[k].averagePrice == AverageOf(items[k].totalValue, items[k].quantity)
    ensures forall x :: x in resources && ClosingBalance(es, x, loc, d) > 0.0 ==>
      exists k :: 0 <= k < |items| && items[k].resource == x
    decreases |resources|
  {
    if resources == [] then []
    else
      var x := resources[|resources| - 1];
      var init := ValuedResources(es, resources[..|resources| - 1], loc, d);
      assert forall y :: y in resources ==> y in resources[..|resources| - 1] || y == x;
      var closing := ClosingBalance(es, x, loc, d);
      if closing <= 0.0 then init
      else
        var value := ClosingValue(es, x, loc, d);
        var items := init + [ValuedResource(x, closing, AverageOf(value, closing), value)];
        assert forall k :: 0 <= k < |init| ==> items[k] == init[k];
        assert items[|init|].resource == x;
        items
  }

  /** `total_value / closing` for a positive closing quantity. */
  function AverageOf(value: real, quantity: real): (p: real)
    requires quantity > 0.0
    ensures p * quantity == value
  {
    value / quantity
  }

  function ValuedTotal(items: seq<ValuedResource>): real
    decreases |items|
  {
    if items == [] then 0.0 else ValuedTotal(items[..|items| - 1]) + items[|items| - 1].totalValue
  }

  /** How many of `resources` have a positive closing balance. */
  function CountInStock(es: seq<Entry>, resources: seq<Id>, loc: Location, d: int): nat
    decreases |resources|
  {
    if resources == [] then 0
    else
      var x := resources[|resources| - 1];
      CountInStock(es, resources[..|resources| - 1], loc, d) + (if ClosingBalance(es, x, loc, d) > 0.0 then 1 else 0)
  }

  /** `generateInventoryValuationReport`. */
  function InventoryValuationReport(es: seq<Entry>, resources: seq<Id>, loc: Location, d: int): ValuationReport {
    var items := ValuedResources(es, resources, loc, d);
    ValuationReport(d, loc, items, ValuedTotal(items), |items|)
  }

  /** The report counts exactly the resources in stock at the end of day d. */
  lemma {:induction false} ValuationReportCount(es: seq<Entry>, resources: seq<Id>, loc: Location, d: int)
    ensures InventoryValuationReport(es, resources, loc, d).totalItems == CountInStock(es, resources, loc, d)
    decreases |resources|
  {
    if resources != [] {
      ValuationReportCount(es, resources[..|resources| - 1], loc, d);
    }
  }

  // ------------------------------------------------------------------
  // Low stock report

  const DefaultThreshold: real := 10.0

  datatype StockStatus = OutOfStock | LowStock

  datatype LowStockItem = LowStockItem(resource: Id, currentStock: real, threshold: real, status: StockStatus)

  /** `generateLowStockReport`: the resources whose stock at the location is
      between 0 and the threshold, in catalogue order. */
  function LowStockReport(es: seq<Entry>, resources: seq<Id>, loc: Location, threshold: real): (items: seq<LowStockItem>)
    ensures forall k :: 0 <= k < |items| ==>
      items[k].resource in resources && items[k].currentStock == Stock(es, items[k].resource, loc)
      && 0.0 <= items[k].currentStock <= threshold && items[k].threshold == threshold
      && (items[k].status == OutOfStock <==> items[k].currentStock == 0.0)
    ensures forall x :: x in resources && 0.0 <= Stock(es, x, loc) <= threshold ==>
      exists k :: 0 <= k < |items| && items[k].resource == x
    decreases |resources|
  {
    if resources == [] then []
    else
      var x := resources[|resources| - 1];
      var init := LowStockReport(es, resources[..|resources| - 1], loc, threshold);
      assert forall y :: y in resources ==> y in resources[..|resources| - 1] || y == x;
      var current := Stock(es, x, loc);
      if current <= threshold && current >= 0.0 then
        var items := init + [LowStockItem(x, current, threshold, if current == 0.0 then OutOfStock else LowStock)];
        assert forall k :: 0 <= k < |init| ==> items[k] == init[k];
        assert items[|init|].resource == x;
        items
      else init
  }

  // ------------------------------------------------------------------
  // Project consumption report

  function ConsumptionScope(project: Id, start: int, end: int): Entry -> bool {
    (e: Entry) => e.location == Project(project) && e.txType == Consumption && start <= e.date <= end
  }

  function Everything(): Entry -> bool {
    (e: Entry) => true
  }

  /** The number of entries of one resource. */
  function CountOf(es: seq<Entry>, resource: Id): nat
    decreases |es|
  {
    if es == [] then 0
    else CountOf(es[..|es| - 1], resource) + (if es[|es| - 1].resource == resource then 1 else 0)
  }

  datatype ResourceConsumption = ResourceConsumption(resource: Id, totalConsumed: real, totalValue: real, count: nat)

  datatype ConsumptionReport = ConsumptionReport(
    project: Id, start: int, end: int,
    byResource: seq<ResourceConsumption>, totalConsumedValue: real, totalTransactions: nat)

  /** One line per resource of `ids`, over the consumption entries `cs`. */
  function ConsumptionLines(cs: seq<Entry>, ids: seq<Id>): (lines: seq<ResourceConsumption>)
    ensures |lines| == |ids|
    ensures forall k :: 0 <= k < |lines| ==>
      lines[k].resource == ids[k] && lines[k].count == CountOf(cs, ids[k])
      && lines[k].totalConsumed == Abs(Sum(cs, OfResource(ids[k]), Quantity)) >= 0.0
      && lines[k].totalValue == Abs(Sum(cs, OfResource(ids[k]), Value)) >= 0.0
    decreases |ids|
  {
    if ids == [] then []
    else
      var x := ids[|ids| - 1];
      var init := ConsumptionLines(cs, ids[..|ids| - 1]);
      var lines := init + [ResourceConsumption(x, Abs(Sum(cs, OfResource(x), Quantity)), Abs(Sum(cs, OfResource(x), Value)), CountOf(cs, x))];
      assert forall k :: 0 <= k < |init| ==> lines[k] == init[k] && ids[k] == ids[..|ids| - 1][k];
      lines
  }

  function LineCounts(lines: seq<ResourceConsumption>): nat
    decreases |lines|
  {
    if lines == [] then 0 else LineCounts(lines[..|lines| - 1]) + lines[|lines| - 1].count
  }

  /** `generateProjectConsumptionReport`: the CONSUMPTION entries of the
      project in [start, end], grouped by resource in order of first
      appearance. */
  function ProjectConsumptionReport(es: seq<Entry>, project: Id, start: int, end: int): (r: ConsumptionReport)
    ensures r.totalConsumedValue >= 0.0
  {
    var cs := Select(es, ConsumptionScope(project, start, end));
    var lines := ConsumptionLines(cs, Resources(cs, Everything()));
    ConsumptionReport(project, start, end, lines, Abs(Sum(cs, Everything(), Value)), |cs|)
  }

  /** The summed counts of the lines of distinct resources. */
  function CountsOver(cs: seq<Entry>, ids: seq<Id>): nat
    decreases |ids|
  {
    if ids == [] then 0 else CountsOver(cs, ids[..|ids| - 1]) + CountOf(cs, ids[|ids| - 1])
  }

  lemma {:induction false} LineCountsAre(cs: seq<Entry>, ids: seq<Id>)
    ensures LineCounts(ConsumptionLines(cs, ids)) == CountsOver(cs, ids)
    decreases |ids|
  {
    if ids != [] {
      LineCountsAre(cs, ids[..|ids| - 1]);
      var lines := ConsumptionLines(cs, ids);
      assert lines[..|lines| - 1] == ConsumptionLines(cs, ids[..|ids| - 1]);
    }
  }

  /** One more entry adds one to the count of its resource when that
      resource is among `ids`. */
  lemma {:induction false} CountsOverAppend(cs: seq<Entry>, e: Entry, ids: seq<Id>)
    requires forall i, j :: 0 <= i < j < |ids| ==> ids[i] != ids[j]
    ensures CountsOver(cs + [e], ids) == CountsOver(cs, ids) + (if e.resource in ids then 1 else 0)
    decreases |ids|
  {
    assert (cs + [e])[..|cs|] == cs;
    if ids != [] {
      var init := ids[..|ids| - 1];
      CountsOverAppend(cs, e, init);
      assert e.resource in ids <==> e.resource in init || e.resource == ids[|ids| - 1];
      assert ids[|ids| - 1] !in init;
    }
  }

  /** A resource without entries is counted zero times. */
  lemma {:induction false} CountOfAbsent(cs: seq<Entry>, x: Id)
    requires forall i :: 0 <= i < |cs| ==> cs[i].resource != x
    ensures CountOf(cs, x) == 0
    decreases |cs|
  {
    if cs != [] {
      CountOfAbsent(cs[..|cs| - 1], x);
    }
  }

  /** Every entry falls in exactly one resource group. */
  lemma {:induction false} GroupsCoverEntries(cs: seq<Entry>)
    ensures CountsOver(cs, Resources(cs, Everything())) == |cs|
    decreases |cs|
  {
    if cs != [] {
      var init := cs[..|cs| - 1];
      var e := cs[|cs| - 1];
      assert cs == init + [e];
      GroupsCoverEntries(init);
      var ids := Resources(init, Everything());
      CountsOverAppend(init, e, ids);
      if e.resource !in ids {
        assert Resources(cs, Everything()) == ids + [e.resource];
        assert (ids + [e.resource])[..|ids|] == ids;
        assert forall i :: 0 <= i < |init| ==> init[i].resource != e.resource;
        CountOfAbsent(init, e.resource);
      }
    }
  }

  /** The report's transaction count is the sum of its per-resource counts. */
  lemma ConsumptionCountsAddUp(es: seq<Entry>, project: Id, start: int, end: int)
    ensures var r := ProjectConsumptionReport(es, project, start, end);
      r.totalTransactions == LineCounts(r.byResource)
  {
    var cs := Select(es, ConsumptionScope(project, start, end));
    LineCountsAre(cs, Resources(cs, Everything()));
    GroupsCoverEntries(cs);
  }

  /** The resources of a report's lines, in line order. */
  function LineResources(lines: seq<ResourceConsumption>): (ids: seq<Id>)
    ensures |ids| == |lines| && forall k :: 0 <= k < |lines| ==> ids[k] == lines[k].resource
  {
    seq(|lines|, k requires 0 <= k < |lines| => lines[k].resource)
  }

  /** The consumption entries of one resource in the report's scope. */
  function ResourceConsumed(project: Id, start: int, end: int, x: Id): Entry -> bool {
    Both(ConsumptionScope(project, start, end), OfResource(x))
  }

  /** Counting a resource's entries is counting what `OfResource` keeps. */
  lemma {:induction false} CountOfKept(cs: seq<Entry>, x: Id)
    ensures CountOf(cs, x) == CountKept(cs, OfResource(x))
    decreases |cs|
  {
    if cs != [] {
      CountOfKept(cs[..|cs| - 1], x);
    }
  }

  /** The report's total consumed value is the absolute summed value of the
      project's CONSUMPTION entries in the range, and its transaction count
      is how many such entries there are. */
  lemma ProjectConsumptionTotals(es: seq<Entry>, project: Id, start: int, end: int)
    ensures var r := ProjectConsumptionReport(es, project, start, end);
      r.totalConsumedValue == Abs(Sum(es, ConsumptionScope(project, start, end), Value))
      && r.totalTransactions == CountKept(es, ConsumptionScope(project, start, end))
  {
    var scope := ConsumptionScope(project, start, end);
    SelectSum(es, scope, Everything(), Value);
    SumExt(es, Both(scope, Everything()), scope, Value);
    SelectLength(es, scope);
  }

  /** One line of the report carries the absolute summed quantity and value
      of its resource's consumption entries in the scope, and their count. */
  lemma ConsumptionLineAt(es: seq<Entry>, project: Id, start: int, end: int, k: nat)
    requires k < |ProjectConsumptionReport(es, project, start, end).byResource|
    ensures var line := ProjectConsumptionReport(es, project, start, end).byResource[k];
      line.totalConsumed == Abs(Sum(es, ResourceConsumed(project, start, end, line.resource), Quantity))
      && line.totalValue == Abs(Sum(es, ResourceConsumed(project, start, end, line.resource), Value))
      && line.count == CountKept(es, ResourceConsumed(project, start, end, line.resource))
  {
    var scope := ConsumptionScope(project, start, end);
    var cs := Select(es, scope);
    var x := ProjectConsumptionReport(es, project, start, end).byResource[k].resource;
    SelectSum(es, scope, OfResource(x), Quantity);
    SelectSum(es, scope, OfResource(x), Value);
    CountOfKept(cs, x);
    SelectCount(es, scope, OfResource(x));
  }

  /** Every line of the report carries its resource's figures over the
      ledger. */
  lemma ConsumptionLineFigures(es: seq<Entry>, project: Id, start: int, end: int)
    ensures var lines := ProjectConsumptionReport(es, project, start, end).byResource;
      forall k :: 0 <= k < |lines| ==>
        lines[k].totalConsumed == Abs(Sum(es, ResourceConsumed(project, start, end, lines[k].resource), Quantity))
        && lines[k].totalValue == Abs(Sum(es, ResourceConsumed(project, start, end, lines[k].resource), Value))
        && lines[k].count == CountKept(es, ResourceConsumed(project, start, end, lines[k].resource))
  {
    var lines := ProjectConsumptionReport(es, project, start, end).byResource;
    forall k | 0 <= k < |lines|
      ensures lines[k].totalConsumed == Abs(Sum(es, ResourceConsumed(project, start, end, lines[k].resource), Quantity))
        && lines[k].totalValue == Abs(Sum(es, ResourceConsumed(project, start, end, lines[k].resource), Value))
        && lines[k].count == CountKept(es, ResourceConsumed(project, start, end, lines[k].resource))
    {
      ConsumptionLineAt(es, project, start, end, k);
    }
  }

  /** The report has a line for a resource exactly when the project consumed
      it in the range, and no resource has two lines. */
  lemma ConsumptionLineResources(es: seq<Entry>, project: Id, start: int, end: int)
    ensures var ids := LineResources(ProjectConsumptionReport(es, project, start, end).byResource);
      (forall i, j :: 0 <= i < j < |ids| ==> ids[i] != ids[j])
      && (forall x :: x in ids <==>
            exists i :: 0 <= i < |es| && ConsumptionScope(project, start, end)(es[i]) && es[i].resource == x)
  {
    var scope := ConsumptionScope(project, start, end);
    var cs := Select(es, scope);
    var ids := Resources(cs, Everything());
    assert LineResources(ProjectConsumptionReport(es, project, start, end).byResource) == ids;
    SelectMembers(es, scope);
    forall x
      ensures x in ids <==> exists i :: 0 <= i < |es| && scope(es[i]) && es[i].resource == x
    {
      if exists i :: 0 <= i < |es| && scope(es[i]) && es[i].resource == x {
        var i :| 0 <= i < |es| && scope(es[i]) && es[i].resource == x;
        assert es[i] in cs;
        var j :| 0 <= j < |cs| && cs[j] == es[i];
        assert Everything()(cs[j]);
      }
      if x in ids {
        var j :| 0 <= j < |cs| && Everything()(cs[j]) && cs[j].resource == x;
        assert cs[j] in es;
        var i :| 0 <= i < |es| && es[i] == cs[j];
      }
    }
  }

  /** An entry of another project, of another type or outside the range
      changes nothing in the report. */
  lemma ProjectConsumptionIgnores(es: seq<Entry>, e: Entry, project: Id, start: int, end: int)
    requires !(e.location == Project(project) && e.txType == Consumption && start <= e.date <= end)
    ensures ProjectConsumptionReport(es + [e], project, start, end) == ProjectConsumptionReport(es, project, start, end)
  {
    var scope := ConsumptionScope(project, start, end);
    SelectConcat(es, [e], scope);
    SelectOne(e, scope);
    assert Select(es + [e], scope) == Select(es, scope);
  }
}
