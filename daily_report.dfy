/** The Daily Inventory Report page: per resource, the balance before and
    after a day, the day's real movements in and out, and the suppliers of
    the day's receipts; for the whole system, for one project, or grouped
    per project when several are selected. */
module DailyInventoryReport {
  import opened Wrappers
  import opened Transactions
  import opened Decimal
  import opened Text

  // ------------------------------------------------------------------
  // The ledger queries

  /** `whereIn('project_id', $projectIds)`: hub entries never match. */
  predicate AtSelected(e: Entry, projects: seq<Id>) {
    e.location.Project? && e.location.id in projects
  }

  /** The kinds a system-wide balance counts: what enters or leaves the
      system, not the moves between its locations. */
  predicate SystemKind(t: TxType) {
    t == GoodsReceipt || t == Purchase || t == Consumption || t == DirectConsumption
  }

  /** `getBalanceAsOfDate`'s query: the resource's entries up to `asOf`, at
      the selected projects, or of the system kinds anywhere when none is
      selected. */
  function BalanceFilter(resource: Id, asOf: int, projects: seq<Id>): Entry -> bool {
    (e: Entry) => e.resource == resource && e.date <= asOf
      && (if projects != [] then AtSelected(e, projects) else SystemKind(e.txType))
  }

  /** The same scope restricted to one day. */
  function DayFilter(resource: Id, d: int, projects: seq<Id>): Entry -> bool {
    (e: Entry) => e.resource == resource && e.date == d
      && (if projects != [] then AtSelected(e, projects) else SystemKind(e.txType))
  }

  /** `getMovementsForDate(..., 'IN', ...)`: positive receipts, allocations
      and transfers into the selected projects, or positive receipts and
      purchases at the hub system-wide. */
  function InFilter(resource: Id, d: int, projects: seq<Id>): Entry -> bool {
    (e: Entry) => e.resource == resource && e.date == d && e.quantity > 0.0
      && (if projects != [] then AtSelected(e, projects) && e.txType in {GoodsReceipt, AllocationIn, TransferIn}
          else e.location == Hub && e.txType in {GoodsReceipt, Purchase})
  }

  /** `getMovementsForDate(..., 'OUT', ...)`: negative consumptions,
      allocations and transfers out of the selected projects, or negative
      consumptions anywhere system-wide. */
  function OutFilter(resource: Id, d: int, projects: seq<Id>): Entry -> bool {
    (e: Entry) => e.resource == resource && e.date == d && e.quantity < 0.0
      && (if projects != [] then AtSelected(e, projects) && e.txType in {Consumption, DirectConsumption, AllocationOut, TransferOut}
          else e.txType in {Consumption, DirectConsumption})
  }

  datatype Balance = Balance(qty: real, value: real, rate: real)

  /** `getBalanceAsOfDate`: quantity, value and the average rate, which is 0
      for a zero quantity. */
  function BalanceAsOf(es: seq<Entry>, resource: Id, asOf: int, projects: seq<Id>): (b: Balance)
    ensures b.qty != 0.0 ==> b.rate * b.qty == b.value
    ensures b.qty == 0.0 ==> b.rate == 0.0
  {
    var qty := Sum(es, BalanceFilter(resource, asOf, projects), Quantity);
    var value := Sum(es, BalanceFilter(resource, asOf, projects), Value);
    Balance(qty, value, if qty != 0.0 then value / qty else 0.0)
  }

  /** The balance at the end of a day is the one at the end of the day
      before plus what that day books in scope. */
  lemma BalanceStep(es: seq<Entry>, resource: Id, d: int, projects: seq<Id>, val: Entry -> real)
    ensures Sum(es, BalanceFilter(resource, d, projects), val) ==
      Sum(es, BalanceFilter(resource, d - 1, projects), val) + Sum(es, DayFilter(resource, d, projects), val)
  {
    SumPartition(es, BalanceFilter(resource, d, projects), BalanceFilter(resource, d - 1, projects),
      DayFilter(resource, d, projects), val);
  }

  /** A day whose every entry in scope is one of the counted movements: a
      positive one in, or a negative one out. */
  predicate DayCovered(es: seq<Entry>, resource: Id, d: int, projects: seq<Id>) {
    forall i :: 0 <= i < |es| && DayFilter(resource, d, projects)(es[i]) ==>
      InFilter(resource, d, projects)(es[i]) || OutFilter(resource, d, projects)(es[i])
  }

  lemma DaySplit(es: seq<Entry>, resource: Id, d: int, projects: seq<Id>, val: Entry -> real)
    requires DayCovered(es, resource, d, projects)
    ensures Sum(es, DayFilter(resource, d, projects), val) ==
      Sum(es, InFilter(resource, d, projects), val) + Sum(es, OutFilter(resource, d, projects), val)
  {
    SumPartition(es, DayFilter(resource, d, projects), InFilter(resource, d, projects),
      OutFilter(resource, d, projects), val);
  }

  // ------------------------------------------------------------------
  // Suppliers

  /** The ledger's `supplier` column, one per entry; missing is null. */
  function SupplierAt(suppliers: seq<Option<string>>, i: nat): Option<string> {
    if i < |suppliers| then suppliers[i] else None
  }

  predicate ReceiptOn(e: Entry, resource: Id, d: int) {
    e.resource == resource && e.date == d && e.txType == GoodsReceipt
  }

  /** The distinct non-null suppliers of the resource's goods receipts that
      day, at any location, in order of first appearance. */
  function DaySuppliers(es: seq<Entry>, suppliers: seq<Option<string>>, resource: Id, d: int): (names: seq<string>)
    ensures forall i, j :: 0 <= i < j < |names| ==> names[i] != names[j]
    ensures forall s :: (s in names <==>
      exists i :: 0 <= i < |es| && ReceiptOn(es[i], resource, d) && SupplierAt(suppliers, i) == Some(s))
    decreases |es|
  {
    if es == [] then []
    else
      var n := |es| - 1;
      var init := DaySuppliers(es[..n], suppliers, resource, d);
      assert forall i :: 0 <= i < n ==> es[..n][i] == es[i];
      if ReceiptOn(es[n], resource, d) && SupplierAt(suppliers, n).Some? && SupplierAt(suppliers, n).value !in init
      then init + [SupplierAt(suppliers, n).value]
      else init
  }

  /** `getSuppliersForDate`: the suppliers joined with ", ", or "-" when the
      joined text is falsy in PHP (empty or "0"). */
  function SuppliersForDate(es: seq<Entry>, suppliers: seq<Option<string>>, resource: Id, d: int): (r: string)
    ensures r != ""
    ensures (forall i :: 0 <= i < |es| && ReceiptOn(es[i], resource, d) ==> SupplierAt(suppliers, i).None?) ==> r == "-"
    ensures r == "-" || r == Join(DaySuppliers(es, suppliers, resource, d), ", ")
  {
    var names := DaySuppliers(es, suppliers, resource, d);
    assert (forall i :: 0 <= i < |es| && ReceiptOn(es[i], resource, d) ==> SupplierAt(suppliers, i).None?) ==> names == [] by {
      if names != [] {
        assert names[0] in names;
      }
    }
    var joined := Join(names, ", ");
    if joined == "" || joined == "0" then "-" else joined
  }

  // ------------------------------------------------------------------
  // One resource's row

  datatype ItemRow = ItemRow(
    resource: Id,
    openingQty: real,
    openingValue: real,
    inQty: real,
    inValue: real,
    outQty: real,
    outValue: real,
    closingQty: real,
    avgPrice: real,
    closingValue: real,
    suppliers: string)

  /** `$projectId ? [$projectId] : []`. */
  function Scope(project: Option<Id>): seq<Id> {
    if project.Some? then [project.value] else []
  }

  /** A resource with neither a movement that day nor stock before or after
      it. */
  predicate Quiet(es: seq<Entry>, resource: Id, d: int, projects: seq<Id>) {
    (forall i :: 0 <= i < |es| ==> !InFilter(resource, d, projects)(es[i]))
    && (forall i :: 0 <= i < |es| ==> !OutFilter(resource, d, projects)(es[i]))
    && BalanceAsOf(es, resource, d - 1, projects).qty == 0.0
    && BalanceAsOf(es, resource, d, projects).qty == 0.0
  }

  /** `buildResourceReportForProject`: no row for a quiet resource;
      otherwise the balances, the movements out as absolute values, and the
      closing rate. */
  function ResourceReport(es: seq<Entry>, suppliers: seq<Option<string>>, resource: Id, d: int, project: Option<Id>): (row: Option<ItemRow>)
    ensures row.None? <==> Quiet(es, resource, d, Scope(project))
    ensures row.Some? ==>
      row.value.resource == resource && row.value.inQty >= 0.0 && row.value.outQty >= 0.0 && row.value.outValue >= 0.0
    ensures row.Some? ==>
      row.value.openingQty == BalanceAsOf(es, resource, d - 1, Scope(project)).qty
      && row.value.closingQty == BalanceAsOf(es, resource, d, Scope(project)).qty
    ensures row.Some? && row.value.closingQty != 0.0 ==> row.value.avgPrice * row.value.closingQty == row.value.closingValue
    ensures row.Some? && row.value.closingQty == 0.0 ==> row.value.avgPrice == 0.0
  {
    var projects := Scope(project);
    var opening := BalanceAsOf(es, resource, d - 1, projects);
    var closing := BalanceAsOf(es, resource, d, projects);
    var inQty := Sum(es, InFilter(resource, d, projects), Quantity);
    var inValue := Sum(es, InFilter(resource, d, projects), Value);
    var outQty := Abs(Sum(es, OutFilter(resource, d, projects), Quantity));
    var outValue := Abs(Sum(es, OutFilter(resource, d, projects), Value));
    SumPositive(es, InFilter(resource, d, projects), Quantity);
    SumNegative(es, OutFilter(resource, d, projects), Quantity);
    var hasMovements := inQty > 0.0 || outQty > 0.0;
    var hasStock := opening.qty != 0.0 || closing.qty != 0.0;
    if !(hasMovements || hasStock) then None
    else
      Some(ItemRow(resource, opening.qty, opening.value, inQty, inValue, outQty, outValue,
        closing.qty, closing.rate, closing.value, SuppliersForDate(es, suppliers, resource, d)))
  }

  /** When every entry of the day in scope is a counted movement (true of
      what the ledger service books), a row's closing quantity is its
      opening plus in minus out. */
  lemma RowCloses(es: seq<Entry>, suppliers: seq<Option<string>>, resource: Id, d: int, project: Option<Id>)
    requires DayCovered(es, resource, d, Scope(project))
    requires ResourceReport(es, suppliers, resource, d, project).Some?
    ensures var row := ResourceReport(es, suppliers, resource, d, project).value;
      row.closingQty == row.openingQty + row.inQty - row.outQty
  {
    var projects := Scope(project);
    BalanceStep(es, resource, d, projects, Quantity);
    DaySplit(es, resource, d, projects, Quantity);
    SumNegative(es, OutFilter(resource, d, projects), Quantity);
  }

  /** The same for values, when no outgoing entry carries a positive
      value (a non-negative price on a negative quantity). */
  lemma RowValueCloses(es: seq<Entry>, suppliers: seq<Option<string>>, resource: Id, d: int, project: Option<Id>)
    requires DayCovered(es, resource, d, Scope(project))
    requires forall i :: 0 <= i < |es| && OutFilter(resource, d, Scope(project))(es[i]) ==> es[i].totalValue <= 0.0
    requires ResourceReport(es, suppliers, resource, d, project).Some?
    ensures var row := ResourceReport(es, suppliers, resource, d, project).value;
      row.closingValue == row.openingValue + row.inValue - row.outValue
  {
    var projects := Scope(project);
    BalanceStep(es, resource, d, projects, Value);
    DaySplit(es, resource, d, projects, Value);
    SumSign(es, OutFilter(resource, d, projects), Value);
  }

  // ------------------------------------------------------------------
  // Totals of a project's rows

  datatype Totals = Totals(
    openingQty: real, openingValue: real, inQty: real, inValue: real,
    outQty: real, outValue: real, closingQty: real, closingValue: real)

  function AddRow(t: Totals, row: ItemRow): Totals {
    Totals(t.openingQty + row.openingQty, t.openingValue + row.openingValue, t.inQty + row.inQty,
      t.inValue + row.inValue, t.outQty + row.outQty, t.outValue + row.outValue,
      t.closingQty + row.closingQty, t.closingValue + row.closingValue)
  }

  /** `calculateProjectTotals`: the column sums. */
  function ProjectTotals(items: seq<ItemRow>): Totals
    decreases |items|
  {
    if items == [] then Totals(0.0, 0.0, 0.0, 0.0, 0.0, 0.0, 0.0, 0.0)
    else AddRow(ProjectTotals(items[..|items| - 1]), items[|items| - 1])
  }

  /** Totals of rows that close close too, and their outgoing columns are
      not negative when no row's are. */
  lemma {:induction false} TotalsClose(items: seq<ItemRow>)
    requires forall k :: 0 <= k < |items| ==> items[k].closingQty == items[k].openingQty + items[k].inQty - items[k].outQty
    requires forall k :: 0 <= k < |items| ==> items[k].outQty >= 0.0 && items[k].outValue >= 0.0
    ensures ProjectTotals(items).closingQty == ProjectTotals(items).openingQty + ProjectTotals(items).inQty - ProjectTotals(items).outQty
    ensures ProjectTotals(items).outQty >= 0.0 && ProjectTotals(items).outValue >= 0.0
    decreases |items|
  {
    if items != [] {
      TotalsClose(items[..|items| - 1]);
    }
  }

  /** The totals of rows written in two parts add up. */
  lemma {:induction false} TotalsConcat(a: seq<ItemRow>, b: seq<ItemRow>)
    ensures ProjectTotals(a + b).inQty == ProjectTotals(a).inQty + ProjectTotals(b).inQty
    ensures ProjectTotals(a + b).outQty == ProjectTotals(a).outQty + ProjectTotals(b).outQty
    ensures ProjectTotals(a + b).closingQty == ProjectTotals(a).closingQty + ProjectTotals(b).closingQty
    decreases |b|
  {
    if b == [] {
      assert a + b == a;
    } else {
      assert (a + b)[..|a + b| - 1] == a + b[..|b| - 1];
      TotalsConcat(a, b[..|b| - 1]);
    }
  }

  // ------------------------------------------------------------------
  // The report

  /** The rows of one scope over the resources, in catalogue order. */
  function Rows(es: seq<Entry>, suppliers: seq<Option<string>>, resources: seq<Id>, d: int, project: Option<Id>): (rows: seq<ItemRow>)
    ensures |rows| <= |resources|
    ensures forall k :: 0 <= k < |rows| ==>
      rows[k].resource in resources && ResourceReport(es, suppliers, rows[k].resource, d, project) == Some(rows[k])
    decreases |resources|
  {
    if resources == [] then []
    else
      var init := Rows(es, suppliers, resources[..|resources| - 1], d, project);
      var x := resources[|resources| - 1];
      assert forall k :: 0 <= k < |init| ==> init[k].resource in resources;
      match ResourceReport(es, suppliers, x, d, project)
      case Some(row) => init + [row]
      case None => init
  }

  /** Every resource that is not quiet has its row. */
  lemma {:induction false} RowsComplete(es: seq<Entry>, suppliers: seq<Option<string>>, resources: seq<Id>, d: int, project: Option<Id>, x: Id)
    requires x in resources && !Quiet(es, x, d, Scope(project))
    ensures exists k :: 0 <= k < |Rows(es, suppliers, resources, d, project)| && Rows(es, suppliers, resources, d, project)[k].resource == x
    decreases |resources|
  {
    var init := resources[..|resources| - 1];
    var rows := Rows(es, suppliers, resources, d, project);
    if x == resources[|resources| - 1] {
      var row := ResourceReport(es, suppliers, x, d, project).value;
      assert rows[|rows| - 1] == row;
    } else {
      assert x in init;
      RowsComplete(es, suppliers, init, d, project, x);
      var k :| 0 <= k < |Rows(es, suppliers, init, d, project)| && Rows(es, suppliers, init, d, project)[k].resource == x;
      assert rows[k] == Rows(es, suppliers, init, d, project)[k];
    }
  }

  /** A project's rows before they are grouped, keyed by project id. */
  type Buckets = map<Id, seq<ItemRow>>

  function EmptyBuckets(projects: seq<Id>): (m: Buckets)
    ensures m.Keys == set q | q in projects
    ensures forall q :: q in m ==> m[q] == []
    decreases |projects|
  {
    if projects == [] then map[] else EmptyBuckets(projects[..|projects| - 1])[projects[|projects| - 1] := []]
  }

  /** The inner loop of `buildReport`: one resource's row appended to each
      selected project's bucket. */
  function AddResource(m: Buckets, es: seq<Entry>, suppliers: seq<Option<string>>, resource: Id, d: int, projects: seq<Id>): (r: Buckets)
    requires forall q :: q in projects ==> q in m
    ensures r.Keys == m.Keys
    decreases |projects|
  {
    if projects == [] then m
    else
      var q := projects[|projects| - 1];
      var m' := AddResource(m, es, suppliers, resource, d, projects[..|projects| - 1]);
      match ResourceReport(es, suppliers, resource, d, Some(q))
      case Some(row) => m'[q := m'[q] + [row]]
      case None => m'
  }

  /** The outer loop: every resource, in catalogue order. */
  function FillBuckets(es: seq<Entry>, suppliers: seq<Option<string>>, resources: seq<Id>, d: int, projects: seq<Id>): (m: Buckets)
    ensures m.Keys == set q | q in projects
    decreases |resources|
  {
    if resources == [] then EmptyBuckets(projects)
    else AddResource(FillBuckets(es, suppliers, resources[..|resources| - 1], d, projects), es, suppliers, resources[|resources| - 1], d, projects)
  }

  lemma {:induction false} AddResourceEffect(m: Buckets, es: seq<Entry>, suppliers: seq<Option<string>>, resource: Id, d: int, projects: seq<Id>, p: Id)
    requires forall q :: q in projects ==> q in m
    requires forall i, j :: 0 <= i < j < |projects| ==> projects[i] != projects[j]
    requires p in m
    ensures p !in projects ==> AddResource(m, es, suppliers, resource, d, projects)[p] == m[p]
    ensures p in projects ==>
      AddResource(m, es, suppliers, resource, d, projects)[p] == m[p] + (match ResourceReport(es, suppliers, resource, d, Some(p)) case Some(row) => [row] case None => [])
    decreases |projects|
  {
    if projects != [] {
      var init := projects[..|projects| - 1];
      var q := projects[|projects| - 1];
      assert forall i :: 0 <= i < |init| ==> init[i] == projects[i];
      AddResourceEffect(m, es, suppliers, resource, d, init, p);
      if p == q {
        assert p !in init;
      } else {
        assert (p in projects) == (p in init);
      }
    }
  }

  /** With distinct projects selected, each project's bucket holds exactly
      the rows of that project's own report. */
  lemma {:induction false} BucketsAreProjectRows(es: seq<Entry>, suppliers: seq<Option<string>>, resources: seq<Id>, d: int, projects: seq<Id>, p: Id)
    requires forall i, j :: 0 <= i < j < |projects| ==> projects[i] != projects[j]
    requires p in projects
    ensures FillBuckets(es, suppliers, resources, d, projects)[p] == Rows(es, suppliers, resources, d, Some(p))
    decreases |resources|
  {
    if resources != [] {
      var init := resources[..|resources| - 1];
      BucketsAreProjectRows(es, suppliers, init, d, projects, p);
      AddResourceEffect(FillBuckets(es, suppliers, init, d, projects), es, suppliers, resources[|resources| - 1], d, projects, p);
    }
  }

  datatype ProjectGroup = ProjectGroup(project: Id, name: string, items: seq<ItemRow>, totals: Totals)

  datatype Report = Flat(items: seq<ItemRow>) | Grouped(groups: seq<ProjectGroup>)

  /** `$projects[$projectId]->name ?? 'Project ' . $projectId`. */
  function ProjectName(names: map<Id, string>, q: Id): string {
    if q in names then names[q] else "Project " + NatToString(q)
  }

  /** The formatting loop: one group per selected project with rows, in
      selection order, with its totals. */
  function Groups(m: Buckets, projects: seq<Id>, names: map<Id, string>): (gs: seq<ProjectGroup>)
    requires forall q :: q in projects ==> q in m
    ensures |gs| <= |projects|
    ensures forall k :: 0 <= k < |gs| ==>
      gs[k].project in projects && gs[k].items != [] && gs[k].items == m[gs[k].project] && gs[k].totals == ProjectTotals(gs[k].items)
    ensures forall q :: q in projects && m[q] != [] ==> exists k :: 0 <= k < |gs| && gs[k].project == q
    decreases |projects|
  {
    if projects == [] then []
    else
      var q := projects[|projects| - 1];
      var init := Groups(m, projects[..|projects| - 1], names);
      assert forall k :: 0 <= k < |init| ==> init[k].project in projects;
      var gs := init + (if m[q] != [] then [ProjectGroup(q, ProjectName(names, q), m[q], ProjectTotals(m[q]))] else []);
      assert forall k :: 0 <= k < |init| ==> gs[k] == init[k];
      forall p | p in projects && m[p] != []
        ensures exists k :: 0 <= k < |gs| && gs[k].project == p
      {
        if p == q {
          assert gs[|init|].project == p;
        } else {
          assert p in projects[..|projects| - 1];
          var k :| 0 <= k < |init| && init[k].project == p;
          assert gs[k].project == p;
        }
      }
      gs
  }

  /** What `buildReport` returns: grouped when more than one project is
      selected, otherwise the flat rows of the first project or of the
      whole system. */
  function ReportFor(es: seq<Entry>, suppliers: seq<Option<string>>, resources: seq<Id>, d: int, projects: seq<Id>, names: map<Id, string>): Report {
    if |projects| > 1 then Grouped(Groups(FillBuckets(es, suppliers, resources, d, projects), projects, names))
    else Flat(Rows(es, suppliers, resources, d, if projects != [] then Some(projects[0]) else None))
  }

  /** With distinct projects selected, each group of the grouped report is
      that project's own report, and no project with rows is missing. */
  lemma GroupedIsPerProject(es: seq<Entry>, suppliers: seq<Option<string>>, resources: seq<Id>, d: int, projects: seq<Id>, names: map<Id, string>)
    requires |projects| > 1
    requires forall i, j :: 0 <= i < j < |projects| ==> projects[i] != projects[j]
    ensures var gs := ReportFor(es, suppliers, resources, d, projects, names).groups;
      forall k :: 0 <= k < |gs| ==> gs[k].items == Rows(es, suppliers, resources, d, Some(gs[k].project))
  {
    var gs := ReportFor(es, suppliers, resources, d, projects, names).groups;
    forall k | 0 <= k < |gs|
      ensures gs[k].items == Rows(es, suppliers, resources, d, Some(gs[k].project))
    {
      BucketsAreProjectRows(es, suppliers, resources, d, projects, gs[k].project);
    }
  }

  /** The inner loop of `buildReport` for one resource. */
  method AddResourceRows(buckets: Buckets, es: seq<Entry>, suppliers: seq<Option<string>>, resource: Id, d: int, projects: seq<Id>)
    returns (filled: Buckets)
    requires forall q :: q in projects ==> q in buckets
    ensures filled == AddResource(buckets, es, suppliers, resource, d, projects)
  {
    filled := buckets;
    var k := 0;
    while k < |projects|
      invariant 0 <= k <= |projects|
      invariant filled == AddResource(buckets, es, suppliers, resource, d, projects[..k])
    {
      assert projects[..k + 1][..k] == projects[..k];
      var item := ResourceReport(es, suppliers, resource, d, Some(projects[k]));
      if item.Some? {
        filled := filled[projects[k] := filled[projects[k]] + [item.value]];
      }
      k := k + 1;
    }
    assert projects[..k] == projects;
  }

  /** The bucket-filling loops of `buildReport`. */
  method FillProjectBuckets(es: seq<Entry>, suppliers: seq<Option<string>>, resources: seq<Id>, d: int, projects: seq<Id>)
    returns (buckets: Buckets)
    ensures buckets == FillBuckets(es, suppliers, resources, d, projects)
  {
    buckets := map[];
    var j := 0;
    while j < |projects|
      invariant 0 <= j <= |projects|
      invariant buckets == EmptyBuckets(projects[..j])
    {
      assert projects[..j + 1][..j] == projects[..j];
      buckets := buckets[projects[j] := []];
      j := j + 1;
    }
    assert projects[..j] == projects;
    var i := 0;
    while i < |resources|
      invariant 0 <= i <= |resources|
      invariant buckets == FillBuckets(es, suppliers, resources[..i], d, projects)
    {
      assert resources[..i + 1][..i] == resources[..i];
      buckets := AddResourceRows(buckets, es, suppliers, resources[i], d, projects);
      i := i + 1;
    }
    assert resources[..i] == resources;
  }

  /** One more selected project adds its group, if it has rows. */
  lemma GroupsStep(m: Buckets, projects: seq<Id>, names: map<Id, string>, j: nat, groups: seq<ProjectGroup>, items: seq<ItemRow>)
    requires j < |projects| && forall q :: q in projects ==> q in m
    requires groups == Groups(m, projects[..j], names) && items == m[projects[j]]
    ensures items != [] ==>
      Groups(m, projects[..j + 1], names) == groups + [ProjectGroup(projects[j], ProjectName(names, projects[j]), items, ProjectTotals(items))]
    ensures items == [] ==> Groups(m, projects[..j + 1], names) == groups
  {
    assert projects[..j + 1][..j] == projects[..j];
  }

  /** The formatting loop of `buildReport`. */
  method FormatGroups(buckets: Buckets, projects: seq<Id>, names: map<Id, string>) returns (groups: seq<ProjectGroup>)
    requires forall q :: q in projects ==> q in buckets
    ensures groups == Groups(buckets, projects, names)
  {
    groups := [];
    var j := 0;
    while j < |projects|
      invariant 0 <= j <= |projects|
      invariant groups == Groups(buckets, projects[..j], names)
    {
      var items := buckets[projects[j]];
      GroupsStep(buckets, projects, names, j, groups, items);
      if items != [] {
        groups := groups + [ProjectGroup(projects[j], ProjectName(names, projects[j]), items, ProjectTotals(items))];
      }
      j := j + 1;
    }
    assert projects[..j] == projects;
  }

  /** The flat loop of `buildReport`. */
  method FlatRows(es: seq<Entry>, suppliers: seq<Option<string>>, resources: seq<Id>, d: int, project: Option<Id>)
    returns (rows: seq<ItemRow>)
    ensures rows == Rows(es, suppliers, resources, d, project)
  {
    rows := [];
    var i := 0;
    while i < |resources|
      invariant 0 <= i <= |resources|
      invariant rows == Rows(es, suppliers, resources[..i], d, project)
    {
      assert resources[..i + 1][..i] == resources[..i];
      var item := ResourceReport(es, suppliers, resources[i], d, project);
      if item.Some? {
        rows := rows + [item.value];
      }
      i := i + 1;
    }
    assert resources[..i] == resources;
  }

  /** `buildReport`: grouped per project when several are selected,
      otherwise flat. */
  method BuildReport(es: seq<Entry>, suppliers: seq<Option<string>>, resources: seq<Id>, d: int, projects: seq<Id>, names: map<Id, string>)
    returns (report: Report)
    ensures report == ReportFor(es, suppliers, resources, d, projects, names)
  {
    if projects != [] && |projects| > 1 {
      var buckets := FillProjectBuckets(es, suppliers, resources, d, projects);
      var groups := FormatGroups(buckets, projects, names);
      report := Grouped(groups);
    } else {
      var rows := FlatRows(es, suppliers, resources, d, if projects != [] then Some(projects[0]) else None);
      report := Flat(rows);
    }
  }

  /** The page's state: the form fields and what the last generation
      produced. */
  class ReportPage {
    var reportDate: int
    var projects: seq<Id>
    var selectedDate: Option<int>
    var selectedProjects: Option<seq<Id>>
    var reportData: Option<Report>

    /** `mount`: today's date and no project; no report yet. */
    constructor (today: int)
      ensures reportDate == today && projects == []
      ensures selectedDate == None && selectedProjects == None && reportData == None
    {
      reportDate := today;
      projects := [];
      selectedDate := None;
      selectedProjects := None;
      reportData := None;
    }

    /** `generateReport`: the form's date (today when missing) and projects
      (none when missing) become the selection, and the report is built
      for them. */
    method GenerateReport(es: seq<Entry>, suppliers: seq<Option<string>>, resources: seq<Id>, names: map<Id, string>,
                          formDate: Option<int>, formProjects: Option<seq<Id>>, today: int)
      modifies this
      ensures reportDate == (if formDate.Some? then formDate.value else today)
      ensures projects == (if formProjects.Some? then formProjects.value else [])
      ensures selectedDate == Some(reportDate) && selectedProjects == Some(projects)
      ensures reportData == Some(ReportFor(es, suppliers, resources, reportDate, projects, names))
    {
      reportDate := if formDate.Some? then formDate.value else today;
      projects := if formProjects.Some? then formProjects.value else [];
      selectedDate := Some(reportDate);
      selectedProjects := Some(projects);
      var report := BuildReport(es, suppliers, resources, reportDate, projects, names);
      reportData := Some(report);
    }
  }
}
