/** `StockCalculator`: balances, daily movements and valuations read off the
    ledger. Dates are day numbers; "on day d" is `date == d`. */
module StockCalculator {
  import opened Wrappers
  import opened Transactions
  import opened Decimal

  // ------------------------------------------------------------------
  // Filters

  function Before(resource: Id, loc: Location, d: int): Entry -> bool {
    (e: Entry) => e.resource == resource && e.location == loc && e.date < d
  }

  function UpTo(resource: Id, loc: Location, d: int): Entry -> bool {
    (e: Entry) => e.resource == resource && e.location == loc && e.date <= d
  }

  function OnDay(resource: Id, loc: Location, d: int): Entry -> bool {
    (e: Entry) => e.resource == resource && e.location == loc && e.date == d
  }

  function InOn(resource: Id, loc: Location, d: int): Entry -> bool {
    (e: Entry) => e.resource == resource && e.location == loc && e.date == d && e.quantity > 0.0
  }

  function OutOn(resource: Id, loc: Location, d: int): Entry -> bool {
    (e: Entry) => e.resource == resource && e.location == loc && e.date == d && e.quantity < 0.0
  }

  /** The entries a filter keeps, in ledger order. */
  function Select(es: seq<Entry>, keep: Entry -> bool): (r: seq<Entry>)
    ensures |r| <= |es|
    ensures forall i :: 0 <= i < |r| ==> keep(r[i])
    decreases |es|
  {
    if es == [] then []
    else Select(es[..|es| - 1], keep) + (if keep(es[|es| - 1]) then [es[|es| - 1]] else [])
  }

  /** The entries both filters keep. */
  function Both(k1: Entry -> bool, k2: Entry -> bool): Entry -> bool {
    (e: Entry) => k1(e) && k2(e)
  }

  /** How many entries a filter keeps (`$query->count()`). */
  function CountKept(es: seq<Entry>, keep: Entry -> bool): nat
    decreases |es|
  {
    if es == [] then 0 else CountKept(es[..|es| - 1], keep) + (if keep(es[|es| - 1]) then 1 else 0)
  }

  /** Selecting from a one-entry ledger keeps the entry exactly when the
      filter does. */
  lemma SelectOne(e: Entry, keep: Entry -> bool)
    ensures Select([e], keep) == if keep(e) then [e] else []
  {
    assert [e][..0] == [];
  }

  /** Selecting from a ledger written in two parts selects from the first
      part, then from the second: the selection keeps ledger order. */
  lemma {:induction false} SelectConcat(a: seq<Entry>, b: seq<Entry>, keep: Entry -> bool)
    ensures Select(a + b, keep) == Select(a, keep) + Select(b, keep)
    decreases |b|
  {
    if b == [] {
      assert a + b == a;
    } else {
      assert (a + b)[..|a + b| - 1] == a + b[..|b| - 1];
      SelectConcat(a, b[..|b| - 1], keep);
    }
  }

  /** An entry is selected exactly when it is in the ledger and the filter
      keeps it. */
  lemma {:induction false} SelectMembers(es: seq<Entry>, keep: Entry -> bool)
    ensures forall e :: e in Select(es, keep) <==> e in es && keep(e)
    decreases |es|
  {
    if es != [] {
      var init := es[..|es| - 1];
      SelectMembers(init, keep);
      assert es == init + [es[|es| - 1]];
    }
  }

  /** The selection holds as many entries as the filter keeps. */
  lemma {:induction false} SelectLength(es: seq<Entry>, keep: Entry -> bool)
    ensures |Select(es, keep)| == CountKept(es, keep)
    decreases |es|
  {
    if es != [] {
      SelectLength(es[..|es| - 1], keep);
    }
  }

  /** A sum over the selection is the sum over the ledger of the entries both
      filters keep. */
  lemma {:induction false} SelectSum(es: seq<Entry>, keep: Entry -> bool, k2: Entry -> bool, val: Entry -> real)
    ensures Sum(Select(es, keep), k2, val) == Sum(es, Both(keep, k2), val)
    decreases |es|
  {
    if es != [] {
      var init := es[..|es| - 1];
      var e := es[|es| - 1];
      SelectSum(init, keep, k2, val);
      var tail := if keep(e) then [e] else [];
      SumConcat(Select(init, keep), tail, k2, val);
      if keep(e) {
        SumOfOne(e, k2, val);
      } else {
        assert Select(init, keep) + tail == Select(init, keep);
      }
    }
  }

  /** Counting a filter's entries within the selection counts the entries
      both filters keep. */
  lemma {:induction false} SelectCount(es: seq<Entry>, keep: Entry -> bool, k2: Entry -> bool)
    ensures CountKept(Select(es, keep), k2) == CountKept(es, Both(keep, k2))
    decreases |es|
  {
    if es != [] {
      var init := es[..|es| - 1];
      var e := es[|es| - 1];
      SelectCount(init, keep, k2);
      var sel := Select(init, keep);
      if keep(e) {
        assert (sel + [e])[..|sel|] == sel;
      } else {
        assert sel + [] == sel;
      }
    }
  }

  // ------------------------------------------------------------------
  // Balances and movements of one resource at one location

  /** `getOpeningBalance`: the stock before day d. */
  function OpeningBalance(es: seq<Entry>, resource: Id, loc: Location, d: int): real {
    Sum(es, Before(resource, loc, d), Quantity)
  }

  /** `getClosingBalance`: the stock at the end of day d. */
  function ClosingBalance(es: seq<Entry>, resource: Id, loc: Location, d: int): real {
    Sum(es, UpTo(resource, loc, d), Quantity)
  }

  /** The value booked up to the end of day d. */
  function ClosingValue(es: seq<Entry>, resource: Id, loc: Location, d: int): real {
    Sum(es, UpTo(resource, loc, d), Value)
  }

  /** `getTotalIn`: the incoming quantity of day d. */
  function TotalIn(es: seq<Entry>, resource: Id, loc: Location, d: int): (r: real)
    ensures r >= 0.0
  {
    SumSign(es, InOn(resource, loc, d), Quantity);
    Sum(es, InOn(resource, loc, d), Quantity)
  }

  /** `getTotalOut`: the outgoing quantity of day d, as a positive number. */
  function TotalOut(es: seq<Entry>, resource: Id, loc: Location, d: int): (r: real)
    ensures r >= 0.0
    ensures r == -Sum(es, OutOn(resource, loc, d), Quantity)
  {
    SumSign(es, OutOn(resource, loc, d), Quantity);
    Abs(Sum(es, OutOn(resource, loc, d), Quantity))
  }

  /** Up to the end of a day is before it plus that day's ins and outs. */
  lemma {:induction false} DaySplit(es: seq<Entry>, resource: Id, loc: Location, d: int)
    ensures Sum(es, UpTo(resource, loc, d), Quantity) ==
      Sum(es, Before(resource, loc, d), Quantity) + Sum(es, InOn(resource, loc, d), Quantity)
      + Sum(es, OutOn(resource, loc, d), Quantity)
    decreases |es|
  {
    if es != [] {
      DaySplit(es[..|es| - 1], resource, loc, d);
    }
  }

  /** The opening balance of a day is the closing balance of the day before. */
  lemma OpeningIsPreviousClosing(es: seq<Entry>, resource: Id, loc: Location, d: int)
    ensures OpeningBalance(es, resource, loc, d) == ClosingBalance(es, resource, loc, d - 1)
  {
    SumExt(es, Before(resource, loc, d), UpTo(resource, loc, d - 1), Quantity);
  }

  /** `getDailyReport`'s figures and the day's entries in ledger order. */
  datatype DayReport = DayReport(date: int, resource: Id, loc: Location, opening: real, totalIn: real, totalOut: real, closing: real, entries: seq<Entry>)

  function DailyReport(es: seq<Entry>, resource: Id, loc: Location, d: int): (r: DayReport)
    ensures r.closing == r.opening + r.totalIn - r.totalOut
    ensures r.totalIn >= 0.0 && r.totalOut >= 0.0
  {
    var opening := OpeningBalance(es, resource, loc, d);
    var totalIn := TotalIn(es, resource, loc, d);
    var totalOut := TotalOut(es, resource, loc, d);
    DayReport(d, resource, loc, opening, totalIn, totalOut, opening + totalIn - totalOut, Select(es, OnDay(resource, loc, d)))
  }

  /** The report's closing figure, computed from opening and movements, is
      the closing balance queried directly. */
  lemma DailyReportCloses(es: seq<Entry>, resource: Id, loc: Location, d: int)
    ensures DailyReport(es, resource, loc, d).closing == ClosingBalance(es, resource, loc, d)
  {
    DaySplit(es, resource, loc, d);
  }

  // ------------------------------------------------------------------
  // Grouping by resource

  /** The resources of the entries a filter keeps, each once, in order of
      first appearance (`groupBy('resource_id')`). */
  function Resources(es: seq<Entry>, keep: Entry -> bool): (ids: seq<Id>)
    ensures forall i, j :: 0 <= i < j < |ids| ==> ids[i] != ids[j]
    ensures forall x :: (x in ids <==> exists i :: 0 <= i < |es| && keep(es[i]) && es[i].resource == x)
    decreases |es|
  {
    if es == [] then []
    else
      var init := Resources(es[..|es| - 1], keep);
      var last := es[|es| - 1];
      assert forall i :: 0 <= i < |es| - 1 ==> es[..|es| - 1][i] == es[i];
      if keep(last) && last.resource !in init then init + [last.resource] else init
  }

  /** A resource with non-zero stock somewhere has an entry there. */
  lemma StockHasEntry(es: seq<Entry>, keep: Entry -> bool, x: Id)
    requires Sum(es, keep, Quantity) != 0.0
    ensures exists i :: 0 <= i < |es| && keep(es[i])
  {
    if forall i :: 0 <= i < |es| ==> !keep(es[i]) {
      SumNoneKept(es, keep, Quantity);
    }
  }

  // ------------------------------------------------------------------
  // Valuation

  datatype ValuationItem = ValuationItem(resource: Id, quantity: real, value: real)

  datatype Valuation = Valuation(date: int, items: seq<ValuationItem>, totalValue: real, totalQuantity: real)

  /** The entries a valuation reads: up to day d, at the location, and of
      the one resource when one is given. */
  function ValuationScope(resource: Option<Id>, loc: Location, d: int): Entry -> bool {
    (e: Entry) => e.date <= d && e.location == loc && (resource.None? || e.resource == resource.value)
  }

  /** The items of the resources `ids` whose closing balance is positive. */
  function KeptItems(es: seq<Entry>, loc: Location, d: int, ids: seq<Id>): (items: seq<ValuationItem>)
    ensures forall k :: 0 <= k < |items| ==>
      items[k].resource in ids && items[k].quantity == ClosingBalance(es, items[k].resource, loc, d) > 0.0
      && items[k].value == ClosingValue(es, items[k].resource, loc, d)
    ensures forall x :: x in ids && ClosingBalance(es, x, loc, d) > 0.0 ==>
      exists k :: 0 <= k < |items| && items[k].resource == x
    decreases |ids|
  {
    if ids == [] then []
    else
      var x := ids[|ids| - 1];
      var init := KeptItems(es, loc, d, ids[..|ids| - 1]);
      assert forall y :: y in ids ==> y in ids[..|ids| - 1] || y == x;
      var q := ClosingBalance(es, x, loc, d);
      if q > 0.0 then
        var items := init + [ValuationItem(x, q, ClosingValue(es, x, loc, d))];
        assert forall k :: 0 <= k < |init| ==> items[k] == init[k];
        assert items[|init|].resource == x;
        items
      else init
  }

  function ItemsQuantity(items: seq<ValuationItem>): real
    decreases |items|
  {
    if items == [] then 0.0 else ItemsQuantity(items[..|items| - 1]) + items[|items| - 1].quantity
  }

  function ItemsValue(items: seq<ValuationItem>): real
    decreases |items|
  {
    if items == [] then 0.0 else ItemsValue(items[..|items| - 1]) + items[|items| - 1].value
  }

  /** `getInventoryValuation`: one item per resource whose summed quantity
      up to day d is positive, and the totals over those items. */
  function InventoryValuation(es: seq<Entry>, resource: Option<Id>, loc: Location, d: int): Valuation {
    var items := KeptItems(es, loc, d, Resources(es, ValuationScope(resource, loc, d)));
    Valuation(d, items, ItemsValue(items), ItemsQuantity(items))
  }

  /** A resource is valued exactly when it is in scope and its closing
      balance is positive, and then at its closing quantity and value. */
  lemma ValuationItems(es: seq<Entry>, resource: Option<Id>, loc: Location, d: int, x: Id)
    ensures var v := InventoryValuation(es, resource, loc, d);
      (exists k :: 0 <= k < |v.items| && v.items[k].resource == x) <==>
        (resource.None? || resource.value == x) && ClosingBalance(es, x, loc, d) > 0.0
    ensures var v := InventoryValuation(es, resource, loc, d);
      forall k :: 0 <= k < |v.items| ==>
        v.items[k].quantity == ClosingBalance(es, v.items[k].resource, loc, d) > 0.0
        && v.items[k].value == ClosingValue(es, v.items[k].resource, loc, d)
  {
    var scope := ValuationScope(resource, loc, d);
    var ids := Resources(es, scope);
    var items := InventoryValuation(es, resource, loc, d).items;
    if (resource.None? || resource.value == x) && ClosingBalance(es, x, loc, d) > 0.0 {
      StockHasEntry(es, UpTo(x, loc, d), x);
      var i :| 0 <= i < |es| && UpTo(x, loc, d)(es[i]);
      assert scope(es[i]) && es[i].resource == x;
    }
    if k :| 0 <= k < |items| && items[k].resource == x {
      assert x in ids;
      var i :| 0 <= i < |es| && scope(es[i]) && es[i].resource == x;
    }
  }

  /** The total quantity of positive items is positive exactly when some
      resource is valued. */
  lemma {:induction false} ItemsQuantityPositive(items: seq<ValuationItem>)
    requires forall k :: 0 <= k < |items| ==> items[k].quantity > 0.0
    ensures ItemsQuantity(items) > 0.0 <==> items != []
    ensures ItemsQuantity(items) >= 0.0
    decreases |items|
  {
    if items != [] {
      ItemsQuantityPositive(items[..|items| - 1]);
    }
  }

  lemma ValuationTotal(es: seq<Entry>, resource: Option<Id>, loc: Location, d: int)
    ensures var v := InventoryValuation(es, resource, loc, d);
      v.totalQuantity > 0.0 <==> v.items != []
  {
    ItemsQuantityPositive(InventoryValuation(es, resource, loc, d).items);
  }

  // ------------------------------------------------------------------
  // Project stocks

  datatype ResourceStock = ResourceStock(resource: Id, quantity: real)

  function AtLocation(loc: Location): Entry -> bool {
    (e: Entry) => e.location == loc
  }

  /** The stocks at `loc` of the resources `ids` that are positive there. */
  function PositiveStocks(es: seq<Entry>, loc: Location, ids: seq<Id>): (stocks: seq<ResourceStock>)
    requires forall i, j :: 0 <= i < j < |ids| ==> ids[i] != ids[j]
    ensures forall k :: 0 <= k < |stocks| ==>
      stocks[k].resource in ids && stocks[k].quantity == Stock(es, stocks[k].resource, loc) > 0.0
    ensures forall x :: x in ids && Stock(es, x, loc) > 0.0 ==>
      exists k :: 0 <= k < |stocks| && stocks[k].resource == x
    ensures forall k, l :: 0 <= k < l < |stocks| ==> stocks[k].resource != stocks[l].resource
    decreases |ids|
  {
    if ids == [] then []
    else
      var x := ids[|ids| - 1];
      var init := PositiveStocks(es, loc, ids[..|ids| - 1]);
      assert forall y :: y in ids ==> y in ids[..|ids| - 1] || y == x;
      assert x !in ids[..|ids| - 1];
      var q := Stock(es, x, loc);
      if q > 0.0 then
        var stocks := init + [ResourceStock(x, q)];
        assert forall k :: 0 <= k < |init| ==> stocks[k] == init[k];
        assert stocks[|init|].resource == x;
        stocks
      else init
  }

  /** `getProjectResourceStocks`: for each resource with entries at the
      project, in order of first appearance, its summed quantity there when
      that is positive. */
  method ProjectResourceStocks(es: seq<Entry>, project: Id) returns (stocks: seq<ResourceStock>)
    ensures forall k :: 0 <= k < |stocks| ==> stocks[k].quantity == Stock(es, stocks[k].resource, Project(project)) > 0.0
    ensures forall x: Id :: (exists k :: 0 <= k < |stocks| && stocks[k].resource == x) <==> Stock(es, x, Project(project)) > 0.0
    ensures forall k, l :: 0 <= k < l < |stocks| ==> stocks[k].resource != stocks[l].resource
  {
    var groups := Resources(es, AtLocation(Project(project)));
    stocks := [];
    var i := 0;
    while i < |groups|
      invariant 0 <= i <= |groups|
      invariant stocks == PositiveStocks(es, Project(project), groups[..i])
    {
      var x := groups[i];
      var quantity := Stock(es, x, Project(project));
      assert groups[..i + 1][..i] == groups[..i];
      if quantity > 0.0 {
        stocks := stocks + [ResourceStock(x, quantity)];
      }
      i := i + 1;
    }
    assert groups[..i] == groups;
    forall x: Id | Stock(es, x, Project(project)) > 0.0
      ensures x in groups
    {
      StockedIsGrouped(es, Project(project), x);
    }
  }

  /** A resource with non-zero stock at a location is among the resources
      grouped there. */
  lemma StockedIsGrouped(es: seq<Entry>, loc: Location, x: Id)
    requires Stock(es, x, loc) != 0.0
    ensures x in Resources(es, AtLocation(loc))
  {
    StockHasEntry(es, At(x, loc), x);
    var j :| 0 <= j < |es| && At(x, loc)(es[j]);
    assert AtLocation(loc)(es[j]) && es[j].resource == x;
  }
}
