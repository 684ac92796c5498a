/** The item-list normaliser: one pass over spreadsheet rows that sorts each
    row into skipped-empty, category header, skipped service or cleaned item,
    maps the free-text unit of measure to a canonical unit through an ordered
    table, and keeps run counters.

    The mapping and classification functions take the table as a parameter;
    the pass itself uses `UnitMapping`. */
module CsvCleanup {
  import opened Wrappers
  import opened Text

  /** An ordered list of (key, canonical unit) pairs. */
  type UnitTable = seq<(string, string)>

  /** The unit table, in its definition order (the substring fallback scans it
      in this order and the first hit wins), spelled out in the groups the
      table is laid out in. */
  const UnitMapping: UnitTable := Counts + Sheets + Masses + Bulk + Lengths

  const Counts: UnitTable := [
    ("nos.", "piece"), ("nos", "piece"), ("no.", "piece"), ("no", "piece"),
    ("pcs", "piece"), ("pcs.", "piece"), ("pkt", "piece"), ("pkt.", "piece")]
  const Sheets: UnitTable := [
    ("sheet", "sheet"), ("sheets", "sheet"), ("gallon", "gallon"), ("gal", "gallon"),
    ("pair", "pair"), ("roll", "roll"), ("ctn", "carton"), ("carton", "carton"), ("box", "box")]
  const Masses: UnitTable := [
    ("kg", "kg"), ("g", "g"), ("mg", "mg"), ("ton", "ton"),
    ("ltr", "liter"), ("liter", "liter"), ("liters", "liters"), ("ml", "ml"),
    ("piece", "piece"), ("pieces", "pieces"), ("unit", "unit"), ("dozen", "dozen")]
  const Bulk: UnitTable := [
    ("pallet", "pallet"), ("bag", "bag"), ("sack", "sack"), ("bundle", "bundle"),
    ("set", "set"), ("lot", "piece"), ("lm", "m"), ("mtrs", "m"), ("mtr", "m")]
  const Lengths: UnitTable := [
    ("m", "m"), ("cm", "cm"), ("mm", "mm"), ("ft", "ft"), ("inch", "inch"), ("in", "inch"),
    ("sqm", "sqm"), ("sqft", "sqft"), ("drum", "piece"), ("panel", "panel"), ("tile", "tile")]

  /** The default unit for an empty or unrecognised unit of measure. */
  const DefaultUnit: string := "piece"

  /** Each entry of `UnitMapping` lies in one of its groups. */
  lemma InGroups(i: int)
    requires 0 <= i < |UnitMapping|
    ensures i < 17 ==> UnitMapping[i] in Counts || UnitMapping[i] in Sheets
    ensures UnitMapping[i] in Counts || UnitMapping[i] in Sheets || UnitMapping[i] in Masses
      || UnitMapping[i] in Bulk || UnitMapping[i] in Lengths
  {
    var a, b, c, d := |Counts|, |Sheets|, |Masses|, |Bulk|;
    if i < a { assert UnitMapping[i] == Counts[i]; }
    else if i < a + b { assert UnitMapping[i] == Sheets[i - a]; }
    else if i < a + b + c { assert UnitMapping[i] == Masses[i - a - b]; }
    else if i < a + b + c + d { assert UnitMapping[i] == Bulk[i - a - b - c]; }
    else { assert UnitMapping[i] == Lengths[i - a - b - c - d]; }
  }

  /** One spreadsheet row as the reader yields it: a column may be absent. */
  datatype Row = Row(description: Option<string>, code: Option<string>,
                     uom: Option<string>, resourceType: Option<string>)

  /** A cleaned output record. */
  datatype CleanItem = CleanItem(name: string, sku: string, category: string,
                                 baseUnit: string, description: string)

  /** The run counters. */
  datatype Stats = Stats(totalRows: nat, validRows: nat, categoryHeaders: nat,
                         skippedService: nat, skippedEmpty: nat)

  /** The result of mapping one unit: the unit, and the lower-cased string to
      count as unmapped when nothing in the table matched. */
  datatype Mapping = Mapping(unit: string, unmapped: Option<string>)

  /** What one row turns into. */
  datatype Outcome =
    | SkippedEmpty
    | CategoryHeader(header: string)
    | SkippedService
    | Item(item: CleanItem, unmapped: Option<string>)

  /** A column's cell with a missing cell read as empty, stripped. */
  function Field(v: Option<string>): string {
    Strip(v.GetOr(""))
  }

  predicate IsKey(table: UnitTable, u: string) {
    exists i :: 0 <= i < |table| && table[i].0 == u
  }

  predicate IsValue(table: UnitTable, v: string) {
    exists i :: 0 <= i < |table| && table[i].1 == v
  }

  /** The tables the mapping works with: no empty unit, and the default among
      the units. */
  predicate WellFormed(table: UnitTable) {
    IsValue(table, DefaultUnit) && forall i :: 0 <= i < |table| ==> table[i].1 != ""
  }

  lemma UnitMappingWellFormed()
    ensures WellFormed(UnitMapping)
  {
    assert UnitMapping[0].1 == DefaultUnit;
    forall i | 0 <= i < |UnitMapping| ensures UnitMapping[i].1 != "" {
      InGroups(i);
    }
  }

  /** The dictionary lookup: the unit of the first entry whose key is `u`. */
  function ExactLookup(table: UnitTable, u: string): (r: Option<string>)
    ensures r.Some? <==> IsKey(table, u)
    ensures r.Some? ==> exists i :: 0 <= i < |table| && table[i] == (u, r.value)
                                  && forall j :: 0 <= j < i ==> table[j].0 != u
  {
    if table == [] then None
    else if table[0].0 == u then Some(table[0].1)
    else
      var r := ExactLookup(table[1..], u);
      assert forall i :: 0 < i < |table| ==> table[i] == table[1..][i - 1];
      if r.Some? then
        var i :| 0 <= i < |table[1..]| && table[1..][i] == (u, r.value)
          && forall j :: 0 <= j < i ==> table[1..][j].0 != u;
        assert forall j :: 0 <= j < i + 1 ==> table[j].0 != u;
        r
      else r
  }

  /** The index of the first entry whose key occurs in `u`, when there is one. */
  function FirstSubstringIndex(table: UnitTable, u: string): (r: Option<nat>)
    ensures r.Some? ==> r.value < |table| && Contains(u, table[r.value].0)
    ensures r.Some? ==> forall j :: 0 <= j < r.value ==> !Contains(u, table[j].0)
    ensures r.None? ==> forall j :: 0 <= j < |table| ==> !Contains(u, table[j].0)
  {
    if table == [] then None
    else if Contains(u, table[0].0) then Some(0)
    else
      match FirstSubstringIndex(table[1..], u)
      case None => None
      case Some(k) => Some(k + 1)
  }

  /** Maps an already lower-cased and stripped unit string. */
  function MapUnit(table: UnitTable, u: string): Mapping {
    if u == "" then Mapping(DefaultUnit, None)
    else match ExactLookup(table, u)
      case Some(v) => Mapping(v, None)
      case None =>
        match FirstSubstringIndex(table, u)
        case Some(k) => Mapping(table[k].1, None)
        case None => Mapping(DefaultUnit, Some(u))
  }

  /** The mapped unit is never empty and always one of the table's units;
      only a non-empty string that nothing matched is reported unmapped. */
  lemma MapUnitInTable(table: UnitTable, u: string)
    requires WellFormed(table)
    ensures MapUnit(table, u).unit != "" && IsValue(table, MapUnit(table, u).unit)
    ensures MapUnit(table, u).unmapped.Some? ==> MapUnit(table, u).unmapped.value == u && u != ""
  {
  }

  /** The four ways a unit is mapped, in the order they are tried. */
  lemma MapUnitCases(table: UnitTable, u: string)
    ensures u == "" ==> MapUnit(table, u) == Mapping(DefaultUnit, None)
    ensures u != "" && IsKey(table, u) ==>
      MapUnit(table, u).unmapped.None? &&
      (exists i :: 0 <= i < |table| && table[i] == (u, MapUnit(table, u).unit)
                   && forall j :: 0 <= j < i ==> table[j].0 != u)
    ensures u != "" && !IsKey(table, u) ==>
      forall k :: (0 <= k < |table| && Contains(u, table[k].0)
                   && forall j :: 0 <= j < k ==> !Contains(u, table[j].0)) ==>
                  MapUnit(table, u) == Mapping(table[k].1, None)
    ensures MapUnit(table, u).unmapped.Some? <==>
      u != "" && !IsKey(table, u) && forall j :: 0 <= j < |table| ==> !Contains(u, table[j].0)
  {
    if u != "" && !IsKey(table, u) {
      var r := FirstSubstringIndex(table, u);
      forall k | 0 <= k < |table| && Contains(u, table[k].0)
        && (forall j :: 0 <= j < k ==> !Contains(u, table[j].0))
        ensures MapUnit(table, u) == Mapping(table[k].1, None)
      {
        assert r.Some?;
        assert !(r.value < k) && !(k < r.value);
      }
    }
  }

  /** The mapping step as written: an exact lookup, then a scan of the table
      in order that stops at the first key occurring in the string, then the
      default. */
  method MapUom(table: UnitTable, uomLower: string) returns (mapped: string, unmapped: Option<string>)
    ensures Mapping(mapped, unmapped) == MapUnit(table, uomLower)
  {
    unmapped := None;
    if uomLower == "" {
      mapped := DefaultUnit;
    } else {
      var found := ExactLookup(table, uomLower);
      if found.Some? {
        mapped := found.value;
      } else {
        var matched := false;
        mapped := "";
        var i := 0;
        while i < |table|
          invariant 0 <= i <= |table| && !matched
          invariant forall j :: 0 <= j < i ==> !Contains(uomLower, table[j].0)
        {
          var (key, value) := table[i];
          if Contains(uomLower, key) {
            mapped := value;
            matched := true;
            assert FirstSubstringIndex(table, uomLower) == Some(i);
            break;
          }
          i := i + 1;
        }
        if !matched {
          unmapped := Some(uomLower);
          mapped := DefaultUnit;
        }
      }
    }
  }

  /** How a single row is classified; the rules are tried in this order. */
  function Classify(table: UnitTable, row: Row): Outcome {
    var description := Field(row.description);
    var code := Field(row.code);
    var uom := Field(row.uom);
    var resourceType := Field(row.resourceType);
    if description == "" then SkippedEmpty
    else if code == "" || resourceType == "" then CategoryHeader(description)
    else if Lower(resourceType) == "service" then SkippedService
    else
      var m := MapUnit(table, Strip(Lower(uom)));
      Item(CleanItem(description, code, "Others", m.unit, ""), m.unmapped)
  }

  function Count(s: Stats, o: Outcome): Stats {
    var s' := s.(totalRows := s.totalRows + 1);
    match o
    case SkippedEmpty => s'.(skippedEmpty := s.skippedEmpty + 1)
    case CategoryHeader(_) => s'.(categoryHeaders := s.categoryHeaders + 1)
    case SkippedService => s'.(skippedService := s.skippedService + 1)
    case Item(_, _) => s'.(validRows := s.validRows + 1)
  }

  function Tally(table: UnitTable, rows: seq<Row>): Stats {
    if rows == [] then Stats(0, 0, 0, 0, 0)
    else Count(Tally(table, rows[..|rows| - 1]), Classify(table, rows[|rows| - 1]))
  }

  function ItemsOf(o: Outcome): seq<CleanItem> {
    if o.Item? then [o.item] else []
  }

  function HeadersOf(o: Outcome): seq<string> {
    if o.CategoryHeader? then [o.header] else []
  }

  function CleanItems(table: UnitTable, rows: seq<Row>): seq<CleanItem> {
    if rows == [] then []
    else CleanItems(table, rows[..|rows| - 1]) + ItemsOf(Classify(table, rows[|rows| - 1]))
  }

  function CategoryRows(table: UnitTable, rows: seq<Row>): seq<string> {
    if rows == [] then []
    else CategoryRows(table, rows[..|rows| - 1]) + HeadersOf(Classify(table, rows[|rows| - 1]))
  }

  /** `counts[k] += 1` on a counter that starts every key at 0. */
  function Increment(m: map<string, nat>, k: string): map<string, nat> {
    m[k := if k in m then m[k] + 1 else 1]
  }

  function Bump(m: map<string, nat>, u: Option<string>): map<string, nat> {
    match u
    case None => m
    case Some(k) => Increment(m, k)
  }

  function UnmappedOf(o: Outcome): Option<string> {
    if o.Item? then o.unmapped else None
  }

  function UnmappedCounts(table: UnitTable, rows: seq<Row>): map<string, nat> {
    if rows == [] then map[]
    else Bump(UnmappedCounts(table, rows[..|rows| - 1]), UnmappedOf(Classify(table, rows[|rows| - 1])))
  }

  /** The whole pass: the row loop with its counters, output lists and
      unmapped-unit tally. */
  method Cleanup(rows: seq<Row>)
    returns (cleanRows: seq<CleanItem>, categoryRows: seq<string>, stats: Stats,
             unmapped: map<string, nat>)
    ensures cleanRows == CleanItems(UnitMapping, rows)
    ensures categoryRows == CategoryRows(UnitMapping, rows)
    ensures stats == Tally(UnitMapping, rows)
    ensures unmapped == UnmappedCounts(UnitMapping, rows)
  {
    var table := UnitMapping;
    cleanRows, categoryRows := [], [];
    stats := Stats(0, 0, 0, 0, 0);
    unmapped := map[];
    for idx := 0 to |rows|
      invariant cleanRows == CleanItems(table, rows[..idx])
      invariant categoryRows == CategoryRows(table, rows[..idx])
      invariant stats == Tally(table, rows[..idx])
      invariant unmapped == UnmappedCounts(table, rows[..idx])
    {
      PassStep(table, rows, idx);
      var row := rows[idx];
      var description := Field(row.description);
      var code := Field(row.code);
      var uom := Field(row.uom);
      var resourceType := Field(row.resourceType);
      ghost var outcome: Outcome;
      stats := stats.(totalRows := stats.totalRows + 1);
      if description == "" {
        stats := stats.(skippedEmpty := stats.skippedEmpty + 1);
        outcome := SkippedEmpty;
      } else if code == "" || resourceType == "" {
        categoryRows := categoryRows + [description];
        stats := stats.(categoryHeaders := stats.categoryHeaders + 1);
        outcome := CategoryHeader(description);
      } else if Lower(resourceType) == "service" {
        stats := stats.(skippedService := stats.skippedService + 1);
        outcome := SkippedService;
      } else {
        var uomLower := Strip(Lower(uom));
        var mappedUom, miss := MapUom(table, uomLower);
        if miss.Some? {
          unmapped := Increment(unmapped, miss.value);
        }
        cleanRows := cleanRows + [CleanItem(description, code, "Others", mappedUom, "")];
        stats := stats.(validRows := stats.validRows + 1);
        outcome := Item(CleanItem(description, code, "Others", mappedUom, ""), miss);
      }
      assert outcome == Classify(table, row);
    }
    assert rows[..|rows|] == rows;
  }

  /** One more row extends each result by that row's outcome. */
  lemma PassStep(table: UnitTable, rows: seq<Row>, idx: nat)
    requires idx < |rows|
    ensures CleanItems(table, rows[..idx + 1]) == CleanItems(table, rows[..idx]) + ItemsOf(Classify(table, rows[idx]))
    ensures CategoryRows(table, rows[..idx + 1]) == CategoryRows(table, rows[..idx]) + HeadersOf(Classify(table, rows[idx]))
    ensures Tally(table, rows[..idx + 1]) == Count(Tally(table, rows[..idx]), Classify(table, rows[idx]))
    ensures UnmappedCounts(table, rows[..idx + 1]) == Bump(UnmappedCounts(table, rows[..idx]), UnmappedOf(Classify(table, rows[idx])))
  {
    assert rows[..idx + 1][..idx] == rows[..idx];
  }

  /** Every row lands in exactly one counter. */
  lemma {:induction false} CountersAddUp(table: UnitTable, rows: seq<Row>)
    ensures Tally(table, rows).totalRows == |rows|
    ensures Tally(table, rows).totalRows == Tally(table, rows).validRows
      + Tally(table, rows).categoryHeaders + Tally(table, rows).skippedService
      + Tally(table, rows).skippedEmpty
    ensures Tally(table, rows).validRows == |CleanItems(table, rows)|
    ensures Tally(table, rows).categoryHeaders == |CategoryRows(table, rows)|
  {
    if rows != [] {
      CountersAddUp(table, rows[..|rows| - 1]);
    }
  }

  /** The classification rules, in their order of precedence: an empty
      description first, then a missing code or type (so a header is never
      counted as a service), then the service type. */
  lemma ClassifyRules(table: UnitTable, row: Row)
    ensures Classify(table, row) == SkippedEmpty <==> Field(row.description) == ""
    ensures Classify(table, row).CategoryHeader? <==>
      Field(row.description) != "" && (Field(row.code) == "" || Field(row.resourceType) == "")
    ensures Classify(table, row).CategoryHeader? ==>
      Classify(table, row).header == Field(row.description)
    ensures Classify(table, row) == SkippedService <==>
      Field(row.description) != "" && Field(row.code) != "" && Field(row.resourceType) != ""
      && Lower(Field(row.resourceType)) == "service"
  {
  }

  /** Every emitted record carries the trimmed name and code, the fixed
      category and empty description, and a non-empty unit from the table. */
  lemma ItemShape(table: UnitTable, row: Row)
    requires WellFormed(table) && Classify(table, row).Item?
    ensures Classify(table, row).item.name == Field(row.description) != ""
    ensures Classify(table, row).item.sku == Field(row.code) != ""
    ensures Classify(table, row).item.category == "Others"
    ensures Classify(table, row).item.description == ""
    ensures Classify(table, row).item.baseUnit != "" && IsValue(table, Classify(table, row).item.baseUnit)
    ensures Classify(table, row).item.baseUnit == MapUnit(table, Strip(Lower(Field(row.uom)))).unit
  {
    MapUnitInTable(table, Strip(Lower(Field(row.uom))));
  }

  /** Extending the input only appends to the output. */
  lemma {:induction false} CleanItemsGrow(table: UnitTable, prefix: seq<Row>, rows: seq<Row>)
    requires prefix <= rows
    ensures CleanItems(table, prefix) <= CleanItems(table, rows)
    decreases |rows|
  {
    if |prefix| < |rows| {
      var n := |rows| - 1;
      assert prefix <= rows[..n];
      CleanItemsGrow(table, prefix, rows[..n]);
      var before := CleanItems(table, rows[..n]);
      assert CleanItems(table, rows) == before + ItemsOf(Classify(table, rows[n]));
      assert CleanItems(table, prefix) <= before;
    } else {
      assert prefix == rows;
    }
  }

  /** The output records are exactly the item rows, in input order: the item
      of row `i` sits right after the items of the rows before it. */
  lemma CleanItemsInOrder(table: UnitTable, rows: seq<Row>, i: nat)
    requires i < |rows| && Classify(table, rows[i]).Item?
    ensures |CleanItems(table, rows[..i])| < |CleanItems(table, rows)|
    ensures CleanItems(table, rows)[|CleanItems(table, rows[..i])|] == Classify(table, rows[i]).item
  {
    CleanItemsGrow(table, rows[..i + 1], rows);
    assert rows[..i + 1][..i] == rows[..i];
  }

  /** Every output record comes from an item row. */
  lemma {:induction false} CleanItemsFromRows(table: UnitTable, rows: seq<Row>, k: nat)
    requires k < |CleanItems(table, rows)|
    ensures exists i :: 0 <= i < |rows| && Classify(table, rows[i]).Item?
                        && Classify(table, rows[i]).item == CleanItems(table, rows)[k]
  {
    var n := |rows| - 1;
    if k < |CleanItems(table, rows[..n])| {
      CleanItemsFromRows(table, rows[..n], k);
      var i :| 0 <= i < |rows[..n]| && Classify(table, rows[..n][i]).Item?
        && Classify(table, rows[..n][i]).item == CleanItems(table, rows[..n])[k];
      assert rows[..n][i] == rows[i];
    } else {
      assert Classify(table, rows[n]).Item?;
    }
  }

  /** A unit string is counted as unmapped exactly when some item row
      reported it. */
  /** The unmapped unit each row reports, row by row. */
  function Reports(table: UnitTable, rows: seq<Row>): (r: seq<Option<string>>)
    ensures |r| == |rows|
    ensures forall i :: 0 <= i < |rows| ==> r[i] == UnmappedOf(Classify(table, rows[i]))
  {
    seq(|rows|, i requires 0 <= i < |rows| => UnmappedOf(Classify(table, rows[i])))
  }

  /** Tallies a sequence of reports. */
  function BumpAll(us: seq<Option<string>>): map<string, nat> {
    if us == [] then map[] else Bump(BumpAll(us[..|us| - 1]), us[|us| - 1])
  }

  lemma {:induction false} BumpAllKeys(us: seq<Option<string>>, u: string)
    ensures u in BumpAll(us) <==> exists i :: 0 <= i < |us| && us[i] == Some(u)
  {
    if us != [] {
      var n := |us| - 1;
      BumpAllKeys(us[..n], u);
      if u in BumpAll(us) && us[n] != Some(u) {
        var i :| 0 <= i < n && us[..n][i] == Some(u);
        assert us[i] == Some(u);
      }
      if exists i :: 0 <= i < |us| && us[i] == Some(u) {
        var i :| 0 <= i < |us| && us[i] == Some(u);
        if i < n {
          assert us[..n][i] == Some(u);
        }
      }
    }
  }

  lemma {:induction false} UnmappedCountsAsBumpAll(table: UnitTable, rows: seq<Row>)
    ensures UnmappedCounts(table, rows) == BumpAll(Reports(table, rows))
  {
    if rows != [] {
      var n := |rows| - 1;
      UnmappedCountsAsBumpAll(table, rows[..n]);
      assert Reports(table, rows)[..n] == Reports(table, rows[..n]);
    }
  }

  /** The unmapped tally has a key exactly for the units some row reported. */
  lemma UnmappedKeys(table: UnitTable, rows: seq<Row>, u: string)
    ensures u in UnmappedCounts(table, rows) <==>
      exists i :: 0 <= i < |rows| && UnmappedOf(Classify(table, rows[i])) == Some(u)
  {
    UnmappedCountsAsBumpAll(table, rows);
    BumpAllKeys(Reports(table, rows), u);
  }

  /** A row reports its unit as unmapped only when neither the exact lookup
      nor the substring scan matched it. */
  lemma UnmappedRow(table: UnitTable, row: Row, u: string)
    requires UnmappedOf(Classify(table, row)) == Some(u)
    ensures u != "" && !IsKey(table, u)
    ensures forall j :: 0 <= j < |table| ==> !Contains(u, table[j].0)
  {
    MapUnitCases(table, Strip(Lower(Field(row.uom))));
  }

  /** So every key of the unmapped tally is a non-empty string that no table
      key equals or occurs in. */
  lemma UnmappedNeverMatched(table: UnitTable, rows: seq<Row>, u: string)
    requires u in UnmappedCounts(table, rows)
    ensures u != "" && !IsKey(table, u)
    ensures forall j :: 0 <= j < |table| ==> !Contains(u, table[j].0)
  {
    UnmappedKeys(table, rows, u);
    var i :| 0 <= i < |rows| && UnmappedOf(Classify(table, rows[i])) == Some(u);
    UnmappedRow(table, rows[i], u);
  }

  /** The sum of the counts of a tally. */
  ghost function SumCounts(m: map<string, nat>): nat
    decreases |m|
  {
    if m == map[] then 0
    else
      var k :| k in m;
      m[k] + SumCounts(m - {k})
  }

  lemma {:induction false} SumCountsRemove(m: map<string, nat>, k: string)
    requires k in m
    ensures SumCounts(m) == m[k] + SumCounts(m - {k})
    decreases |m|
  {
    var p :| p in m && SumCounts(m) == m[p] + SumCounts(m - {p});
    if p != k {
      assert m - {k} - {p} == m - {p} - {k};
      SumCountsRemove(m - {p}, k);
      SumCountsRemove(m - {k}, p);
    }
  }

  lemma BumpSum(m: map<string, nat>, u: Option<string>)
    ensures SumCounts(Bump(m, u)) == SumCounts(m) + (if u.Some? then 1 else 0)
  {
    if u.Some? {
      var k := u.value;
      var m' := Bump(m, u);
      SumCountsRemove(m', k);
      assert m' - {k} == m - {k};
      if k in m {
        SumCountsRemove(m, k);
      } else {
        assert m - {k} == m;
      }
    }
  }

  /** Each unmapped occurrence is an item row, so the counts add up to at most
      the number of valid rows. */
  lemma {:induction false} UnmappedBounded(table: UnitTable, rows: seq<Row>)
    ensures SumCounts(UnmappedCounts(table, rows)) <= Tally(table, rows).validRows
  {
    if rows != [] {
      var n := |rows| - 1;
      UnmappedBounded(table, rows[..n]);
      BumpSum(UnmappedCounts(table, rows[..n]), UnmappedOf(Classify(table, rows[n])));
    }
  }

  /** The first entry with key `u` decides an exact match. */
  lemma ExactAt(table: UnitTable, u: string, i: nat)
    requires u != "" && i < |table| && table[i].0 == u
    requires forall j :: 0 <= j < i ==> table[j].0 != u
    ensures MapUnit(table, u) == Mapping(table[i].1, None)
  {
    MapUnitCases(table, u);
    var k :| 0 <= k < |table| && table[k] == (u, MapUnit(table, u).unit)
      && forall j :: 0 <= j < k ==> table[j].0 != u;
    assert !(k < i) && !(i < k);
  }

  /** No key occurs twice in a table. */
  predicate DistinctKeys(t: UnitTable) {
    forall i, j :: 0 <= i < j < |t| ==> t[i].0 != t[j].0
  }

  /** No key of `a` is a key of `b`. */
  predicate Apart(a: UnitTable, b: UnitTable) {
    forall i, j :: 0 <= i < |a| && 0 <= j < |b| ==> a[i].0 != b[j].0
  }

  lemma DistinctAppend(a: UnitTable, b: UnitTable)
    requires DistinctKeys(a) && DistinctKeys(b) && Apart(a, b)
    ensures DistinctKeys(a + b)
  {
    forall i, j | 0 <= i < j < |a + b| ensures (a + b)[i].0 != (a + b)[j].0 {
      if j < |a| {
        assert (a + b)[i] == a[i] && (a + b)[j] == a[j];
      } else if i < |a| {
        assert (a + b)[i] == a[i] && (a + b)[j] == b[j - |a|];
      } else {
        assert (a + b)[i] == b[i - |a|] && (a + b)[j] == b[j - |a|];
      }
    }
  }

  lemma ApartAppend(a: UnitTable, b: UnitTable, c: UnitTable)
    requires Apart(a, c) && Apart(b, c)
    ensures Apart(a + b, c)
  {
    forall i, j | 0 <= i < |a + b| && 0 <= j < |c| ensures (a + b)[i].0 != c[j].0 {
      if i < |a| {
        assert (a + b)[i] == a[i];
      } else {
        assert (a + b)[i] == b[i - |a|];
      }
    }
  }

  /** The keys of each group are distinct from each other and from the keys
      of the groups after it. */
  lemma CountsDistinct()
    ensures DistinctKeys(Counts)
  {
  }

  lemma SheetsDistinct()
    ensures DistinctKeys(Sheets)
  {
  }

  lemma MassesDistinct()
    ensures DistinctKeys(Masses)
  {
  }

  lemma BulkDistinct()
    ensures DistinctKeys(Bulk)
  {
  }

  lemma LengthsDistinct()
    ensures DistinctKeys(Lengths)
  {
  }

  lemma CountsApartSheetsMasses()
    ensures Apart(Counts, Sheets) && Apart(Counts, Masses)
  {
  }

  lemma CountsApartBulkLengths()
    ensures Apart(Counts, Bulk) && Apart(Counts, Lengths)
  {
  }

  lemma SheetsApartMassesBulk()
    ensures Apart(Sheets, Masses) && Apart(Sheets, Bulk)
  {
  }

  lemma SheetsApartLengths()
    ensures Apart(Sheets, Lengths)
  {
  }

  lemma MassesApartBulkLengths()
    ensures Apart(Masses, Bulk) && Apart(Masses, Lengths)
  {
  }

  lemma BulkApartLengths()
    ensures Apart(Bulk, Lengths)
  {
  }

  /** The unit table has no repeated key. */
  lemma UnitMappingDistinct()
    ensures DistinctKeys(UnitMapping)
  {
    CountsDistinct();
    SheetsDistinct();
    MassesDistinct();
    BulkDistinct();
    LengthsDistinct();
    CountsApartSheetsMasses();
    CountsApartBulkLengths();
    SheetsApartMassesBulk();
    SheetsApartLengths();
    MassesApartBulkLengths();
    BulkApartLengths();
    DistinctAppend(Counts, Sheets);
    ApartAppend(Counts, Sheets, Masses);
    DistinctAppend(Counts + Sheets, Masses);
    ApartAppend(Counts, Sheets, Bulk);
    ApartAppend(Counts + Sheets, Masses, Bulk);
    DistinctAppend(Counts + Sheets + Masses, Bulk);
    ApartAppend(Counts, Sheets, Lengths);
    ApartAppend(Counts + Sheets, Masses, Lengths);
    ApartAppend(Counts + Sheets + Masses, Bulk, Lengths);
    DistinctAppend(Counts + Sheets + Masses + Bulk, Lengths);
  }

  /** Where each group sits in the unit table. */
  lemma GroupOffsets()
    ensures UnitMapping[..8] == Counts && UnitMapping[8..17] == Sheets && UnitMapping[17..29] == Masses
    ensures UnitMapping[29..38] == Bulk && UnitMapping[38..] == Lengths
  {
    assert UnitMapping == Counts + Sheets + Masses + Bulk + Lengths;
  }

  /** The entries the units of all groups map through. */
  lemma HomeEntries()
    ensures UnitMapping[25] == ("piece", "piece") && UnitMapping[38] == ("m", "m")
    ensures UnitMapping[42] == ("inch", "inch")
  {
    GroupOffsets();
    assert UnitMapping[17..29][8] == Masses[8];
    assert UnitMapping[38..][0] == Lengths[0] && UnitMapping[38..][4] == Lengths[4];
  }

  /** On a table without repeated keys, a unit with an entry of its own maps
      to itself by an exact match. */
  lemma SelfEntryMaps(table: UnitTable, v: string, j: nat)
    requires DistinctKeys(table) && v != "" && j < |table| && table[j] == (v, v)
    ensures MapUnit(table, v) == Mapping(v, None)
  {
    ExactAt(table, v, j);
  }

  lemma CountsUnitsMapToThemselves(k: nat)
    requires k < |Counts|
    ensures MapUnit(UnitMapping, Counts[k].1) == Mapping(Counts[k].1, None)
  {
    HomeEntries();
    UnitMappingDistinct();
    SelfEntryMaps(UnitMapping, Counts[k].1, 25);
  }

  lemma SheetsUnitsMapToThemselves(k: nat)
    requires k < |Sheets|
    ensures MapUnit(UnitMapping, Sheets[k].1) == Mapping(Sheets[k].1, None)
  {
    GroupOffsets();
    UnitMappingDistinct();
    var h := [0, 0, 2, 2, 4, 5, 7, 7, 8][k];
    assert UnitMapping[8..17][h] == Sheets[h] == (Sheets[k].1, Sheets[k].1);
    SelfEntryMaps(UnitMapping, Sheets[k].1, 8 + h);
  }

  lemma MassesUnitsMapToThemselves(k: nat)
    requires k < |Masses|
    ensures MapUnit(UnitMapping, Masses[k].1) == Mapping(Masses[k].1, None)
  {
    GroupOffsets();
    UnitMappingDistinct();
    var h := if k == 4 then 5 else k;
    assert UnitMapping[17..29][h] == Masses[h] == (Masses[k].1, Masses[k].1);
    SelfEntryMaps(UnitMapping, Masses[k].1, 17 + h);
  }

  lemma BulkUnitsMapToThemselves(k: nat)
    requires k < |Bulk|
    ensures MapUnit(UnitMapping, Bulk[k].1) == Mapping(Bulk[k].1, None)
  {
    GroupOffsets();
    HomeEntries();
    UnitMappingDistinct();
    var h := if k < 5 then 29 + k else if k == 5 then 25 else 38;
    if k < 5 {
      assert UnitMapping[29..38][k] == Bulk[k];
    }
    SelfEntryMaps(UnitMapping, Bulk[k].1, h);
  }

  lemma LengthsUnitsMapToThemselves(k: nat)
    requires k < |Lengths|
    ensures MapUnit(UnitMapping, Lengths[k].1) == Mapping(Lengths[k].1, None)
  {
    GroupOffsets();
    HomeEntries();
    UnitMappingDistinct();
    var h := if k == 5 then 42 else if k == 8 then 25 else 38 + k;
    if k != 5 && k != 8 {
      assert UnitMapping[38..][k] == Lengths[k];
    }
    SelfEntryMaps(UnitMapping, Lengths[k].1, h);
  }

  /** Every unit of the table maps to itself by an exact match. */
  lemma UnitsMapToThemselves(i: nat)
    requires i < |UnitMapping|
    ensures MapUnit(UnitMapping, UnitMapping[i].1) == Mapping(UnitMapping[i].1, None)
  {
    InGroups(i);
    var e := UnitMapping[i];
    if e in Counts {
      var k :| 0 <= k < |Counts| && Counts[k] == e;
      CountsUnitsMapToThemselves(k);
    } else if e in Sheets {
      var k :| 0 <= k < |Sheets| && Sheets[k] == e;
      SheetsUnitsMapToThemselves(k);
    } else if e in Masses {
      var k :| 0 <= k < |Masses| && Masses[k] == e;
      MassesUnitsMapToThemselves(k);
    } else if e in Bulk {
      var k :| 0 <= k < |Bulk| && Bulk[k] == e;
      BulkUnitsMapToThemselves(k);
    } else {
      var k :| 0 <= k < |Lengths| && Lengths[k] == e;
      LengthsUnitsMapToThemselves(k);
    }
  }

  /** Cleaning an already cleaned unit changes nothing: the mapped unit maps
      to itself and is not reported unmapped. */
  lemma MapUnitIdempotent(u: string)
    ensures var v := MapUnit(UnitMapping, u).unit; MapUnit(UnitMapping, v) == Mapping(v, None)
  {
    UnitMappingWellFormed();
    MapUnitInTable(UnitMapping, u);
    var i :| 0 <= i < |UnitMapping| && UnitMapping[i].1 == MapUnit(UnitMapping, u).unit;
    UnitsMapToThemselves(i);
  }

  lemma EmptyUnitExample()
    ensures MapUnit(UnitMapping, "") == Mapping("piece", None)
  {
  }

  lemma ExactKeyExample()
    ensures MapUnit(UnitMapping, "pcs.") == Mapping("piece", None)
  {
    assert UnitMapping[..8] == Counts;
    ExactAt(UnitMapping, "pcs.", 5);
  }

  /** An exact key wins even where an earlier key occurs in it:
      "liters" has the key "liter" before it but maps to "liters". */
  lemma ExactBeforeSubstringExample()
    ensures MapUnit(UnitMapping, "liters") == Mapping("liters", None)
    ensures Contains("liters", UnitMapping[22].0)
  {
    forall j | 0 <= j < 22 ensures UnitMapping[j].0 != "liters" {
      InGroups(j);
      if j >= 17 {
        assert UnitMapping[j] == Masses[j - 17];
      }
    }
    assert UnitMapping[22] == ("liter", "liter");
    assert UnitMapping[23] == ("liters", "liters");
    ExactAt(UnitMapping, "liters", 23);
    assert StartsWith("liters", "liter");
  }

  /** A key found by the substring scan: "kgs" is not a key, no key before
      "kg" occurs in it, and "kg" does. */
  lemma SubstringExample()
    ensures MapUnit(UnitMapping, "kgs") == Mapping("kg", None)
  {
    forall i | 0 <= i < |UnitMapping| ensures UnitMapping[i].0 != "kgs" {
      InGroups(i);
    }
    forall j | 0 <= j < 17 ensures !Contains("kgs", UnitMapping[j].0) {
      InGroups(j);
      if Contains("kgs", UnitMapping[j].0) {
        ContainsNecessary("kgs", UnitMapping[j].0);
      }
    }
    assert UnitMapping[17] == ("kg", "kg");
    assert StartsWith("kgs", "kg");
    MapUnitCases(UnitMapping, "kgs");
  }

  /** A unit nothing matches falls back to "piece" and is reported. */
  lemma UnmappedExample()
    ensures MapUnit(UnitMapping, "xyz") == Mapping("piece", Some("xyz"))
  {
    forall j | 0 <= j < |UnitMapping| ensures UnitMapping[j].0 != "xyz" && !Contains("xyz", UnitMapping[j].0) {
      InGroups(j);
      if Contains("xyz", UnitMapping[j].0) {
        ContainsNecessary("xyz", UnitMapping[j].0);
      }
    }
    MapUnitCases(UnitMapping, "xyz");
  }

  lemma SteelRodNameField()
    ensures Field(Some(" Steel Rod ")) == "Steel Rod"
  {
    assert LStrip(" Steel Rod ") == "Steel Rod ";
  }

  lemma SteelRodOtherFields()
    ensures Field(Some("SR-01")) == "SR-01"
    ensures Field(Some("Material")) == "Material"
    ensures Field(Some("Pcs.")) == "Pcs."
  {
  }

  lemma SteelRodUnit()
    ensures Strip(Lower("Pcs.")) == "pcs."
  {
    assert Lower("Pcs.") == "pcs.";
  }

  /** A row in the shape of the documented steel-rod example. */
  lemma SteelRodExample()
    ensures Classify(UnitMapping, Row(Some(" Steel Rod "), Some("SR-01"), Some("Pcs."), Some("Material")))
      == Item(CleanItem("Steel Rod", "SR-01", "Others", "piece", ""), None)
  {
    SteelRodNameField();
    SteelRodOtherFields();
    SteelRodUnit();
    assert Lower("Material") != "service";
    ExactKeyExample();
  }
}
