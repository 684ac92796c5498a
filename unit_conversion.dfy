/** Unit conversion: the factor table shared by the resource pages and the
    goods-receipt form, the grouped table of the goods-receipt line item, and
    the unit options the forms offer for a base unit.

    A factor converts a quantity given in `from` into `to`: `q * f` units of
    `to`, and a price per `from` becomes `p / f` per `to`. The decimal
    constants are `real`, so they are exact here. */
module UnitConversion {
  import opened Wrappers
  import opened Text

  /** A PHP array literal keyed by unit name, in the order it is written. */
  type Table<V> = seq<(string, V)>

  /** The position of the first entry for `key` at or after `k`, if any. */
  function FindFrom<V>(t: Table<V>, key: string, k: nat): (r: Option<nat>)
    requires k <= |t|
    ensures r.Some? ==> k <= r.value < |t| && t[r.value].0 == key
    ensures r.Some? ==> forall j :: k <= j < r.value ==> t[j].0 != key
    ensures r.None? ==> forall j :: k <= j < |t| ==> t[j].0 != key
    decreases |t| - k
  {
    if k == |t| then None
    else if t[k].0 == key then Some(k)
    else FindFrom(t, key, k + 1)
  }

  /** PHP's `$t[$key] ?? null`. */
  function Lookup<V>(t: Table<V>, key: string): Option<V> {
    match FindFrom(t, key, 0)
    case None => None
    case Some(i) => Some(t[i].1)
  }

  /** A lookup yields the value of an entry with that key, and nothing when
      no entry has it. */
  lemma LookupSpec<V>(t: Table<V>, key: string)
    ensures Lookup(t, key).None? <==> forall j :: 0 <= j < |t| ==> t[j].0 != key
    ensures Lookup(t, key).Some? ==> exists i :: 0 <= i < |t| && t[i] == (key, Lookup(t, key).value)
  {
    if Lookup(t, key).Some? {
      var i := FindFrom(t, key, 0).value;
      assert t[i] == (key, Lookup(t, key).value);
    }
  }

  lemma {:induction false} FindFromConcat<V>(a: Table<V>, b: Table<V>, key: string, k: nat)
    requires k <= |a|
    ensures FindFrom(a + b, key, k) ==
      match FindFrom(a, key, k)
      case Some(i) => Some(i)
      case None => match FindFrom(b, key, 0) case None => None case Some(j) => Some(|a| + j)
    decreases |a| - k
  {
    if k < |a| {
      assert (a + b)[k] == a[k];
      FindFromConcat(a, b, key, k + 1);
    } else {
      FindFromShift(a, b, key, 0);
    }
  }

  lemma {:induction false} FindFromShift<V>(a: Table<V>, b: Table<V>, key: string, k: nat)
    requires k <= |b|
    ensures FindFrom(a + b, key, |a| + k) ==
      match FindFrom(b, key, k) case None => None case Some(j) => Some(|a| + j)
    decreases |b| - k
  {
    if k < |b| {
      assert (a + b)[|a| + k] == b[k];
      FindFromShift(a, b, key, k + 1);
    }
  }

  /** Looking up in a table written in two parts looks in the first part, then
      in the second. */
  lemma LookupConcat<V>(a: Table<V>, b: Table<V>, key: string)
    ensures Lookup(a + b, key) == if Lookup(a, key).Some? then Lookup(a, key) else Lookup(b, key)
  {
    FindFromConcat(a, b, key, 0);
    match FindFrom(b, key, 0)
    case None =>
    case Some(j) => assert (a + b)[|a| + j] == b[j];
  }

  /** A lookup finds the first entry whose key matches. */
  lemma LookupAt<V>(t: Table<V>, key: string, i: nat)
    requires i < |t| && t[i].0 == key
    requires forall j :: 0 <= j < i ==> t[j].0 != key
    ensures Lookup(t, key) == Some(t[i].1)
  {
  }

  predicate Positive(t: Table<real>) {
    forall i :: 0 <= i < |t| ==> t[i].1 > 0.0
  }

  lemma PositiveConcat(a: Table<real>, b: Table<real>)
    requires Positive(a) && Positive(b)
    ensures Positive(a + b)
  {
    forall i | 0 <= i < |a + b|
      ensures (a + b)[i].1 > 0.0
    {
      if i >= |a| {
        assert (a + b)[i] == b[i - |a|];
      }
    }
  }

  lemma LookupPositive(t: Table<real>, key: string)
    requires Positive(t)
    ensures Lookup(t, key).Some? ==> Lookup(t, key).value > 0.0
  {
  }

  /** The factor `$t[$unit] ?? 1.0`: a unit a table does not list counts as
      its reference unit. */
  function FactorIn(t: Table<real>, unit: string): real {
    Lookup(t, unit).GetOr(1.0)
  }

  lemma FactorInPositive(t: Table<real>, unit: string)
    requires Positive(t)
    ensures FactorIn(t, unit) > 0.0
  {
    LookupPositive(t, unit);
  }

  /** `$fromFactor / $toFactor`, or 1 for the same unit. */
  function Ratio(t: Table<real>, from: string, to: string): real
    requires Positive(t)
  {
    FactorInPositive(t, to);
    if from == to then 1.0 else FactorIn(t, from) / FactorIn(t, to)
  }

  /** Two factors that undo each other. */
  predicate Inverse(x: real, y: real) {
    x * y == 1.0
  }

  lemma {:induction false} QuotientInverse(x: real, y: real)
    requires x > 0.0 && y > 0.0
    ensures x / y > 0.0 && Inverse(x / y, y / x)
  {
    assert (x / y) * (y / x) == (x * y) / (y * x);
  }

  lemma RatioInverse(t: Table<real>, from: string, to: string)
    requires Positive(t)
    ensures Ratio(t, from, to) > 0.0
    ensures Inverse(Ratio(t, from, to), Ratio(t, to, from))
  {
    FactorInPositive(t, from);
    FactorInPositive(t, to);
    if from != to {
      QuotientInverse(FactorIn(t, from), FactorIn(t, to));
    }
  }

  lemma RatioOf(t: Table<real>, from: string, to: string, x: real, y: real)
    requires Positive(t) && from != to
    requires Lookup(t, from) == Some(x) && Lookup(t, to) == Some(y)
    ensures Ratio(t, from, to) == x / y
  {
  }

  // The factor table of the resource pages and of the receipt form, written
  // in the source's blocks: weight to kg, volume to liter, length to m, area
  // to sqm, and the count units to piece (those the source marks as per-resource
  // defaults, and the single items, each a block of their own here).

  const WeightFactors: Table<real> :=
    [("kg", 1.0), ("g", 0.001), ("mg", 0.000001), ("ton", 1000.0), ("lb", 0.453592), ("oz", 0.0283495)]
  const VolumeFactors: Table<real> :=
    [("liter", 1.0), ("liters", 1.0), ("ml", 0.001), ("gallon", 3.78541), ("m3", 1000.0)]
  const LengthFactors: Table<real> :=
    [("m", 1.0), ("cm", 0.01), ("mm", 0.001), ("km", 1000.0), ("ft", 0.3048), ("inch", 0.0254)]
  const AreaFactors: Table<real> :=
    [("sqm", 1.0), ("sqft", 0.092903), ("sqcm", 0.0001)]
  const CountFactors: Table<real> :=
    [("piece", 1.0), ("pieces", 1.0), ("unit", 1.0), ("dozen", 12.0)]
  const PackFactors: Table<real> :=
    [("box", 1.0), ("carton", 1.0), ("pallet", 1.0), ("bag", 1.0), ("sack", 1.0), ("bundle", 1.0), ("set", 1.0)]
  const ItemFactors: Table<real> :=
    [("pair", 2.0), ("roll", 1.0), ("sheet", 1.0), ("panel", 1.0), ("tile", 1.0)]

  const MeasureFactors: Table<real> := WeightFactors + VolumeFactors + LengthFactors + AreaFactors
  const CountingFactors: Table<real> := CountFactors + PackFactors + ItemFactors
  const FlatTable: Table<real> := MeasureFactors + CountingFactors

  lemma FlatTablePositive()
    ensures Positive(FlatTable)
  {
    PositiveConcat(WeightFactors, VolumeFactors);
    PositiveConcat(WeightFactors + VolumeFactors, LengthFactors);
    PositiveConcat(WeightFactors + VolumeFactors + LengthFactors, AreaFactors);
    PositiveConcat(CountFactors, PackFactors);
    PositiveConcat(CountFactors + PackFactors, ItemFactors);
    PositiveConcat(MeasureFactors, CountingFactors);
  }

  /** No unit is in two blocks. */
  lemma BlocksDisjoint(unit: string)
    ensures Lookup(WeightFactors, unit).Some? ==>
      Lookup(VolumeFactors, unit).None? && Lookup(LengthFactors, unit).None? && Lookup(AreaFactors, unit).None?
    ensures Lookup(VolumeFactors, unit).Some? ==> Lookup(LengthFactors, unit).None? && Lookup(AreaFactors, unit).None?
    ensures Lookup(LengthFactors, unit).Some? ==> Lookup(AreaFactors, unit).None?
  {
    WeightDisjoint(unit);
    VolumeDisjoint(unit);
  }

  lemma WeightDisjoint(unit: string)
    ensures Lookup(WeightFactors, unit).Some? ==>
      Lookup(VolumeFactors, unit).None? && Lookup(LengthFactors, unit).None? && Lookup(AreaFactors, unit).None?
  {
  }

  lemma VolumeDisjoint(unit: string)
    ensures Lookup(VolumeFactors, unit).Some? ==> Lookup(LengthFactors, unit).None? && Lookup(AreaFactors, unit).None?
    ensures Lookup(LengthFactors, unit).Some? ==> Lookup(AreaFactors, unit).None?
  {
  }

  /** The measures answer for a unit with the block that lists it. */
  lemma MeasureLookup(unit: string)
    ensures Lookup(MeasureFactors, unit) ==
      if Lookup(WeightFactors, unit).Some? then Lookup(WeightFactors, unit)
      else if Lookup(VolumeFactors, unit).Some? then Lookup(VolumeFactors, unit)
      else if Lookup(LengthFactors, unit).Some? then Lookup(LengthFactors, unit)
      else Lookup(AreaFactors, unit)
  {
    LookupConcat(WeightFactors, VolumeFactors, unit);
    LookupConcat(WeightFactors + VolumeFactors, LengthFactors, unit);
    LookupConcat(WeightFactors + VolumeFactors + LengthFactors, AreaFactors, unit);
  }

  lemma CountingLookup(unit: string)
    ensures Lookup(CountingFactors, unit) ==
      if Lookup(CountFactors, unit).Some? then Lookup(CountFactors, unit)
      else if Lookup(PackFactors, unit).Some? then Lookup(PackFactors, unit)
      else Lookup(ItemFactors, unit)
  {
    LookupConcat(CountFactors, PackFactors, unit);
    LookupConcat(CountFactors + PackFactors, ItemFactors, unit);
  }

  /** The flat table answers for a unit with the first block that lists it. */
  lemma FlatLookup(unit: string)
    ensures Lookup(FlatTable, unit) ==
      if Lookup(MeasureFactors, unit).Some? then Lookup(MeasureFactors, unit) else Lookup(CountingFactors, unit)
  {
    LookupConcat(MeasureFactors, CountingFactors, unit);
  }

  function FlatFactor(unit: string): Option<real> {
    Lookup(FlatTable, unit)
  }

  /** `getConversionFactor` of the resource pages and of the receipt form:
      units are compared lower-cased, and otherwise the factor is the ratio of
      the two table entries (1 for an unlisted unit), with no check that the
      two are of one family. */
  function PageFactor(from: string, to: string): real {
    FlatTablePositive();
    Ratio(FlatTable, Lower(from), Lower(to))
  }

  /** Converting there and back is the identity, for every pair of units. */
  lemma PageFactorInverse(from: string, to: string)
    ensures PageFactor(from, to) > 0.0
    ensures Inverse(PageFactor(from, to), PageFactor(to, from))
  {
    FlatTablePositive();
    RatioInverse(FlatTable, Lower(from), Lower(to));
  }

  lemma PageFactorPositive(from: string, to: string)
    ensures PageFactor(from, to) > 0.0
  {
    PageFactorInverse(from, to);
  }

  /** Units equal up to case convert with factor 1, and a unit missing from
      the table counts as the reference unit of every family. */
  lemma PageFactorCases(from: string, to: string)
    ensures Lower(from) == Lower(to) ==> PageFactor(from, to) == 1.0
    ensures Lower(from) != Lower(to) && FlatFactor(Lower(from)).None? && FlatFactor(Lower(to)).None? ==>
      PageFactor(from, to) == 1.0
    ensures Lower(from) != Lower(to) && FlatFactor(Lower(to)).None? ==>
      PageFactor(from, to) == FactorIn(FlatTable, Lower(from))
  {
  }

  lemma NotMeasure(unit: string)
    requires unit in {"dozen", "pair", "piece"}
    ensures Lookup(MeasureFactors, unit).None?
  {
    MeasureLookup(unit);
  }

  lemma FlatTon()
    ensures FlatFactor("ton") == Some(1000.0)
  {
    FlatLookup("ton");
    MeasureLookup("ton");
    LookupAt(WeightFactors, "ton", 3);
  }

  lemma FlatKg()
    ensures FlatFactor("kg") == Some(1.0)
  {
    FlatLookup("kg");
    MeasureLookup("kg");
    LookupAt(WeightFactors, "kg", 0);
  }

  lemma FlatLiter()
    ensures FlatFactor("liter") == Some(1.0)
  {
    FlatLookup("liter");
    MeasureLookup("liter");
    LookupAt(VolumeFactors, "liter", 0);
  }

  lemma FlatDozen()
    ensures FlatFactor("dozen") == Some(12.0)
  {
    NotMeasure("dozen");
    FlatLookup("dozen");
    CountingLookup("dozen");
    LookupAt(CountFactors, "dozen", 3);
  }

  lemma FlatPair()
    ensures FlatFactor("pair") == Some(2.0)
  {
    NotMeasure("pair");
    FlatLookup("pair");
    CountingLookup("pair");
    LookupAt(ItemFactors, "pair", 0);
  }

  lemma FlatPiece()
    ensures FlatFactor("piece") == Some(1.0)
  {
    NotMeasure("piece");
    FlatLookup("piece");
    CountingLookup("piece");
    LookupAt(CountFactors, "piece", 0);
  }

  /** The documented conversions: 2 t is 2000 kg, whatever the case of the
      unit names, and, with no family check, a ton converts to 1000 liters. */
  lemma TonExamples()
    ensures PageFactor("ton", "kg") == 1000.0 && 2.0 * PageFactor("ton", "kg") == 2000.0
    ensures PageFactor("Ton", "KG") == 1000.0
    ensures PageFactor("ton", "liter") == 1000.0
  {
    FlatTablePositive();
    FlatTon();
    FlatKg();
    FlatLiter();
    assert Lower("ton") == "ton" && Lower("kg") == "kg" && Lower("liter") == "liter";
    assert Lower("Ton") == "ton" && Lower("KG") == "kg";
    RatioOf(FlatTable, "ton", "kg", 1000.0, 1.0);
    RatioOf(FlatTable, "ton", "liter", 1000.0, 1.0);
  }

  /** 3 dozen are 36 pieces and a pair is 2 pieces. */
  lemma CountExamples()
    ensures PageFactor("dozen", "piece") == 12.0 && 3.0 * PageFactor("dozen", "piece") == 36.0
    ensures PageFactor("pair", "piece") == 2.0
  {
    FlatTablePositive();
    FlatDozen();
    FlatPair();
    FlatPiece();
    assert Lower("dozen") == "dozen" && Lower("pair") == "pair" && Lower("piece") == "piece";
    RatioOf(FlatTable, "dozen", "piece", 12.0, 1.0);
    RatioOf(FlatTable, "pair", "piece", 2.0, 1.0);
  }

  /** What the purchase action hands to the ledger: the quantity and the
      price in the base unit, and whether a conversion note is added. */
  datatype PurchaseInBase = PurchaseInBase(quantity: real, unitPrice: real, noted: bool)

  /** The purchase action's conversion, with the purchase unit defaulting to
      the base unit. */
  function ConvertPurchase(quantity: real, unitPrice: real, purchaseUnit: Option<string>,
                           baseUnit: string): PurchaseInBase
  {
    var f := PageFactor(purchaseUnit.GetOr(baseUnit), baseUnit);
    PageFactorInverse(purchaseUnit.GetOr(baseUnit), baseUnit);
    Scaled(quantity, unitPrice, f)
  }

  function Scaled(quantity: real, unitPrice: real, f: real): PurchaseInBase
    requires f > 0.0
  {
    PurchaseInBase(quantity * f, unitPrice / f, f != 1.0)
  }

  /** The purchase is worth in base units what it was worth as entered. */
  predicate KeepsValue(r: PurchaseInBase, quantity: real, unitPrice: real) {
    r.quantity * r.unitPrice == quantity * unitPrice
  }

  lemma {:induction false} ScaledKeepsValue(quantity: real, unitPrice: real, f: real)
    requires f > 0.0
    ensures KeepsValue(Scaled(quantity, unitPrice, f), quantity, unitPrice)
  {
    assert (quantity * f) * (unitPrice / f) == quantity * unitPrice * (f / f);
  }

  /** The conversion keeps the value of the purchase, scales the quantity by
      the factor, notes the conversion exactly when the factor is not 1, and
      is the identity when no purchase unit is given. */
  lemma ConvertPurchaseSpec(quantity: real, unitPrice: real, purchaseUnit: Option<string>, baseUnit: string)
    ensures KeepsValue(ConvertPurchase(quantity, unitPrice, purchaseUnit, baseUnit), quantity, unitPrice)
    ensures ConvertPurchase(quantity, unitPrice, purchaseUnit, baseUnit).quantity ==
      quantity * PageFactor(purchaseUnit.GetOr(baseUnit), baseUnit)
    ensures ConvertPurchase(quantity, unitPrice, purchaseUnit, baseUnit).noted <==>
      PageFactor(purchaseUnit.GetOr(baseUnit), baseUnit) != 1.0
    ensures purchaseUnit.None? ==>
      ConvertPurchase(quantity, unitPrice, purchaseUnit, baseUnit) == PurchaseInBase(quantity, unitPrice, false)
  {
    var f := PageFactor(purchaseUnit.GetOr(baseUnit), baseUnit);
    PageFactorInverse(purchaseUnit.GetOr(baseUnit), baseUnit);
    ScaledKeepsValue(quantity, unitPrice, f);
    PageFactorCases(baseUnit, baseUnit);
  }

  // The line item's grouped tables, in the order written there; units are
  // compared exactly as given.

  const LineWeight: Table<real> :=
    [("mg", 0.000001), ("g", 0.001), ("kg", 1.0), ("ton", 1000.0), ("oz", 0.0283495), ("lb", 0.453592)]
  const LineVolume: Table<real> :=
    [("ml", 0.001), ("liter", 1.0), ("liters", 1.0), ("gallon", 3.78541), ("m3", 1000.0)]
  const LineLength: Table<real> :=
    [("mm", 0.001), ("cm", 0.01), ("m", 1.0), ("km", 1000.0), ("ft", 0.3048), ("inch", 0.0254)]
  const LineArea: Table<real> :=
    [("sqcm", 0.0001), ("sqm", 1.0), ("sqft", 0.092903)]

  const LineGroups: seq<Table<real>> := [LineWeight, LineVolume, LineLength, LineArea]

  predicate AllPositive(gs: seq<Table<real>>) {
    forall k :: 0 <= k < |gs| ==> Positive(gs[k])
  }

  /** The first group at or after `k` listing both units, if any. */
  function CommonGroupFrom(gs: seq<Table<real>>, from: string, to: string, k: nat): (r: Option<nat>)
    requires k <= |gs|
    ensures r.Some? ==> k <= r.value < |gs| && Lookup(gs[r.value], from).Some? && Lookup(gs[r.value], to).Some?
    ensures r.None? ==> forall j :: k <= j < |gs| ==> Lookup(gs[j], from).None? || Lookup(gs[j], to).None?
    decreases |gs| - k
  {
    if k == |gs| then None
    else if Lookup(gs[k], from).Some? && Lookup(gs[k], to).Some? then Some(k)
    else CommonGroupFrom(gs, from, to, k + 1)
  }

  lemma {:induction false} CommonGroupSymmetric(gs: seq<Table<real>>, from: string, to: string, k: nat)
    requires k <= |gs|
    ensures CommonGroupFrom(gs, to, from, k) == CommonGroupFrom(gs, from, to, k)
    decreases |gs| - k
  {
    if k < |gs| {
      CommonGroupSymmetric(gs, from, to, k + 1);
    }
  }

  /** The grouped factor: 1 for identical strings, the ratio within the first
      group listing both units, and 1 otherwise. */
  function GroupedRatio(gs: seq<Table<real>>, from: string, to: string): real
    requires AllPositive(gs)
  {
    if from == to then 1.0
    else match CommonGroupFrom(gs, from, to, 0)
      case None => 1.0
      case Some(k) => Ratio(gs[k], from, to)
  }

  lemma GroupedRatioInverse(gs: seq<Table<real>>, from: string, to: string)
    requires AllPositive(gs)
    ensures GroupedRatio(gs, from, to) > 0.0
    ensures Inverse(GroupedRatio(gs, from, to), GroupedRatio(gs, to, from))
  {
    if from != to {
      CommonGroupSymmetric(gs, from, to, 0);
      match CommonGroupFrom(gs, from, to, 0)
      case None =>
      case Some(k) => RatioInverse(gs[k], from, to);
    }
  }

  lemma LineGroupsPositive()
    ensures AllPositive(LineGroups)
  {
  }

  /** `GoodsReceiptNoteLineItem::getConversionFactor`. */
  function LineFactor(from: string, to: string): real {
    LineGroupsPositive();
    GroupedRatio(LineGroups, from, to)
  }

  predicate SameGroup(from: string, to: string) {
    CommonGroupFrom(LineGroups, from, to, 0).Some?
  }

  /** Every factor of the line item is positive and inverts; across groups,
      or for a unit outside the groups, it is 1. */
  lemma LineFactorInverse(from: string, to: string)
    ensures LineFactor(from, to) > 0.0
    ensures Inverse(LineFactor(from, to), LineFactor(to, from))
    ensures !SameGroup(from, to) ==> LineFactor(from, to) == 1.0
  {
    LineGroupsPositive();
    GroupedRatioInverse(LineGroups, from, to);
  }

  /** Positivity alone, for proofs that multiply by a factor: the
      inverse's product is kept out of their arithmetic. */
  lemma GroupedRatioPositive(gs: seq<Table<real>>, from: string, to: string)
    requires AllPositive(gs)
    ensures GroupedRatio(gs, from, to) > 0.0
  {
    GroupedRatioInverse(gs, from, to);
  }

  lemma LineFactorPositive(from: string, to: string)
    ensures LineFactor(from, to) > 0.0
  {
    LineFactorInverse(from, to);
  }

  /** A quantity in `from` expressed in `to` with a grouped factor: it keeps
      the sign of the quantity. */
  function GroupedConvert(gs: seq<Table<real>>, quantity: real, from: string, to: string): (r: real)
    requires AllPositive(gs)
    ensures r > 0.0 <==> quantity > 0.0
    ensures r < 0.0 <==> quantity < 0.0
  {
    GroupedRatioPositive(gs, from, to);
    ProductSign(quantity * GroupedRatio(gs, from, to), quantity, GroupedRatio(gs, from, to));
    quantity * GroupedRatio(gs, from, to)
  }

  lemma ProductSign(x: real, q: real, f: real)
    requires f > 0.0 && x == q * f
    ensures x > 0.0 <==> q > 0.0
    ensures x < 0.0 <==> q < 0.0
  {
    if q > 0.0 {
      assert q * f > 0.0;
    } else if q < 0.0 {
      assert q * f < 0.0;
    } else {
      assert q * f == 0.0;
    }
  }

  /** The quantity converted with a grouped factor and the price divided by
      it: the value is kept. */
  function GroupedBooking(gs: seq<Table<real>>, quantity: real, price: real, from: string, to: string): (r: PurchaseInBase)
    requires AllPositive(gs)
    ensures r.quantity == GroupedConvert(gs, quantity, from, to)
    ensures KeepsValue(r, quantity, price)
  {
    GroupedRatioPositive(gs, from, to);
    ScaledKeepsValue(quantity, price, GroupedRatio(gs, from, to));
    Scaled(quantity, price, GroupedRatio(gs, from, to))
  }

  /** The line item's groups list the same units with the same factors as the
      pages' blocks, in another order. */
  lemma LineWeightAgrees(unit: string)
    ensures Lookup(LineWeight, unit) == Lookup(WeightFactors, unit)
  {
  }

  lemma LineVolumeAgrees(unit: string)
    ensures Lookup(LineVolume, unit) == Lookup(VolumeFactors, unit)
  {
  }

  lemma LineLengthAgrees(unit: string)
    ensures Lookup(LineLength, unit) == Lookup(LengthFactors, unit)
  {
  }

  lemma LineAreaAgrees(unit: string)
    ensures Lookup(LineArea, unit) == Lookup(AreaFactors, unit)
  {
  }

  /** The groups list lower-case units only. */
  lemma LineGroupsLowerCase(k: nat, unit: string)
    requires k < |LineGroups|
    ensures Lookup(LineGroups[k], unit).Some? ==> IsLowerText(unit)
  {
  }

  /** So a unit of a group has the same factor in the flat table. */
  lemma GroupInFlat(k: nat, unit: string)
    requires k < |LineGroups| && Lookup(LineGroups[k], unit).Some?
    ensures FlatFactor(unit) == Lookup(LineGroups[k], unit)
    ensures Lower(unit) == unit
  {
    LineWeightAgrees(unit);
    LineVolumeAgrees(unit);
    LineLengthAgrees(unit);
    LineAreaAgrees(unit);
    BlocksDisjoint(unit);
    FlatLookup(unit);
    MeasureLookup(unit);
    LineGroupsLowerCase(k, unit);
    LowerFixed(unit);
  }

  /** Where both units are in one group, the line item and the pages agree. */
  lemma LineFactorAgreesInGroup(from: string, to: string)
    requires SameGroup(from, to)
    ensures LineFactor(from, to) == PageFactor(from, to)
  {
    var k := CommonGroupFrom(LineGroups, from, to, 0).value;
    GroupInFlat(k, from);
    GroupInFlat(k, to);
    FlatTablePositive();
    LineGroupsPositive();
  }

  /** Elsewhere they differ: the line item knows no count units, so 3 dozen
      received book as 3 pieces, while the pages convert dozens and pairs. */
  lemma LineFactorIgnoresCounts()
    ensures LineFactor("dozen", "piece") == 1.0 && PageFactor("dozen", "piece") == 12.0
    ensures LineFactor("pair", "piece") == 1.0 && PageFactor("pair", "piece") == 2.0
  {
    CountExamples();
    NotGrouped("dozen");
    NotGrouped("pair");
    LineFactorInverse("dozen", "piece");
    LineFactorInverse("pair", "piece");
  }

  /** A unit no group lists shares a group with nothing. */
  lemma NotGroupedSpec(unit: string, other: string)
    requires forall k :: 0 <= k < |LineGroups| ==> Lookup(LineGroups[k], unit).None?
    ensures !SameGroup(unit, other)
  {
  }

  lemma NotGrouped(unit: string)
    requires unit == "dozen" || unit == "pair" || unit == "KG"
    ensures forall other :: !SameGroup(unit, other)
  {
    assert Lookup(LineWeight, unit).None? && Lookup(LineVolume, unit).None?;
    assert Lookup(LineLength, unit).None? && Lookup(LineArea, unit).None?;
    forall other
      ensures !SameGroup(unit, other)
    {
      NotGroupedSpec(unit, other);
    }
  }

  /** The line item also compares case-sensitively: "KG" is in none of its
      groups, while the pages read it as "kg". */
  lemma LineFactorCaseSensitive()
    ensures LineFactor("KG", "g") == 1.0
    ensures Lower("KG") == Lower("kg")
  {
    NotGrouped("KG");
    LineFactorInverse("KG", "g");
  }

  // The grouped factor as evidently intended: the pages' count units as a
  // fifth group, so dozens and pairs convert to pieces as the pages and the
  // unit labels ("Dozen (12 pieces)") say.

  const LineCount: Table<real> :=
    [("piece", 1.0), ("pieces", 1.0), ("unit", 1.0), ("dozen", 12.0), ("pair", 2.0)]

  const CorrectedLineGroups: seq<Table<real>> := LineGroups + [LineCount]

  lemma CorrectedLineGroupsPositive()
    ensures AllPositive(CorrectedLineGroups)
  {
    assert CorrectedLineGroups[4] == LineCount;
  }

  function CorrectedLineFactor(from: string, to: string): real {
    CorrectedLineGroupsPositive();
    GroupedRatio(CorrectedLineGroups, from, to)
  }

  /** The corrected factor is positive and inverts, like the original. */
  lemma CorrectedLineFactorInverse(from: string, to: string)
    ensures CorrectedLineFactor(from, to) > 0.0
    ensures Inverse(CorrectedLineFactor(from, to), CorrectedLineFactor(to, from))
  {
    CorrectedLineGroupsPositive();
    GroupedRatioInverse(CorrectedLineGroups, from, to);
  }

  /** A group found among the first groups is found first in a longer list. */
  lemma {:induction false} CommonGroupPrefix(a: seq<Table<real>>, b: seq<Table<real>>, from: string, to: string, k: nat)
    requires k <= |a| && CommonGroupFrom(a, from, to, k).Some?
    ensures CommonGroupFrom(a + b, from, to, k) == CommonGroupFrom(a, from, to, k)
    decreases |a| - k
  {
    assert (a + b)[k] == a[k];
    if !(Lookup(a[k], from).Some? && Lookup(a[k], to).Some?) {
      CommonGroupPrefix(a, b, from, to, k + 1);
    }
  }

  /** Within the measure groups nothing changes. */
  lemma CorrectedKeepsMeasures(from: string, to: string)
    requires SameGroup(from, to)
    ensures CorrectedLineFactor(from, to) == LineFactor(from, to)
  {
    CommonGroupPrefix(LineGroups, [LineCount], from, to, 0);
    var k := CommonGroupFrom(LineGroups, from, to, 0).value;
    assert CorrectedLineGroups[k] == LineGroups[k];
    CorrectedLineGroupsPositive();
    LineGroupsPositive();
  }

  /** Counts now convert: a dozen is 12 pieces and a pair 2, as on the
      pages. */
  lemma CorrectedCounts()
    ensures CorrectedLineFactor("dozen", "piece") == 12.0 && PageFactor("dozen", "piece") == 12.0
    ensures CorrectedLineFactor("pair", "piece") == 2.0 && PageFactor("pair", "piece") == 2.0
  {
    CountExamples();
    CountGroupFound("dozen");
    CountGroupFound("pair");
  }

  lemma CountGroupFound(unit: string)
    requires unit == "dozen" || unit == "pair"
    ensures CommonGroupFrom(CorrectedLineGroups, unit, "piece", 0) == Some(4)
  {
    NotGrouped(unit);
    assert !SameGroup(unit, "piece");
    assert CommonGroupFrom(LineGroups, unit, "piece", 0).None?;
    CommonGroupNone(LineGroups, [LineCount], unit, "piece", 0);
    assert Lookup(LineCount, unit).Some? && Lookup(LineCount, "piece").Some?;
  }

  /** Groups that miss the pair hand the search on to the groups after them. */
  lemma {:induction false} CommonGroupNone(a: seq<Table<real>>, b: seq<Table<real>>, from: string, to: string, k: nat)
    requires k <= |a| && CommonGroupFrom(a, from, to, k).None?
    ensures CommonGroupFrom(a + b, from, to, k) == CommonGroupFrom(a + b, from, to, |a|)
    decreases |a| - k
  {
    if k < |a| {
      assert (a + b)[k] == a[k];
      CommonGroupNone(a, b, from, to, k + 1);
    }
  }

  // The unit options the forms offer, by lower-cased base unit. The resource
  // pages (`ResourceResource` and `ViewResource` list the same keys) and the
  // bulk goods-receipt page each write their own map; the labels are left out.

  type Options = Table<seq<string>>

  const PageWeightOptions: Options := [
    ("kg", ["kg", "g", "mg", "ton", "lb", "oz"]), ("g", ["g", "kg", "mg", "ton", "lb", "oz"]),
    ("ton", ["ton", "kg", "g", "lb"]), ("lb", ["lb", "kg", "oz", "ton"])]
  const PageVolumeOptions: Options := [
    ("liter", ["liter", "ml", "gallon", "m3"]), ("liters", ["liters", "ml", "gallon", "m3"]),
    ("ml", ["ml", "liter", "liters", "gallon"]), ("m3", ["m3", "liter", "liters", "gallon"]),
    ("gallon", ["gallon", "liter", "liters", "ml"])]
  const PageLengthOptions: Options := [
    ("m", ["m", "cm", "mm", "km", "ft", "inch"]), ("cm", ["cm", "m", "mm", "ft", "inch"]),
    ("mm", ["mm", "m", "cm", "inch"]), ("ft", ["ft", "m", "cm", "inch"]), ("inch", ["inch", "m", "cm", "ft"])]
  const PageAreaOptions: Options := [
    ("sqm", ["sqm", "sqft", "sqcm"]), ("sqft", ["sqft", "sqm"]), ("sqcm", ["sqcm", "sqm"])]
  const PageCountOptions: Options := [
    ("piece", ["piece", "dozen", "box", "carton", "pallet", "bundle", "set", "pair"]),
    ("pieces", ["pieces", "dozen", "box", "carton", "pallet", "bundle", "set", "pair"]),
    ("unit", ["unit", "dozen", "box", "carton"]), ("dozen", ["dozen", "piece", "pieces"]),
    ("box", ["box", "carton", "pallet"]), ("carton", ["carton", "box", "pallet"]),
    ("pallet", ["pallet", "box", "carton"])]
  const PageConstructionOptions: Options := [
    ("bag", ["bag", "ton", "kg"]), ("sack", ["sack", "ton", "kg"])]
  const PageOtherOptions: Options := [
    ("roll", ["roll", "dozen"]), ("sheet", ["sheet", "dozen", "bundle"]), ("panel", ["panel", "dozen", "bundle"]),
    ("tile", ["tile", "box", "carton", "sqm"]), ("bundle", ["bundle", "piece", "pieces"]),
    ("set", ["set", "piece", "pieces"]), ("pair", ["pair", "piece", "pieces"])]

  const PageOptionMap: Options := PageWeightOptions + PageVolumeOptions + PageLengthOptions + PageAreaOptions
    + PageCountOptions + PageConstructionOptions + PageOtherOptions

  const ReceiptWeightOptions: Options := [
    ("kg", ["kg", "g", "mg", "ton", "lb", "oz"]), ("g", ["g", "kg", "mg", "ton", "lb", "oz"]),
    ("mg", ["mg", "g", "kg", "lb", "oz"]), ("ton", ["ton", "kg", "g", "lb"]),
    ("lb", ["lb", "kg", "g", "oz"]), ("oz", ["oz", "lb", "g", "kg"])]
  const ReceiptVolumeOptions: Options := [
    ("liter", ["liter", "liters", "ml", "gallon", "m3"]), ("liters", ["liters", "ml", "gallon", "m3"]),
    ("ml", ["ml", "liter", "liters", "gallon"]), ("m3", ["m3", "liter", "liters", "gallon"]),
    ("gallon", ["gallon", "liter", "liters", "ml"])]
  const ReceiptLengthOptions: Options := [
    ("m", ["m", "cm", "mm", "km", "ft", "inch"]), ("cm", ["cm", "m", "mm", "ft", "inch"]),
    ("mm", ["mm", "m", "cm", "inch"]), ("ft", ["ft", "m", "cm", "inch"]),
    ("inch", ["inch", "ft", "m", "cm"]), ("km", ["km", "m", "cm", "ft"])]
  const ReceiptAreaOptions: Options := [
    ("sqm", ["sqm", "sqft", "sqcm"]), ("sqft", ["sqft", "sqm", "sqcm"]), ("sqcm", ["sqcm", "sqm", "sqft"])]
  const ReceiptCountOptions: Options := [
    ("piece", ["piece", "pieces", "unit", "dozen", "box", "carton"]),
    ("pieces", ["pieces", "piece", "unit", "dozen", "box", "carton"]),
    ("unit", ["unit", "piece", "pieces", "dozen", "box"]), ("dozen", ["dozen", "unit", "piece", "pieces"]),
    ("box", ["box", "piece", "pieces", "carton", "pallet"]), ("carton", ["carton", "box", "piece", "pallet"]),
    ("pallet", ["pallet", "carton", "box"]), ("bag", ["bag", "piece", "sack"]), ("sack", ["sack", "bag", "piece"])]
  const ReceiptOtherOptions: Options := [
    ("bundle", ["bundle", "piece", "set"]), ("set", ["set", "bundle", "piece"]), ("pair", ["pair", "piece"]),
    ("roll", ["roll", "piece", "sheet"]), ("sheet", ["sheet", "roll", "piece"]),
    ("panel", ["panel", "piece", "sheet"]), ("tile", ["tile", "piece", "box"])]

  const ReceiptOptionMap: Options := ReceiptWeightOptions + ReceiptVolumeOptions + ReceiptLengthOptions
    + ReceiptAreaOptions + ReceiptCountOptions + ReceiptOtherOptions

  /** `getUnitConversionOptions`: the list of the lower-cased base unit, or the
      base unit alone (labelled "<base> - Base Unit") when none is listed. */
  function OptionsFor(optionMap: Options, baseUnit: string): seq<string> {
    Lookup(optionMap, Lower(baseUnit)).GetOr([baseUnit])
  }

  function PageOptions(baseUnit: string): seq<string> {
    OptionsFor(PageOptionMap, baseUnit)
  }

  function ReceiptOptions(baseUnit: string): seq<string> {
    OptionsFor(ReceiptOptionMap, baseUnit)
  }

  /** The units of the factor table, block by block. */
  const MeasureUnits: set<string> := {
    "kg", "g", "mg", "ton", "lb", "oz", "liter", "liters", "ml", "gallon", "m3",
    "m", "cm", "mm", "km", "ft", "inch", "sqm", "sqft", "sqcm"}
  const CountingUnits: set<string> := {
    "piece", "pieces", "unit", "dozen", "box", "carton", "pallet", "bag", "sack", "bundle", "set",
    "pair", "roll", "sheet", "panel", "tile"}

  predicate InFactorTable(unit: string) {
    unit in MeasureUnits || unit in CountingUnits
  }

  lemma MeasureUnitsListed(unit: string)
    requires unit in MeasureUnits
    ensures Lookup(MeasureFactors, unit).Some?
  {
    MeasureLookup(unit);
  }

  lemma CountingUnitsListed(unit: string)
    requires unit in CountingUnits
    ensures Lookup(CountingFactors, unit).Some?
  {
    CountingLookup(unit);
  }

  /** Every unit of the two sets has a factor. */
  lemma InFactorTableHasFactor(unit: string)
    requires InFactorTable(unit)
    ensures FlatFactor(unit).Some?
  {
    FlatLookup(unit);
    if unit in MeasureUnits {
      MeasureUnitsListed(unit);
    } else {
      CountingUnitsListed(unit);
    }
  }

  /** Each list starts with its own key, and offers only units with a factor. */
  predicate WellFormedOptions(options: Options) {
    forall i :: 0 <= i < |options| ==>
      |options[i].1| > 0 && options[i].1[0] == options[i].0
      && forall j :: 0 <= j < |options[i].1| ==> InFactorTable(options[i].1[j])
  }

  lemma WellFormedConcat(a: Options, b: Options)
    requires WellFormedOptions(a) && WellFormedOptions(b)
    ensures WellFormedOptions(a + b)
  {
    forall i | 0 <= i < |a + b|
      ensures (a + b)[i] == if i < |a| then a[i] else b[i - |a|]
    {
    }
  }

  lemma PageWeightWellFormed() ensures WellFormedOptions(PageWeightOptions) {}
  lemma PageVolumeWellFormed() ensures WellFormedOptions(PageVolumeOptions) {}
  lemma PageLengthWellFormed() ensures WellFormedOptions(PageLengthOptions) {}
  lemma PageAreaWellFormed() ensures WellFormedOptions(PageAreaOptions) {}
  lemma PageCountWellFormed() ensures WellFormedOptions(PageCountOptions) {}
  lemma PageConstructionWellFormed() ensures WellFormedOptions(PageConstructionOptions) {}
  lemma PageOtherWellFormed() ensures WellFormedOptions(PageOtherOptions) {}

  lemma ReceiptWeightWellFormed() ensures WellFormedOptions(ReceiptWeightOptions) {}
  lemma ReceiptVolumeWellFormed() ensures WellFormedOptions(ReceiptVolumeOptions) {}
  lemma ReceiptLengthWellFormed() ensures WellFormedOptions(ReceiptLengthOptions) {}
  lemma ReceiptAreaWellFormed() ensures WellFormedOptions(ReceiptAreaOptions) {}
  lemma ReceiptCountWellFormed() ensures WellFormedOptions(ReceiptCountOptions) {}
  lemma ReceiptOtherWellFormed() ensures WellFormedOptions(ReceiptOtherOptions) {}

  /** Both maps list their own key first and offer only units with a factor. */
  lemma OptionMapsWellFormed()
    ensures WellFormedOptions(PageOptionMap)
    ensures WellFormedOptions(ReceiptOptionMap)
  {
    PageWeightWellFormed();
    PageVolumeWellFormed();
    PageLengthWellFormed();
    PageAreaWellFormed();
    PageCountWellFormed();
    PageConstructionWellFormed();
    PageOtherWellFormed();
    WellFormedConcat(PageWeightOptions, PageVolumeOptions);
    WellFormedConcat(PageWeightOptions + PageVolumeOptions, PageLengthOptions);
    WellFormedConcat(PageWeightOptions + PageVolumeOptions + PageLengthOptions, PageAreaOptions);
    WellFormedConcat(PageWeightOptions + PageVolumeOptions + PageLengthOptions + PageAreaOptions, PageCountOptions);
    WellFormedConcat(PageWeightOptions + PageVolumeOptions + PageLengthOptions + PageAreaOptions + PageCountOptions,
      PageConstructionOptions);
    WellFormedConcat(PageWeightOptions + PageVolumeOptions + PageLengthOptions + PageAreaOptions + PageCountOptions
      + PageConstructionOptions, PageOtherOptions);
    ReceiptWeightWellFormed();
    ReceiptVolumeWellFormed();
    ReceiptLengthWellFormed();
    ReceiptAreaWellFormed();
    ReceiptCountWellFormed();
    ReceiptOtherWellFormed();
    WellFormedConcat(ReceiptWeightOptions, ReceiptVolumeOptions);
    WellFormedConcat(ReceiptWeightOptions + ReceiptVolumeOptions, ReceiptLengthOptions);
    WellFormedConcat(ReceiptWeightOptions + ReceiptVolumeOptions + ReceiptLengthOptions, ReceiptAreaOptions);
    WellFormedConcat(ReceiptWeightOptions + ReceiptVolumeOptions + ReceiptLengthOptions + ReceiptAreaOptions,
      ReceiptCountOptions);
    WellFormedConcat(ReceiptWeightOptions + ReceiptVolumeOptions + ReceiptLengthOptions + ReceiptAreaOptions
      + ReceiptCountOptions, ReceiptOtherOptions);
  }

  /** From a well-formed map the base unit is always offered first: as listed,
      lower-cased, or on its own when the map has no list for it; and every
      offered unit of a listed base has a factor. */
  lemma OptionsOfferBase(optionMap: Options, baseUnit: string)
    requires WellFormedOptions(optionMap)
    ensures |OptionsFor(optionMap, baseUnit)| > 0
    ensures Lookup(optionMap, Lower(baseUnit)).Some? ==>
      OptionsFor(optionMap, baseUnit)[0] == Lower(baseUnit)
      && forall j :: 0 <= j < |OptionsFor(optionMap, baseUnit)| ==> FlatFactor(OptionsFor(optionMap, baseUnit)[j]).Some?
    ensures Lookup(optionMap, Lower(baseUnit)).None? ==> OptionsFor(optionMap, baseUnit) == [baseUnit]
  {
    LookupSpec(optionMap, Lower(baseUnit));
    if Lookup(optionMap, Lower(baseUnit)).Some? {
      var i :| 0 <= i < |optionMap| && optionMap[i] == (Lower(baseUnit), Lookup(optionMap, Lower(baseUnit)).value);
      var offered := optionMap[i].1;
      forall j | 0 <= j < |offered|
        ensures FlatFactor(offered[j]).Some?
      {
        InFactorTableHasFactor(offered[j]);
      }
    }
  }

  /** Whatever the form, any unit it offers for a base converts to it with a
      positive factor that the reverse conversion undoes. */
  lemma OfferedUnitsConvert(baseUnit: string, unit: string)
    requires unit in PageOptions(baseUnit) || unit in ReceiptOptions(baseUnit)
    ensures PageFactor(unit, baseUnit) > 0.0
    ensures Inverse(PageFactor(unit, baseUnit), PageFactor(baseUnit, unit))
  {
    PageFactorInverse(unit, baseUnit);
  }

  /** The resource pages offer nothing besides "mg" for a base unit of mg,
      while the receipt page lists the other weights. */
  lemma MilligramOptions()
    ensures PageOptions("mg") == ["mg"]
    ensures ReceiptOptions("MG") == ["mg", "g", "kg", "lb", "oz"]
  {
    PageMilligram();
    ReceiptMilligram();
  }

  lemma PageMilligram()
    ensures Lookup(PageOptionMap, "mg").None?
  {
    LookupSpec(PageOptionMap, "mg");
  }

  lemma ReceiptMilligram()
    ensures Lookup(ReceiptOptionMap, "mg") == Some(["mg", "g", "kg", "lb", "oz"])
  {
    LookupConcat(ReceiptWeightOptions, ReceiptVolumeOptions + ReceiptLengthOptions + ReceiptAreaOptions
      + ReceiptCountOptions + ReceiptOtherOptions, "mg");
    assert ReceiptOptionMap == ReceiptWeightOptions + (ReceiptVolumeOptions + ReceiptLengthOptions + ReceiptAreaOptions
      + ReceiptCountOptions + ReceiptOtherOptions);
    LookupAt(ReceiptWeightOptions, "mg", 2);
  }
}
