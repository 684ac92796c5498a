/** Goods receipt notes: the number a new note is given, its `created_by`
    default, the line item's total hooks and base quantity, and the form
    rewrite of the single-resource create page. */
module GoodsReceipt {
  import opened Wrappers
  import opened Text
  import opened Decimal
  import opened UnitConversion
  import opened Transactions

  // GRN numbers: "GRN-<year>-<n>", n the year's count plus one, zero padded
  // to at least five digits.

  function GrnPrefix(year: nat): string {
    "GRN-" + NatToString(year) + "-"
  }

  function GrnNumber(year: nat, countThisYear: nat): string {
    GrnPrefix(year) + PadLeft(NatToString(countThisYear + 1), 5, '0')
  }

  /** A number is the year's prefix followed by at least five digits that
      read back as the count plus one: padding never cuts a digit. */
  lemma GrnNumberShape(year: nat, countThisYear: nat)
    ensures StartsWith(GrnNumber(year, countThisYear), GrnPrefix(year))
    ensures |GrnNumber(year, countThisYear)| - |GrnPrefix(year)| >= 5
    ensures |GrnNumber(year, countThisYear)| - |GrnPrefix(year)| >= |NatToString(countThisYear + 1)|
    ensures AllDigits(GrnNumber(year, countThisYear)[|GrnPrefix(year)|..])
    ensures ParseDigits(GrnNumber(year, countThisYear)[|GrnPrefix(year)|..]) == countThisYear + 1
  {
    var p := GrnPrefix(year);
    var d := PadLeft(NatToString(countThisYear + 1), 5, '0');
    assert GrnNumber(year, countThisYear)[..|p|] == p;
    assert GrnNumber(year, countThisYear)[|p|..] == d;
    ParsePadded(countThisYear + 1, 5);
  }

  /** The year's digits end where the prefix's second dash stands, so two
      prefixes that start the same string are the same prefix. */
  lemma PrefixesAgree(y1: nat, y2: nat, s: string)
    requires StartsWith(s, GrnPrefix(y1)) && StartsWith(s, GrnPrefix(y2))
    ensures y1 == y2
  {
    var a := NatToString(y1);
    var b := NatToString(y2);
    PrefixShape(y1, s);
    PrefixShape(y2, s);
    assert |a| == |b|;
    assert a == s[4..4 + |a|] == b;
    NatToStringInjective(y1, y2);
  }

  /** A string that starts with a year's prefix has the year's digits from
      position 4 and a dash right after them. */
  lemma PrefixShape(year: nat, s: string)
    requires StartsWith(s, GrnPrefix(year))
    ensures 4 + |NatToString(year)| < |s| && s[4 + |NatToString(year)|] == '-'
    ensures s[4..4 + |NatToString(year)|] == NatToString(year)
    ensures forall i :: 4 <= i < 4 + |NatToString(year)| ==> IsDigit(s[i])
  {
    var p := GrnPrefix(year);
    assert s[..|p|] == p;
    assert p[4 + |NatToString(year)|] == '-';
    assert p[4..4 + |NatToString(year)|] == NatToString(year);
    forall i | 4 <= i < 4 + |NatToString(year)|
      ensures IsDigit(s[i])
    {
      assert s[i] == p[i] == NatToString(year)[i - 4];
    }
  }

  /** Different years or different counts never give the same number. */
  lemma GrnNumberInjective(y1: nat, c1: nat, y2: nat, c2: nat)
    ensures GrnNumber(y1, c1) == GrnNumber(y2, c2) ==> y1 == y2 && c1 == c2
  {
    if GrnNumber(y1, c1) == GrnNumber(y2, c2) {
      GrnNumberShape(y1, c1);
      GrnNumberShape(y2, c2);
      PrefixesAgree(y1, y2, GrnNumber(y1, c1));
    }
  }

  lemma GrnNumberExamples()
    ensures GrnNumber(2026, 0) == "GRN-2026-00001"
    ensures GrnNumber(2026, 99999) == "GRN-2026-100000"
  {
    Year2026();
    FirstPadded();
    HundredThousand();
    assert PadLeft("100000", 5, '0') == "100000";
  }

  lemma FirstPadded()
    ensures PadLeft(NatToString(1), 5, '0') == "00001"
  {
    assert NatToString(1) == "1";
    assert Repeat('0', 4) == "0000";
  }

  lemma Year2026()
    ensures GrnPrefix(2026) == "GRN-2026-"
  {
    assert NatToString(2) == "2";
    assert NatToString(20) == "20";
    assert NatToString(202) == "202";
    assert NatToString(2026) == "2026";
  }

  lemma HundredThousand()
    ensures NatToString(100000) == "100000"
  {
    assert NatToString(1) == "1";
    assert NatToString(10) == "10";
    assert NatToString(100) == "100";
    assert NatToString(1000) == "1000";
    assert NatToString(10000) == "10000";
  }

  /** PHP's falsiness of a nullable string and a nullable id. */
  predicate Blank(s: Option<string>) {
    s.None? || PhpEmpty(s.value)
  }

  predicate NoUser(id: Option<nat>) {
    id.None? || id.value == 0
  }

  /** A goods receipt note being saved. */
  class GoodsReceiptNote {
    var grnNumber: Option<string>
    var createdBy: Option<nat>

    constructor(grnNumber: Option<string>, createdBy: Option<nat>)
      ensures this.grnNumber == grnNumber && this.createdBy == createdBy
    {
      this.grnNumber := grnNumber;
      this.createdBy := createdBy;
    }

    /** The creating hook: a number is generated only when none was given,
        from the current year and the number of notes created this year, and
        the author is filled from the logged-in user only when unset. */
    method Creating(year: nat, countThisYear: nat, authUser: Option<Id>)
      modifies this
      ensures !Blank(old(grnNumber)) ==> grnNumber == old(grnNumber)
      ensures Blank(old(grnNumber)) ==> grnNumber == Some(GrnNumber(year, countThisYear))
      ensures NoUser(old(createdBy)) && authUser.Some? ==> createdBy == Some(authUser.value as nat)
      ensures !(NoUser(old(createdBy)) && authUser.Some?) ==> createdBy == old(createdBy)
    {
      if Blank(grnNumber) {
        grnNumber := Some(GrnNumber(year, countThisYear));
      }
      if NoUser(createdBy) && authUser.Some? {
        createdBy := Some(authUser.value);
      }
    }
  }

  // The single-resource create page's rewrite of its form data.

  /** The submitted form. Numeric fields are null when left blank. */
  datatype GrnForm = GrnForm(
    resourceId: Option<nat>,
    receiptUnit: Option<string>,
    quantityReceived: Option<real>,
    unitPrice: Option<real>,
    totalValue: Option<real>,
    createdBy: Option<nat>)

  /** What is saved: the form without its receipt unit. */
  datatype GrnData = GrnData(
    resourceId: Option<nat>,
    quantityReceived: Option<real>,
    unitPrice: Option<real>,
    totalValue: Option<real>,
    createdBy: Option<nat>)

  /** PHP's `empty()` on a nullable number. */
  predicate EmptyNumber(x: Option<real>) {
    x.None? || x.value == 0.0
  }

  /** Whether the form is converted, and by which factor: a resource was
      chosen and found, a receipt unit was chosen, and the two units differ
      ignoring case. `resources` maps ids to base units (`Resource::find`). */
  function ConversionFor(data: GrnForm, resources: map<nat, string>): (r: Option<real>)
    ensures r.Some? <==> (data.resourceId.Some? && data.resourceId.value != 0 && !Blank(data.receiptUnit)
      && data.resourceId.value in resources
      && Lower(data.receiptUnit.value) != Lower(resources[data.resourceId.value]))
    ensures r.Some? ==> r.value == PageFactor(data.receiptUnit.value, resources[data.resourceId.value])
    ensures r.Some? ==> r.value > 0.0
  {
    if data.resourceId.Some? && data.resourceId.value != 0 && !Blank(data.receiptUnit)
      && data.resourceId.value in resources
      && Lower(data.receiptUnit.value) != Lower(resources[data.resourceId.value])
    then
      PageFactorPositive(data.receiptUnit.value, resources[data.resourceId.value]);
      Some(PageFactor(data.receiptUnit.value, resources[data.resourceId.value]))
    else None
  }

  /** The quantity in the base unit, to three places; a blank quantity is
      left as it is. */
  function ScaleQuantity(q: Option<real>, f: real): (r: Option<real>)
    ensures EmptyNumber(q) ==> r == q
    ensures !EmptyNumber(q) ==> r.Some? && Abs(r.value - q.value * f) * 1000.0 <= 0.5
  {
    if EmptyNumber(q) then q
    else
      RoundError(q.value * f, 3);
      assert Pow10(3) == 1000;
      Some(Round(q.value * f, 3))
  }

  /** The price per base unit, to two places; a blank price is left as it
      is. */
  function ScalePrice(p: Option<real>, f: real): (r: Option<real>)
    requires f > 0.0
    ensures EmptyNumber(p) ==> r == p
    ensures !EmptyNumber(p) ==> r.Some? && Abs(r.value - p.value / f) * 100.0 <= 0.5
  {
    if EmptyNumber(p) then p
    else
      RoundError(p.value / f, 2);
      assert Pow10(2) == 100;
      Some(Round(p.value / f, 2))
  }

  /** The total: quantity times price to two places when both are
      non-blank, the given total otherwise. */
  function Recomputed(q: Option<real>, p: Option<real>, given: Option<real>): (r: Option<real>)
    ensures !EmptyNumber(q) && !EmptyNumber(p) ==> r.Some? && Abs(r.value - q.value * p.value) * 100.0 <= 0.5
    ensures EmptyNumber(q) || EmptyNumber(p) ==> r == given
  {
    if !EmptyNumber(q) && !EmptyNumber(p) then
      RoundError(q.value * p.value, 2);
      assert Pow10(2) == 100;
      Some(Round(q.value * p.value, 2))
    else given
  }

  /** `mutateFormDataBeforeSave`: the author is the current user; when the
      units differ, quantity and price are converted to the base unit; the
      total is recomputed, to two places, from whatever quantity and price
      are then non-blank; the receipt unit is dropped. */
  function BeforeSave(data: GrnForm, currentUser: Option<Id>, resources: map<nat, string>): (r: GrnData)
    ensures r.createdBy == if currentUser.Some? then Some(currentUser.value as nat) else None
    ensures r.resourceId == data.resourceId
    ensures ConversionFor(data, resources).None? ==>
      r.quantityReceived == data.quantityReceived && r.unitPrice == data.unitPrice
    ensures ConversionFor(data, resources).Some? ==>
      r.quantityReceived == ScaleQuantity(data.quantityReceived, ConversionFor(data, resources).value)
      && r.unitPrice == ScalePrice(data.unitPrice, ConversionFor(data, resources).value)
    ensures r.totalValue == Recomputed(r.quantityReceived, r.unitPrice, data.totalValue)
  {
    var conversion := ConversionFor(data, resources);
    var q := if conversion.Some? then ScaleQuantity(data.quantityReceived, conversion.value) else data.quantityReceived;
    var p := if conversion.Some? then ScalePrice(data.unitPrice, conversion.value) else data.unitPrice;
    GrnData(data.resourceId, q, p, Recomputed(q, p, data.totalValue),
      if currentUser.Some? then Some(currentUser.value as nat) else None)
  }

  /** Three dozen at 120 a dozen, for a resource counted in pieces, is saved
      as 36 pieces at 10 a piece, 360 in all. */
  lemma BeforeSaveDozenExample(user: Option<Id>)
    ensures BeforeSave(GrnForm(Some(7), Some("dozen"), Some(3.0), Some(120.0), None, None), user, map[7 := "piece"])
      == GrnData(Some(7), Some(36.0), Some(10.0), Some(360.0), if user.Some? then Some(user.value as nat) else None)
  {
    DozenConversion();
    DozenScaled();
    DozenTotal();
  }

  lemma DozenConversion()
    ensures ConversionFor(GrnForm(Some(7), Some("dozen"), Some(3.0), Some(120.0), None, None), map[7 := "piece"])
      == Some(12.0)
  {
    CountExamples();
    assert Lower("dozen") == "dozen" && Lower("piece") == "piece";
  }

  lemma DozenScaled()
    ensures ScaleQuantity(Some(3.0), 12.0) == Some(36.0)
    ensures ScalePrice(Some(120.0), 12.0) == Some(10.0)
  {
    RoundExact(36000, 3);
    assert 36000 as real / (Pow10(3) as real) == 36.0;
    RoundExact(1000, 2);
    assert 1000 as real / (Pow10(2) as real) == 10.0;
  }

  lemma DozenTotal()
    ensures Recomputed(Some(36.0), Some(10.0), None) == Some(360.0)
  {
    RoundExact(36000, 2);
    assert 36000 as real / (Pow10(2) as real) == 360.0;
  }
}
