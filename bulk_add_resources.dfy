/** The bulk resource page: complete rows become resources, a row whose SKU
    the catalogue already holds is skipped and reported. */
module BulkAddResources {
  import opened Wrappers
  import opened Text
  import opened BulkRows

  /** One repeater row as submitted; blank fields are null. */
  datatype ResourceRow = ResourceRow(
    name: Option<string>,
    sku: Option<string>,
    category: Option<string>,
    baseUnit: Option<string>,
    description: Option<string>)

  /** A stored resource. */
  datatype ResourceRecord = ResourceRecord(name: string, sku: string, category: string, baseUnit: string, description: Option<string>)

  /** The row filter: name, SKU, category and base unit are all non-empty. */
  predicate Complete(row: ResourceRow) {
    Filled(row.name) && Filled(row.sku) && Filled(row.category) && Filled(row.baseUnit)
  }

  function Sku(r: ResourceRecord): string {
    r.sku
  }

  /** The resource a complete row creates; a missing description is null. */
  function RecordOf(row: ResourceRow): (r: ResourceRecord)
    requires Complete(row)
    ensures Some(r.name) == row.name && Some(r.sku) == row.sku && Some(r.category) == row.category
    ensures Some(r.baseUnit) == row.baseUnit && r.description == row.description
  {
    ResourceRecord(row.name.value, row.sku.value, row.category.value, row.baseUnit.value, row.description)
  }

  function Candidates(kept: seq<(nat, ResourceRow)>): (cs: seq<Candidate<ResourceRecord>>)
    requires forall j :: 0 <= j < |kept| ==> Complete(kept[j].1)
    ensures |cs| == |kept|
    ensures forall j :: 0 <= j < |kept| ==>
      cs[j] == Candidate(kept[j].0, RecordOf(kept[j].1).name, RecordOf(kept[j].1))
  {
    seq(|kept|, j requires 0 <= j < |kept| => Candidate(kept[j].0, RecordOf(kept[j].1).name, RecordOf(kept[j].1)))
  }

  datatype Outcome = NoValidRows | Done(created: seq<string>, skipped: seq<string>)

  /** The resources table. */
  class Catalogue {
    var resources: seq<ResourceRecord>

    /** The unique index on `sku`. */
    predicate Valid()
      reads this
    {
      UniqueKeys(resources, Sku)
    }

    constructor ()
      ensures Valid() && resources == []
    {
      resources := [];
    }

    /** `submit`: without a complete row nothing is created; otherwise the
        complete rows are created in order, each unless its SKU is already
        taken, from before or by an earlier row. */
    method Submit(rows: seq<ResourceRow>) returns (outcome: Outcome)
      requires Valid()
      modifies this
      ensures Valid()
      ensures Kept(rows, Complete) == [] ==> outcome == NoValidRows && resources == old(resources)
      ensures Kept(rows, Complete) != [] ==>
        var p := Pass(Candidates(Kept(rows, Complete)), old(resources), Sku, "SKU");
        outcome == Done(p.created, p.skipped) && resources == p.store
    {
      var kept := Kept(rows, Complete);
      if kept == [] {
        return NoValidRows;
      }
      ghost var cs := Candidates(kept);
      var created: seq<string> := [];
      var skipped: seq<string> := [];
      var i := 0;
      while i < |kept|
        invariant 0 <= i <= |kept|
        invariant Pass(cs[..i], old(resources), Sku, "SKU") == PassResult(resources, created, skipped)
      {
        var (index, row) := kept[i];
        PassStep(cs, old(resources), Sku, "SKU", i);
        assert cs[i] == Candidate(index, row.name.value, RecordOf(row));
        if HasKey(resources, Sku, row.sku.value) {
          skipped := skipped + [Duplicate("SKU", index, row.sku.value)];
        } else {
          resources := resources + [RecordOf(row)];
          created := created + [row.name.value];
        }
        i := i + 1;
      }
      assert cs[..i] == cs;
      PassKeys(cs, old(resources), Sku, "SKU");
      outcome := Done(created, skipped);
    }
  }

  /** One submission against a catalogue holding "CEM-001": the first row's
      SKU is taken, the second row is incomplete, the third is created and
      the fourth repeats the third's SKU. */
  lemma DuplicateSkus()
    ensures var cement := ResourceRecord("Cement", "CEM-001", "Raw Materials", "bag", None);
      var rows := [
        ResourceRow(Some("Cement"), Some("CEM-001"), Some("Raw Materials"), Some("bag"), None),
        ResourceRow(Some("Sand"), None, Some("Raw Materials"), Some("ton"), None),
        ResourceRow(Some("Hammer"), Some("TL-1"), Some("Tools"), Some("pieces"), None),
        ResourceRow(Some("Mallet"), Some("TL-1"), Some("Tools"), Some("pieces"), None)];
      var p := Pass(Candidates(Kept(rows, Complete)), [cement], Sku, "SKU");
      p.created == ["Hammer"]
      && p.skipped == [Duplicate("SKU", 0, "CEM-001"), Duplicate("SKU", 3, "TL-1")]
      && p.store == [cement, ResourceRecord("Hammer", "TL-1", "Tools", "pieces", None)]
  {
    var cement := ResourceRecord("Cement", "CEM-001", "Raw Materials", "bag", None);
    var r0 := ResourceRow(Some("Cement"), Some("CEM-001"), Some("Raw Materials"), Some("bag"), None);
    var r1 := ResourceRow(Some("Sand"), None, Some("Raw Materials"), Some("ton"), None);
    var r2 := ResourceRow(Some("Hammer"), Some("TL-1"), Some("Tools"), Some("pieces"), None);
    var r3 := ResourceRow(Some("Mallet"), Some("TL-1"), Some("Tools"), Some("pieces"), None);
    KeptExample(r0, r1, r2, r3);
    var kept := [(0, r0), (2, r2), (3, r3)];
    var cs := Candidates(kept);
    assert cs == [Candidate(0, "Cement", RecordOf(r0)), Candidate(2, "Hammer", RecordOf(r2)), Candidate(3, "Mallet", RecordOf(r3))];
    PassExample(cement, RecordOf(r0), RecordOf(r2), RecordOf(r3));
  }

  lemma PassExample(cement: ResourceRecord, c0: ResourceRecord, c2: ResourceRecord, c3: ResourceRecord)
    requires cement.sku == "CEM-001" && c0.sku == "CEM-001" && c2.sku == "TL-1" && c3.sku == "TL-1" && c2.name == "Hammer"
    ensures var p := Pass([Candidate(0, "Cement", c0), Candidate(2, "Hammer", c2), Candidate(3, "Mallet", c3)], [cement], Sku, "SKU");
      p.created == ["Hammer"]
      && p.skipped == [Duplicate("SKU", 0, "CEM-001"), Duplicate("SKU", 3, "TL-1")]
      && p.store == [cement, c2]
  {
    var cs := [Candidate(0, "Cement", c0), Candidate(2, "Hammer", c2), Candidate(3, "Mallet", c3)];
    assert cs[..2] == cs[..2] && cs[..2][..1] == cs[..1] && cs[..1][..0] == [];
    assert HasKey([cement], Sku, "CEM-001") by {
      assert Sku([cement][0]) == "CEM-001";
    }
    assert !HasKey([cement], Sku, "TL-1") by {
      assert "CEM-001"[0] != "TL-1"[0];
    }
    assert HasKey([cement, c2], Sku, "TL-1") by {
      assert Sku([cement, c2][1]) == "TL-1";
    }
    assert Pass(cs[..0], [cement], Sku, "SKU") == PassResult([cement], [], []);
    assert cs[..1][|cs[..1]| - 1] == Candidate(0, "Cement", c0);
    var p1 := Pass(cs[..1], [cement], Sku, "SKU");
    assert p1 == PassResult([cement], [], [Duplicate("SKU", 0, "CEM-001")]);
    var p2 := Pass(cs[..2], [cement], Sku, "SKU");
    assert p2 == PassResult([cement, c2], ["Hammer"], [Duplicate("SKU", 0, "CEM-001")]);
    assert cs[..3] == cs;
  }

  lemma KeptExample(r0: ResourceRow, r1: ResourceRow, r2: ResourceRow, r3: ResourceRow)
    requires Complete(r0) && !Complete(r1) && Complete(r2) && Complete(r3)
    ensures Kept([r0, r1, r2, r3], Complete) == [(0, r0), (2, r2), (3, r3)]
  {
    assert [r0, r1, r2, r3][..3] == [r0, r1, r2];
    assert [r0, r1, r2][..2] == [r0, r1];
    assert [r0, r1][..1] == [r0];
    assert [r0][..0] == [];
    assert Kept([r0], Complete) == [(0, r0)];
    assert Kept([r0, r1], Complete) == [(0, r0)];
    assert Kept([r0, r1, r2], Complete) == [(0, r0), (2, r2)];
  }

  /** The message of a skipped row names it by its 1-based form position. */
  lemma SkippedMessage()
    ensures Duplicate("SKU", 3, "T1") == "Row 4: SKU 'T1' already exists"
  {
    assert NatToString(4) == "4";
  }
}
