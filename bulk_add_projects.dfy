/** The bulk project page: complete rows become projects, a row whose code
    the register already holds is skipped and reported. */
module BulkAddProjects {
  import opened Wrappers
  import opened Text
  import opened BulkRows

  /** One repeater row as submitted; blank fields are null. Dates are kept
      as the form's date strings. */
  datatype ProjectRow = ProjectRow(
    name: Option<string>,
    code: Option<string>,
    status: Option<string>,
    startDate: Option<string>,
    endDate: Option<string>,
    description: Option<string>)

  /** A stored project. */
  datatype ProjectRecord = ProjectRecord(
    name: string,
    code: string,
    status: string,
    startDate: string,
    endDate: Option<string>,
    description: Option<string>)

  /** The row filter: name, code, status and start date are all non-empty. */
  predicate Complete(row: ProjectRow) {
    Filled(row.name) && Filled(row.code) && Filled(row.status) && Filled(row.startDate)
  }

  function Code(r: ProjectRecord): string {
    r.code
  }

  /** The project a complete row creates; a missing end date or description
      is null. */
  function RecordOf(row: ProjectRow): (r: ProjectRecord)
    requires Complete(row)
    ensures Some(r.name) == row.name && Some(r.code) == row.code && Some(r.status) == row.status
    ensures Some(r.startDate) == row.startDate && r.endDate == row.endDate && r.description == row.description
  {
    ProjectRecord(row.name.value, row.code.value, row.status.value, row.startDate.value, row.endDate, row.description)
  }

  function Candidates(kept: seq<(nat, ProjectRow)>): (cs: seq<Candidate<ProjectRecord>>)
    requires forall j :: 0 <= j < |kept| ==> Complete(kept[j].1)
    ensures |cs| == |kept|
    ensures forall j :: 0 <= j < |kept| ==>
      cs[j] == Candidate(kept[j].0, RecordOf(kept[j].1).name, RecordOf(kept[j].1))
  {
    seq(|kept|, j requires 0 <= j < |kept| => Candidate(kept[j].0, RecordOf(kept[j].1).name, RecordOf(kept[j].1)))
  }

  datatype Outcome = NoValidRows | Done(created: seq<string>, skipped: seq<string>)

  /** The projects table. */
  class ProjectRegister {
    var projects: seq<ProjectRecord>

    /** The unique index on `code`. */
    predicate Valid()
      reads this
    {
      UniqueKeys(projects, Code)
    }

    constructor ()
      ensures Valid() && projects == []
    {
      projects := [];
    }

    /** `submit`: without a complete row nothing is created; otherwise the
        complete rows are created in order, each unless its code is already
        taken, from before or by an earlier row. */
    method Submit(rows: seq<ProjectRow>) returns (outcome: Outcome)
      requires Valid()
      modifies this
      ensures Valid()
      ensures Kept(rows, Complete) == [] ==> outcome == NoValidRows && projects == old(projects)
      ensures Kept(rows, Complete) != [] ==>
        var p := Pass(Candidates(Kept(rows, Complete)), old(projects), Code, "Code");
        outcome == Done(p.created, p.skipped) && projects == p.store
    {
      var kept := Kept(rows, Complete);
      if kept == [] {
        return NoValidRows;
      }
      ghost var cs := Candidates(kept);
      var created: seq<string> := [];
      var skipped: seq<string> := [];
      var i := 0;
      while i < |kept|
        invariant 0 <= i <= |kept|
        invariant Pass(cs[..i], old(projects), Code, "Code") == PassResult(projects, created, skipped)
      {
        var (index, row) := kept[i];
        PassStep(cs, old(projects), Code, "Code", i);
        assert cs[i] == Candidate(index, row.name.value, RecordOf(row));
        if HasKey(projects, Code, row.code.value) {
          skipped := skipped + [Duplicate("Code", index, row.code.value)];
        } else {
          projects := projects + [RecordOf(row)];
          created := created + [row.name.value];
        }
        i := i + 1;
      }
      assert cs[..i] == cs;
      PassKeys(cs, old(projects), Code, "Code");
      outcome := Done(created, skipped);
    }
  }

  /** Two complete rows with the same code in one submission to an empty
      register: the first is created, the second is skipped as a duplicate
      of it, and a blank row between them is ignored. */
  lemma RepeatedCode()
    ensures var a := ProjectRow(Some("Phase 1"), Some("P-1"), Some("pending"), Some("2024-01-08"), None, None);
      var gap := ProjectRow(None, None, Some("pending"), Some("2024-01-08"), None, None);
      var b := ProjectRow(Some("Phase 2"), Some("P-1"), Some("active"), Some("2024-02-01"), None, None);
      var p := Pass(Candidates(Kept([a, gap, b], Complete)), [], Code, "Code");
      p.created == ["Phase 1"]
      && p.skipped == [Duplicate("Code", 2, "P-1")]
      && p.store == [ProjectRecord("Phase 1", "P-1", "pending", "2024-01-08", None, None)]
  {
    var a := ProjectRow(Some("Phase 1"), Some("P-1"), Some("pending"), Some("2024-01-08"), None, None);
    var gap := ProjectRow(None, None, Some("pending"), Some("2024-01-08"), None, None);
    var b := ProjectRow(Some("Phase 2"), Some("P-1"), Some("active"), Some("2024-02-01"), None, None);
    assert [a, gap, b][..2] == [a, gap] && [a, gap][..1] == [a] && [a][..0] == [];
    assert Kept([a], Complete) == [(0, a)];
    assert Kept([a, gap], Complete) == [(0, a)];
    var kept := Kept([a, gap, b], Complete);
    assert kept == [(0, a), (2, b)];
    var cs := Candidates(kept);
    assert cs == [Candidate(0, "Phase 1", RecordOf(a)), Candidate(2, "Phase 2", RecordOf(b))];
    SecondSkipped(RecordOf(a), RecordOf(b));
  }

  lemma SecondSkipped(ra: ProjectRecord, rb: ProjectRecord)
    requires ra.code == "P-1" && rb.code == "P-1"
    ensures var p := Pass([Candidate(0, "Phase 1", ra), Candidate(2, "Phase 2", rb)], [], Code, "Code");
      p.created == ["Phase 1"] && p.skipped == [Duplicate("Code", 2, "P-1")] && p.store == [ra]
  {
    var cs := [Candidate(0, "Phase 1", ra), Candidate(2, "Phase 2", rb)];
    assert cs[..1][..0] == [] && cs[..2] == cs;
    assert !HasKey([], Code, "P-1");
    assert Pass(cs[..1], [], Code, "Code") == PassResult([ra], ["Phase 1"], []);
    assert HasKey([ra], Code, "P-1") by {
      assert Code([ra][0]) == "P-1";
    }
  }
}
