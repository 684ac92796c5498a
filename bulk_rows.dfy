/** What the bulk-entry pages share: the row filter that keeps each row's
    position in the form, and the create-or-skip pass over a store whose
    records are looked up by a key. */
module BulkRows {
  import opened Wrappers
  import opened Text

  /** PHP's truthiness of a nullable form string. */
  predicate Filled(s: Option<string>) {
    s.Some? && !PhpEmpty(s.value)
  }

  /** `array_filter` on the repeater's rows: the complete rows in order, each
      with its position in the form (the filter keeps the array keys). */
  function Kept<R>(rows: seq<R>, complete: R -> bool): (kept: seq<(nat, R)>)
    ensures |kept| <= |rows|
    ensures forall j :: 0 <= j < |kept| ==> kept[j].0 < |rows| && rows[kept[j].0] == kept[j].1 && complete(kept[j].1)
    ensures forall i, j :: 0 <= i < j < |kept| ==> kept[i].0 < kept[j].0
    decreases |rows|
  {
    if rows == [] then []
    else
      var n := |rows| - 1;
      var init := Kept(rows[..n], complete);
      assert forall j :: 0 <= j < |init| ==> rows[..n][init[j].0] == rows[init[j].0];
      if complete(rows[n]) then init + [(n, rows[n])] else init
  }

  /** No complete row is dropped: the rows kept are exactly the complete
      ones, so nothing is kept exactly when no row is complete. */
  lemma {:induction false} KeptAll<R>(rows: seq<R>, complete: R -> bool)
    ensures forall k :: 0 <= k < |rows| && complete(rows[k]) ==> (k, rows[k]) in Kept(rows, complete)
    ensures Kept(rows, complete) == [] <==> forall k :: 0 <= k < |rows| ==> !complete(rows[k])
    decreases |rows|
  {
    if rows != [] {
      var n := |rows| - 1;
      KeptAll(rows[..n], complete);
      assert forall k :: 0 <= k < n ==> rows[..n][k] == rows[k];
      var kept := Kept(rows, complete);
      if kept == [] {
        forall k | 0 <= k < |rows|
          ensures !complete(rows[k])
        {
          if k < n {
            assert (k, rows[k]) !in Kept(rows[..n], complete);
          }
        }
      } else {
        var j := 0;
        assert complete(rows[kept[j].0]);
      }
    }
  }

  /** A kept row ready to be created: its form position, the name reported
      back, and the record it becomes. */
  datatype Candidate<T> = Candidate(position: nat, name: string, record: T)

  /** The `where(key, ...)->exists()` query. */
  predicate HasKey<T>(store: seq<T>, keyOf: T -> string, key: string) {
    exists i :: 0 <= i < |store| && keyOf(store[i]) == key
  }

  /** No two records of the store share a key. */
  predicate UniqueKeys<T>(store: seq<T>, keyOf: T -> string) {
    forall i, j :: 0 <= i < j < |store| ==> keyOf(store[i]) != keyOf(store[j])
  }

  /** The message for a skipped row; rows are numbered from 1. */
  function Duplicate(field: string, position: nat, key: string): string {
    "Row " + NatToString(position + 1) + ": " + field + " '" + key + "' already exists"
  }

  /** The store after the pass, and the `$created` / `$skipped` lists. */
  datatype PassResult<T> = PassResult(store: seq<T>, created: seq<string>, skipped: seq<string>)

  /** The create-or-skip loop: a candidate whose key the store already holds,
      from before or from an earlier row, is skipped with a message;
      otherwise its record is added and its name reported as created. */
  function Pass<T>(cs: seq<Candidate<T>>, store: seq<T>, keyOf: T -> string, field: string): PassResult<T>
    decreases |cs|
  {
    if cs == [] then PassResult(store, [], [])
    else
      var p := Pass(cs[..|cs| - 1], store, keyOf, field);
      var c := cs[|cs| - 1];
      if HasKey(p.store, keyOf, keyOf(c.record)) then
        p.(skipped := p.skipped + [Duplicate(field, c.position, keyOf(c.record))])
      else p.(store := p.store + [c.record], created := p.created + [c.name])
  }

  /** One more candidate: created, or skipped with its message. */
  lemma PassStep<T>(cs: seq<Candidate<T>>, store: seq<T>, keyOf: T -> string, field: string, i: nat)
    requires i < |cs|
    ensures var p := Pass(cs[..i], store, keyOf, field);
      var key := keyOf(cs[i].record);
      Pass(cs[..i + 1], store, keyOf, field) ==
        if HasKey(p.store, keyOf, key) then p.(skipped := p.skipped + [Duplicate(field, cs[i].position, key)])
        else p.(store := p.store + [cs[i].record], created := p.created + [cs[i].name])
  {
    assert cs[..i + 1][..i] == cs[..i];
  }

  /** Every kept row is either created or skipped; the store only grows, by
      one record of a candidate for each name reported as created. */
  lemma {:induction false} PassCounts<T>(cs: seq<Candidate<T>>, store: seq<T>, keyOf: T -> string, field: string)
    ensures var p := Pass(cs, store, keyOf, field);
      |p.created| + |p.skipped| == |cs|
      && |p.store| == |store| + |p.created|
      && p.store[..|store|] == store
      && forall j :: |store| <= j < |p.store| ==> exists k :: 0 <= k < |cs| && p.store[j] == cs[k].record
    decreases |cs|
  {
    if cs != [] {
      var init := cs[..|cs| - 1];
      PassCounts(init, store, keyOf, field);
      var q := Pass(init, store, keyOf, field);
      var p := Pass(cs, store, keyOf, field);
      forall j | |store| <= j < |p.store|
        ensures exists k :: 0 <= k < |cs| && p.store[j] == cs[k].record
      {
        if j < |q.store| {
          assert p.store[j] == q.store[j];
          var k :| 0 <= k < |init| && q.store[j] == init[k].record;
          assert init[k] == cs[k];
        } else {
          assert p.store[j] == cs[|cs| - 1].record;
        }
      }
    }
  }

  /** The pass keeps the keys of the store unique, and afterwards every
      kept row's key is in the store, whether it was created or skipped. */
  lemma {:induction false} PassKeys<T>(cs: seq<Candidate<T>>, store: seq<T>, keyOf: T -> string, field: string)
    ensures var p := Pass(cs, store, keyOf, field);
      (UniqueKeys(store, keyOf) ==> UniqueKeys(p.store, keyOf))
      && forall k :: 0 <= k < |cs| ==> HasKey(p.store, keyOf, keyOf(cs[k].record))
    decreases |cs|
  {
    if cs != [] {
      var init := cs[..|cs| - 1];
      PassKeys(init, store, keyOf, field);
      var q := Pass(init, store, keyOf, field);
      var p := Pass(cs, store, keyOf, field);
      var c := cs[|cs| - 1];
      forall k | 0 <= k < |cs|
        ensures HasKey(p.store, keyOf, keyOf(cs[k].record))
      {
        if k < |init| {
          assert init[k] == cs[k];
          var i :| 0 <= i < |q.store| && keyOf(q.store[i]) == keyOf(init[k].record);
          assert p.store[i] == q.store[i];
        } else if !HasKey(q.store, keyOf, keyOf(c.record)) {
          assert p.store[|q.store|] == c.record;
        }
      }
    }
  }

  /** `message` reports one of the candidates as a duplicate. */
  predicate ReportsOne<T>(cs: seq<Candidate<T>>, keyOf: T -> string, field: string, message: string) {
    exists k :: 0 <= k < |cs| && message == Duplicate(field, cs[k].position, keyOf(cs[k].record))
  }

  /** A skipped row is reported with its own form position and key. */
  lemma {:induction false} PassSkipped<T>(cs: seq<Candidate<T>>, store: seq<T>, keyOf: T -> string, field: string)
    ensures forall m :: 0 <= m < |Pass(cs, store, keyOf, field).skipped| ==>
      ReportsOne(cs, keyOf, field, Pass(cs, store, keyOf, field).skipped[m])
    decreases |cs|
  {
    if cs != [] {
      var init := cs[..|cs| - 1];
      PassSkipped(init, store, keyOf, field);
      var q := Pass(init, store, keyOf, field);
      var p := Pass(cs, store, keyOf, field);
      forall m | 0 <= m < |p.skipped|
        ensures ReportsOne(cs, keyOf, field, p.skipped[m])
      {
        if m < |q.skipped| {
          assert p.skipped[m] == q.skipped[m];
          assert ReportsOne(init, keyOf, field, q.skipped[m]);
          var k :| 0 <= k < |init| && q.skipped[m] == Duplicate(field, init[k].position, keyOf(init[k].record));
          assert init[k] == cs[k];
        } else {
          var k := |cs| - 1;
          assert p.skipped[m] == Duplicate(field, cs[k].position, keyOf(cs[k].record));
        }
      }
    }
  }
}
