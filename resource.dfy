/** `Resource`'s batch store: the FIFO consumption, the move of stock from
    the hub to a project and back, the quantity kept in sync with the hub's
    batches, and the valuation accessors. */
module BatchInventory {
  import opened Wrappers
  import opened Transactions
  import opened ResourceBatch

  /** The slack `returnToHub` allows before it deletes a drained batch. */
  const Tolerance: real := 0.001

  // ------------------------------------------------------------------
  // The saving hook

  datatype SaveError = NegativeTotalQuantity | NegativeAvailableQuantity | NegativePurchasePrice

  /** The `saving` hook: the three figures are checked in this order. */
  function SaveCheck(totalQuantity: real, availableQuantity: real, purchasePrice: real): (r: Result<(), SaveError>)
    ensures r.Ok? <==> totalQuantity >= 0.0 && availableQuantity >= 0.0 && purchasePrice >= 0.0
    ensures totalQuantity < 0.0 ==> r == Err(NegativeTotalQuantity)
    ensures totalQuantity >= 0.0 && availableQuantity < 0.0 ==> r == Err(NegativeAvailableQuantity)
  {
    if totalQuantity < 0.0 then Err(NegativeTotalQuantity)
    else if availableQuantity < 0.0 then Err(NegativeAvailableQuantity)
    else if purchasePrice < 0.0 then Err(NegativePurchasePrice)
    else Ok(())
  }

  // ------------------------------------------------------------------
  // Sums over batches

  /** Base-unit quantity of the batches at one location, or everywhere. */
  function QuantityIn(bs: seq<Batch>, where: Option<Location>): real
    decreases |bs|
  {
    if bs == [] then 0.0
    else (if where.None? || bs[0].location == where.value then BaseQuantity(bs[0]) else 0.0) + QuantityIn(bs[1..], where)
  }

  /** Σ `quantity_remaining` over all batches, in their own units
      (`getTotalQuantityFromBatchesAttribute`). */
  function RemainingTotal(bs: seq<Batch>): real
    decreases |bs|
  {
    if bs == [] then 0.0 else bs[0].quantityRemaining + RemainingTotal(bs[1..])
  }

  /** `getTotalValueAttribute`: Σ remaining × price over all batches. */
  function ValueTotal(bs: seq<Batch>): real
    decreases |bs|
  {
    if bs == [] then 0.0 else TotalValue(bs[0]) + ValueTotal(bs[1..])
  }

  /** `getWeightedAveragePriceAttribute`. */
  function WeightedAverage(bs: seq<Batch>): (p: real)
    ensures RemainingTotal(bs) == 0.0 ==> p == 0.0
    ensures RemainingTotal(bs) != 0.0 ==> p * RemainingTotal(bs) == ValueTotal(bs)
  {
    var q := RemainingTotal(bs);
    if q == 0.0 then 0.0 else ValueTotal(bs) / q
  }

  predicate AllSound(bs: seq<Batch>) {
    forall i :: 0 <= i < |bs| ==> Sound(bs[i])
  }

  lemma {:induction false} QuantityNonNegative(bs: seq<Batch>, where: Option<Location>)
    requires AllSound(bs)
    ensures QuantityIn(bs, where) >= 0.0
    decreases |bs|
  {
    if bs != [] {
      assert AllSound(bs[1..]) by {
        assert forall i :: 0 <= i < |bs| - 1 ==> bs[1..][i] == bs[i + 1];
      }
      QuantityNonNegative(bs[1..], where);
    }
  }

  // ------------------------------------------------------------------
  // FIFO order: `orderBy('purchase_date')->orderBy('id')`

  predicate Precedes(a: Batch, b: Batch) {
    a.purchaseDate < b.purchaseDate || (a.purchaseDate == b.purchaseDate && a.id < b.id)
  }

  predicate FifoOrdered(bs: seq<Batch>) {
    forall i, j :: 0 <= i < j < |bs| ==> Precedes(bs[i], bs[j])
  }

  predicate SameKey(a: Batch, b: Batch) {
    a.purchaseDate == b.purchaseDate && a.id == b.id
  }

  /** A new batch, placed where the ordered query will return it. */
  function Insert(bs: seq<Batch>, b: Batch): (r: seq<Batch>)
    ensures |r| == |bs| + 1
    decreases |bs|
  {
    if bs == [] || Precedes(b, bs[0]) then [b] + bs
    else [bs[0]] + Insert(bs[1..], b)
  }

  /** Inserting adds `b` and nothing else. */
  lemma {:induction false} InsertElements(bs: seq<Batch>, b: Batch)
    ensures forall k :: 0 <= k < |Insert(bs, b)| ==> Insert(bs, b)[k] == b || Insert(bs, b)[k] in bs
    decreases |bs|
  {
    if !(bs == [] || Precedes(b, bs[0])) {
      InsertElements(bs[1..], b);
      var rest := Insert(bs[1..], b);
      assert forall k :: 0 <= k < |rest| ==> rest[k] == b || rest[k] in bs;
    }
  }

  lemma {:induction false} InsertOrdered(bs: seq<Batch>, b: Batch)
    requires FifoOrdered(bs)
    requires forall i :: 0 <= i < |bs| ==> bs[i].id < b.id
    ensures FifoOrdered(Insert(bs, b))
    decreases |bs|
  {
    if bs != [] && !Precedes(b, bs[0]) {
      assert forall i :: 0 <= i < |bs| - 1 ==> bs[1..][i] == bs[i + 1];
      InsertOrdered(bs[1..], b);
      InsertElements(bs[1..], b);
      var rest := Insert(bs[1..], b);
      forall k | 0 <= k < |rest|
        ensures Precedes(bs[0], rest[k])
      {
        if rest[k] != b {
          var i :| 0 <= i < |bs[1..]| && bs[1..][i] == rest[k];
        }
      }
    }
  }

  lemma {:induction false} InsertQuantity(bs: seq<Batch>, b: Batch, where: Option<Location>)
    ensures QuantityIn(Insert(bs, b), where) ==
      QuantityIn(bs, where) + (if where.None? || b.location == where.value then BaseQuantity(b) else 0.0)
    decreases |bs|
  {
    if bs == [] || Precedes(b, bs[0]) {
      assert ([b] + bs)[1..] == bs;
    } else {
      InsertQuantity(bs[1..], b, where);
      assert ([bs[0]] + Insert(bs[1..], b))[1..] == Insert(bs[1..], b);
    }
  }

  // ------------------------------------------------------------------
  // Draining batches oldest-first

  /** Which batches a drain takes from: every active batch
      (`consumeQuantityFifo`), or the batches at one location. */
  datatype Scope = AnyActive | AtLocation(loc: Location)

  predicate Takes(scope: Scope, b: Batch) {
    match scope
    case AnyActive => b.quantityRemaining > 0.0
    case AtLocation(loc) => b.location == loc
  }

  /** Whether a drain's portions count towards the quantity at `where`. */
  predicate Counted(scope: Scope, where: Option<Location>) {
    where.None? || (scope.AtLocation? && scope.loc == where.value)
  }

  /** One entry of `$transferredBatches` / `$returnedBatches`. */
  datatype Portion = Portion(
    unitType: string,
    conversionFactor: real,
    purchasePrice: real,
    inBatchUnit: real,
    inBaseUnit: real,
    purchaseDate: int,
    supplier: Option<string>)

  /** A portion's two quantities describe the same positive amount. */
  predicate Exact(p: Portion) {
    p.conversionFactor > 0.0 && p.inBatchUnit * p.conversionFactor == p.inBaseUnit && p.inBaseUnit > 0.0
  }

  predicate AllExact(ps: seq<Portion>) {
    forall k :: 0 <= k < |ps| ==> Exact(ps[k])
  }

  predicate Factored(bs: seq<Batch>) {
    forall i :: 0 <= i < |bs| ==> bs[i].conversionFactor > 0.0
  }

  lemma DivideBack(take: real, f: real)
    requires f > 0.0
    ensures (take / f) * f == take
  {
  }

  /** What one batch gives up in the drain loop: the batch as it is kept
      (none when deleted), the portion taken, and what is still needed. */
  datatype Taken = Taken(kept: seq<Batch>, portions: seq<Portion>, need: real)

  /** One iteration: skip a batch out of scope or empty; otherwise take
      `min(need, batch)` in base units, and that divided by the factor from
      the batch. `dropNearEmpty` is `returnToHub`'s rule: a batch with at
      most the tolerance left over is deleted instead of reduced. */
  function TakeFrom(b: Batch, scope: Scope, need: real, dropNearEmpty: bool): Taken
    requires b.conversionFactor > 0.0
  {
    var base := BaseQuantity(b);
    if !Takes(scope, b) || base <= 0.0 then Taken([b], [], need)
    else
      var take := if need < base then need else base;
      var inUnit := take / b.conversionFactor;
      var portion := Portion(b.unitType, b.conversionFactor, b.purchasePrice, inUnit, take, b.purchaseDate, b.supplier);
      var kept := if dropNearEmpty && b.quantityRemaining <= inUnit + Tolerance then []
        else [b.(quantityRemaining := b.quantityRemaining - inUnit)];
      Taken(kept, [portion], need - take)
  }

  /** Σ of the base-unit amounts taken. */
  function PortionsBase(ps: seq<Portion>): real
    decreases |ps|
  {
    if ps == [] then 0.0 else ps[0].inBaseUnit + PortionsBase(ps[1..])
  }

  /** Σ taken × price: the cost `consumeQuantityFifo` returns. */
  function Cost(ps: seq<Portion>): real
    decreases |ps|
  {
    if ps == [] then 0.0 else ps[0].inBatchUnit * ps[0].purchasePrice + Cost(ps[1..])
  }

  /** Σ tolerance × factor: the most `returnToHub` can lose to deletions. */
  function Slack(ps: seq<Portion>): real
    decreases |ps|
  {
    if ps == [] then 0.0 else Tolerance * ps[0].conversionFactor + Slack(ps[1..])
  }

  /** One batch's amounts: the portion is exact, it is `min(need, batch)`,
      and it and what is still needed add up to what was needed. */
  lemma TakeFromAmounts(b: Batch, scope: Scope, need: real, dropNearEmpty: bool)
    requires b.conversionFactor > 0.0 && need > 0.0
    ensures var s := TakeFrom(b, scope, need, dropNearEmpty);
      PortionsBase(s.portions) + s.need == need && AllExact(s.portions) && |s.portions| <= 1
      && (s.portions == [] <==> !Takes(scope, b) || BaseQuantity(b) <= 0.0)
      && (s.portions != [] ==> s.need == if need <= BaseQuantity(b) then 0.0 else need - BaseQuantity(b))
  {
    var base := BaseQuantity(b);
    if Takes(scope, b) && base > 0.0 {
      var take := if need < base then need else base;
      DivideBack(take, b.conversionFactor);
      var s := TakeFrom(b, scope, need, dropNearEmpty);
      assert s.portions[1..] == [];
    }
  }

  /** Taking at most a batch's base quantity leaves it sound. */
  lemma TakeFits(b: Batch, take: real)
    requires Sound(b) && 0.0 < take <= BaseQuantity(b)
    ensures Sound(b.(quantityRemaining := b.quantityRemaining - take / b.conversionFactor))
  {
    var f := b.conversionFactor;
    assert take / f <= (b.quantityRemaining * f) / f;
    assert (b.quantityRemaining * f) / f == b.quantityRemaining;
  }

  lemma ReducedBase(b: Batch, take: real)
    requires b.conversionFactor > 0.0
    ensures BaseQuantity(b.(quantityRemaining := b.quantityRemaining - take / b.conversionFactor)) == BaseQuantity(b) - take
  {
    var f := b.conversionFactor;
    assert (b.quantityRemaining - take / f) * f == b.quantityRemaining * f - (take / f) * f;
    DivideBack(take, f);
  }

  /** A deleted batch held at least what was taken from it and at most the
      tolerance more. */
  lemma DeletedBase(b: Batch, take: real)
    requires Sound(b) && 0.0 < take <= BaseQuantity(b)
    requires b.quantityRemaining <= take / b.conversionFactor + Tolerance
    ensures take <= BaseQuantity(b) <= take + Tolerance * b.conversionFactor
  {
    var f := b.conversionFactor;
    assert b.quantityRemaining * f <= (take / f + Tolerance) * f;
    assert (take / f + Tolerance) * f == (take / f) * f + Tolerance * f;
    DivideBack(take, f);
  }

  /** One batch's state: kept sound and in place, or deleted only under
      `returnToHub`'s rule; a batch left short of the need is emptied. */
  lemma TakeFromBatches(b: Batch, scope: Scope, need: real, dropNearEmpty: bool)
    requires Sound(b) && need > 0.0
    ensures var s := TakeFrom(b, scope, need, dropNearEmpty);
      |s.kept| <= 1 && (forall k :: 0 <= k < |s.kept| ==> Sound(s.kept[k]) && SameKey(s.kept[k], b))
      && (s.portions == [] ==> s.kept == [b])
      && (!dropNearEmpty ==> |s.kept| == 1 && s.kept[0] == b.(quantityRemaining := s.kept[0].quantityRemaining))
      && (!dropNearEmpty && s.portions != [] && s.need > 0.0 ==> BaseQuantity(s.kept[0]) <= 0.0)
  {
    var base := BaseQuantity(b);
    if Takes(scope, b) && base > 0.0 {
      var take := if need < base then need else base;
      TakeFits(b, take);
      ReducedBase(b, take);
    }
  }

  /** One batch's quantity: it loses the portion taken (and, when deleted,
      at most the tolerance more) at the locations that portion counts for. */
  lemma TakeFromQuantity(b: Batch, scope: Scope, need: real, dropNearEmpty: bool, where: Option<Location>)
    requires Sound(b) && need > 0.0
    requires where.None? || scope.AtLocation?
    ensures var s := TakeFrom(b, scope, need, dropNearEmpty);
      if Counted(scope, where) then
        QuantityIn([b], where) - PortionsBase(s.portions) - (if dropNearEmpty then Slack(s.portions) else 0.0)
          <= QuantityIn(s.kept, where) <= QuantityIn([b], where) - PortionsBase(s.portions)
        && (!dropNearEmpty ==> QuantityIn(s.kept, where) == QuantityIn([b], where) - PortionsBase(s.portions))
      else QuantityIn(s.kept, where) == QuantityIn([b], where)
  {
    var base := BaseQuantity(b);
    var s := TakeFrom(b, scope, need, dropNearEmpty);
    assert [b][1..] == [];
    if Takes(scope, b) && base > 0.0 {
      var take := if need < base then need else base;
      assert s.portions[1..] == [];
      if dropNearEmpty && b.quantityRemaining <= take / b.conversionFactor + Tolerance {
        DeletedBase(b, take);
      } else {
        ReducedBase(b, take);
        assert s.kept[1..] == [];
      }
    }
  }

  datatype Drained = Drained(batches: seq<Batch>, portions: seq<Portion>, left: real)

  /** The shared loop of `consumeQuantityFifo`, `transferToProject` and
      `returnToHub`, oldest batch first: stop once nothing is left to take,
      otherwise let the next batch give up what it can. */
  function Drain(bs: seq<Batch>, scope: Scope, need: real, dropNearEmpty: bool): (r: Drained)
    requires Factored(bs)
    ensures need <= 0.0 ==> r == Drained(bs, [], need)
    decreases |bs|
  {
    if bs == [] || need <= 0.0 then Drained(bs, [], need)
    else
      assert Factored(bs[1..]) by {
        assert forall i :: 0 <= i < |bs| - 1 ==> bs[1..][i] == bs[i + 1];
      }
      var s := TakeFrom(bs[0], scope, need, dropNearEmpty);
      var rest := Drain(bs[1..], scope, s.need, dropNearEmpty);
      Drained(s.kept + rest.batches, s.portions + rest.portions, rest.left)
  }

  /** Batches and portions already processed, followed by a drain of the rest. */
  function Joined(kept: seq<Batch>, taken: seq<Portion>, d: Drained): Drained {
    Drained(kept + d.batches, taken + d.portions, d.left)
  }

  lemma DrainUnfold(bs: seq<Batch>, scope: Scope, need: real, dropNearEmpty: bool)
    requires Factored(bs) && bs != [] && need > 0.0
    ensures Factored(bs[1..])
    ensures var s := TakeFrom(bs[0], scope, need, dropNearEmpty);
      Drain(bs, scope, need, dropNearEmpty) == Joined(s.kept, s.portions, Drain(bs[1..], scope, s.need, dropNearEmpty))
  {
    FactoredTail(bs);
  }

  lemma JoinedJoined(processed: seq<Batch>, portions: seq<Portion>, kept: seq<Batch>, taken: seq<Portion>, d: Drained)
    ensures Joined(processed, portions, Joined(kept, taken, d)) == Joined(processed + kept, portions + taken, d)
  {
    assert processed + (kept + d.batches) == (processed + kept) + d.batches;
    assert portions + (taken + d.portions) == (portions + taken) + d.portions;
  }

  /** What a drain can take: the base quantity of the batches in scope. */
  function Available(bs: seq<Batch>, scope: Scope): (a: real)
    ensures a >= 0.0
    decreases |bs|
  {
    if bs == [] then 0.0
    else (if Takes(scope, bs[0]) && BaseQuantity(bs[0]) > 0.0 then BaseQuantity(bs[0]) else 0.0) + Available(bs[1..], scope)
  }

  lemma {:induction false} PortionsConcat(a: seq<Portion>, b: seq<Portion>)
    ensures PortionsBase(a + b) == PortionsBase(a) + PortionsBase(b)
    ensures Slack(a + b) == Slack(a) + Slack(b)
    ensures AllExact(a) && AllExact(b) ==> AllExact(a + b)
    decreases |a|
  {
    if a == [] {
      assert a + b == b;
    } else {
      assert (a + b)[1..] == a[1..] + b;
      PortionsConcat(a[1..], b);
    }
  }

  lemma {:induction false} QuantityConcat(a: seq<Batch>, b: seq<Batch>, where: Option<Location>)
    ensures QuantityIn(a + b, where) == QuantityIn(a, where) + QuantityIn(b, where)
    decreases |a|
  {
    if a == [] {
      assert a + b == b;
    } else {
      assert (a + b)[1..] == a[1..] + b;
      QuantityConcat(a[1..], b, where);
    }
  }

  lemma SoundTail(bs: seq<Batch>)
    requires bs != [] && AllSound(bs)
    ensures AllSound(bs[1..]) && Factored(bs) && Factored(bs[1..]) && Sound(bs[0])
  {
    assert forall i :: 0 <= i < |bs| - 1 ==> bs[1..][i] == bs[i + 1];
  }

  lemma FactoredTail(bs: seq<Batch>)
    requires bs != [] && Factored(bs)
    ensures Factored(bs[1..])
  {
    assert forall i :: 0 <= i < |bs| - 1 ==> bs[1..][i] == bs[i + 1];
  }

  /** Every portion a drain takes is exact, and what is taken and what is
      left add up to what was asked for. */
  lemma {:induction false} DrainTakes(bs: seq<Batch>, scope: Scope, need: real, dropNearEmpty: bool)
    requires Factored(bs)
    ensures var r := Drain(bs, scope, need, dropNearEmpty);
      AllExact(r.portions) && PortionsBase(r.portions) + r.left == need
    decreases |bs|
  {
    if bs != [] && need > 0.0 {
      FactoredTail(bs);
      var s := TakeFrom(bs[0], scope, need, dropNearEmpty);
      TakeFromAmounts(bs[0], scope, need, dropNearEmpty);
      DrainTakes(bs[1..], scope, s.need, dropNearEmpty);
      PortionsConcat(s.portions, Drain(bs[1..], scope, s.need, dropNearEmpty).portions);
    }
  }

  /** Nothing is left exactly when the batches in scope hold enough;
      otherwise what is left is the shortfall. */
  lemma {:induction false} DrainLeft(bs: seq<Batch>, scope: Scope, need: real, dropNearEmpty: bool)
    requires Factored(bs) && need > 0.0
    ensures Drain(bs, scope, need, dropNearEmpty).left == if Available(bs, scope) >= need then 0.0 else need - Available(bs, scope)
    decreases |bs|
  {
    if bs != [] {
      FactoredTail(bs);
      var s := TakeFrom(bs[0], scope, need, dropNearEmpty);
      TakeFromAmounts(bs[0], scope, need, dropNearEmpty);
      if s.need > 0.0 {
        DrainLeft(bs[1..], scope, s.need, dropNearEmpty);
      }
    }
  }

  /** Every batch of `r` carries the key of a batch of `bs`. */
  predicate KeysFrom(r: seq<Batch>, bs: seq<Batch>) {
    forall k :: 0 <= k < |r| ==> KeyIn(r[k], bs)
  }

  predicate KeyIn(b: Batch, bs: seq<Batch>) {
    exists i :: 0 <= i < |bs| && SameKey(b, bs[i])
  }

  lemma KeysFromSelf(bs: seq<Batch>)
    ensures KeysFrom(bs, bs)
  {
    forall k | 0 <= k < |bs|
      ensures KeyIn(bs[k], bs)
    {
      assert SameKey(bs[k], bs[k]);
    }
  }

  /** The batches a drain keeps come first-kept-first out of the original
      ones, with their keys. */
  lemma KeptPrecedes(bs: seq<Batch>, kept: seq<Batch>, rest: seq<Batch>)
    requires bs != [] && |kept| <= 1 && forall k :: 0 <= k < |kept| ==> SameKey(kept[k], bs[0])
    requires KeysFrom(rest, bs[1..])
    requires FifoOrdered(bs) ==> FifoOrdered(rest)
    ensures FifoOrdered(bs) ==> FifoOrdered(kept + rest)
    ensures KeysFrom(kept + rest, bs)
  {
    var hr := kept + rest;
    forall k | 0 <= k < |hr|
      ensures KeyIn(hr[k], bs)
    {
      if k < |kept| {
        assert SameKey(hr[k], bs[0]);
      } else {
        assert hr[k] == rest[k - |kept|];
        var i :| 0 <= i < |bs[1..]| && SameKey(rest[k - |kept|], bs[1..][i]);
        assert SameKey(hr[k], bs[i + 1]);
      }
    }
    if FifoOrdered(bs) && kept != [] {
      forall i, j | 0 <= i < j < |hr|
        ensures Precedes(hr[i], hr[j])
      {
        if i == 0 {
          var m :| 0 <= m < |bs[1..]| && SameKey(rest[j - 1], bs[1..][m]);
          assert Precedes(bs[0], bs[m + 1]);
        } else {
          assert hr[i] == rest[i - 1] && hr[j] == rest[j - 1];
        }
      }
    }
  }

  lemma SoundConcat(a: seq<Batch>, b: seq<Batch>)
    requires AllSound(a) && AllSound(b)
    ensures AllSound(a + b)
  {
    assert forall k :: |a| <= k < |a + b| ==> (a + b)[k] == b[k - |a|];
  }

  /** A drain leaves every batch sound: never below zero. */
  lemma {:induction false} DrainSound(bs: seq<Batch>, scope: Scope, need: real, dropNearEmpty: bool)
    requires AllSound(bs)
    ensures AllSound(Drain(bs, scope, need, dropNearEmpty).batches)
    decreases |bs|
  {
    if bs != [] && need > 0.0 {
      SoundTail(bs);
      var s := TakeFrom(bs[0], scope, need, dropNearEmpty);
      TakeFromBatches(bs[0], scope, need, dropNearEmpty);
      DrainSound(bs[1..], scope, s.need, dropNearEmpty);
      SoundConcat(s.kept, Drain(bs[1..], scope, s.need, dropNearEmpty).batches);
    }
  }

  /** A drain invents no batch and keeps the order. */
  lemma {:induction false} DrainKeys(bs: seq<Batch>, scope: Scope, need: real, dropNearEmpty: bool)
    requires AllSound(bs)
    ensures var r := Drain(bs, scope, need, dropNearEmpty).batches;
      KeysFrom(r, bs) && (FifoOrdered(bs) ==> FifoOrdered(r))
    decreases |bs|
  {
    if bs == [] || need <= 0.0 {
      assert Drain(bs, scope, need, dropNearEmpty).batches == bs;
      KeysFromSelf(bs);
    } else {
      SoundTail(bs);
      var s := TakeFrom(bs[0], scope, need, dropNearEmpty);
      TakeFromBatches(bs[0], scope, need, dropNearEmpty);
      DrainKeys(bs[1..], scope, s.need, dropNearEmpty);
      FifoTail(bs);
      KeptPrecedes(bs, s.kept, Drain(bs[1..], scope, s.need, dropNearEmpty).batches);
    }
  }

  lemma FifoTail(bs: seq<Batch>)
    requires bs != []
    ensures FifoOrdered(bs) ==> FifoOrdered(bs[1..])
  {
    assert forall i :: 0 <= i < |bs| - 1 ==> bs[1..][i] == bs[i + 1];
  }

  /** A drain takes its portions from the batches in scope and nowhere
      else: exactly, or, with `returnToHub`'s deletions, up to the
      tolerance per portion. */
  lemma {:induction false} DrainQuantity(bs: seq<Batch>, scope: Scope, need: real, dropNearEmpty: bool, where: Option<Location>)
    requires AllSound(bs)
    requires where.None? || scope.AtLocation?
    ensures var r := Drain(bs, scope, need, dropNearEmpty);
      if Counted(scope, where) then
        QuantityIn(bs, where) - PortionsBase(r.portions) - (if dropNearEmpty then Slack(r.portions) else 0.0)
          <= QuantityIn(r.batches, where) <= QuantityIn(bs, where) - PortionsBase(r.portions)
        && (!dropNearEmpty ==> QuantityIn(r.batches, where) == QuantityIn(bs, where) - PortionsBase(r.portions))
      else QuantityIn(r.batches, where) == QuantityIn(bs, where)
    decreases |bs|
  {
    if bs != [] && need > 0.0 {
      SoundTail(bs);
      var s := TakeFrom(bs[0], scope, need, dropNearEmpty);
      TakeFromQuantity(bs[0], scope, need, dropNearEmpty, where);
      DrainQuantity(bs[1..], scope, s.need, dropNearEmpty, where);
      var rest := Drain(bs[1..], scope, s.need, dropNearEmpty);
      QuantityConcat(s.kept, rest.batches, where);
      QuantityConcat([bs[0]], bs[1..], where);
      assert [bs[0]] + bs[1..] == bs;
      PortionsConcat(s.portions, rest.portions);
    }
  }

  /** A drain over a non-empty list with something still needed: the first
      batch's remainder, then the drain of the rest for what is still
      needed. */
  lemma DrainHead(bs: seq<Batch>, scope: Scope, need: real, dropNearEmpty: bool)
    requires AllSound(bs) && bs != [] && need > 0.0
    ensures Factored(bs[1..])
    ensures var s := TakeFrom(bs[0], scope, need, dropNearEmpty);
      Drain(bs, scope, need, dropNearEmpty).batches == s.kept + Drain(bs[1..], scope, s.need, dropNearEmpty).batches
  {
    SoundTail(bs);
  }

  /** Without deletions, the batches keep their places, and only the
      remaining quantities of batches in scope change. */
  lemma {:induction false} DrainPlaces(bs: seq<Batch>, scope: Scope, need: real)
    requires AllSound(bs)
    ensures var r := Drain(bs, scope, need, false).batches;
      |r| == |bs|
      && (forall k :: 0 <= k < |bs| ==> r[k] == bs[k].(quantityRemaining := r[k].quantityRemaining))
      && (forall k :: 0 <= k < |bs| && !Takes(scope, bs[k]) ==> r[k] == bs[k])
    decreases |bs|
  {
    if bs != [] && need > 0.0 {
      SoundTail(bs);
      var s := TakeFrom(bs[0], scope, need, false);
      TakeFromBatches(bs[0], scope, need, false);
      TakeFromAmounts(bs[0], scope, need, false);
      DrainPlaces(bs[1..], scope, s.need);
      DrainHead(bs, scope, need, false);
      var rest := Drain(bs[1..], scope, s.need, false).batches;
      var r := Drain(bs, scope, need, false).batches;
      forall k | 0 <= k < |bs|
        ensures r[k] == bs[k].(quantityRemaining := r[k].quantityRemaining)
        ensures !Takes(scope, bs[k]) ==> r[k] == bs[k]
      {
        if k > 0 {
          assert r[k] == rest[k - 1] && bs[k] == bs[1..][k - 1];
        } else {
          assert r[0] == s.kept[0];
        }
      }
    }
  }

  /** A batch in scope is touched only once every earlier batch in scope
      is empty. */
  lemma {:induction false} DrainOrder(bs: seq<Batch>, scope: Scope, need: real)
    requires AllSound(bs)
    ensures var r := Drain(bs, scope, need, false).batches;
      forall i, j :: 0 <= i < j < |bs| && j < |r| && Takes(scope, bs[i]) && r[j] != bs[j] ==> BaseQuantity(r[i]) <= 0.0
    decreases |bs|
  {
    if bs != [] && need > 0.0 {
      SoundTail(bs);
      var s := TakeFrom(bs[0], scope, need, false);
      TakeFromBatches(bs[0], scope, need, false);
      TakeFromAmounts(bs[0], scope, need, false);
      DrainOrder(bs[1..], scope, s.need);
      DrainHead(bs, scope, need, false);
      var rest := Drain(bs[1..], scope, s.need, false).batches;
      var r := Drain(bs, scope, need, false).batches;
      if s.need <= 0.0 {
        assert rest == bs[1..];
      }
      forall i, j | 0 <= i < j < |bs| && j < |r| && Takes(scope, bs[i]) && r[j] != bs[j]
        ensures BaseQuantity(r[i]) <= 0.0
      {
        assert r[j] == rest[j - 1] && bs[j] == bs[1..][j - 1];
        if i == 0 {
          assert s.need > 0.0;
          assert r[0] == s.kept[0];
        } else {
          assert r[i] == rest[i - 1] && bs[i] == bs[1..][i - 1];
        }
      }
    }
  }

  /** FIFO: without deletions, the batches keep their places, only the
      remaining quantities of batches in scope change, and a batch is
      touched only once every earlier batch in scope is empty. */
  lemma DrainFifo(bs: seq<Batch>, scope: Scope, need: real)
    requires AllSound(bs)
    ensures var r := Drain(bs, scope, need, false).batches;
      |r| == |bs|
      && (forall k :: 0 <= k < |bs| ==> r[k] == bs[k].(quantityRemaining := r[k].quantityRemaining))
      && (forall k :: 0 <= k < |bs| && !Takes(scope, bs[k]) ==> r[k] == bs[k])
      && (forall i, j :: 0 <= i < j < |bs| && Takes(scope, bs[i]) && r[j] != bs[j] ==> BaseQuantity(r[i]) <= 0.0)
  {
    DrainPlaces(bs, scope, need);
    DrainOrder(bs, scope, need);
  }

  /** The example of two kilogram batches, 30 at 45 and then 50 at 50: a
      consumption of 60 empties the first, leaves 20 in the second, and
      costs 30·45 + 30·50 = 2850. */
  lemma ConsumptionSpansBatches()
    ensures var older := Batch(1, Hub, "kg", 1.0, 45.0, 30.0, 30.0, 1, None);
      var newer := Batch(2, Hub, "kg", 1.0, 50.0, 50.0, 50.0, 16, None);
      var d := Drain([older, newer], AnyActive, 60.0, false);
      Cost(d.portions) == 2850.0 && d.left == 0.0
      && d.batches == [older.(quantityRemaining := 0.0), newer.(quantityRemaining := 20.0)]
  {
    var older := Batch(1, Hub, "kg", 1.0, 45.0, 30.0, 30.0, 1, None);
    var newer := Batch(2, Hub, "kg", 1.0, 50.0, 50.0, 50.0, 16, None);
    var s1 := TakeFrom(older, AnyActive, 60.0, false);
    assert s1 == Taken([older.(quantityRemaining := 0.0)], [Portion("kg", 1.0, 45.0, 30.0, 30.0, 1, None)], 30.0);
    var s2 := TakeFrom(newer, AnyActive, 30.0, false);
    assert s2 == Taken([newer.(quantityRemaining := 20.0)], [Portion("kg", 1.0, 50.0, 30.0, 30.0, 16, None)], 0.0);
    assert [older, newer][1..] == [newer];
    assert [newer][1..] == [];
    var d2 := Drain([newer], AnyActive, 30.0, false);
    assert d2 == Joined(s2.kept, s2.portions, Drained([], [], 0.0));
    var d := Drain([older, newer], AnyActive, 60.0, false);
    assert d == Joined(s1.kept, s1.portions, d2);
    assert d.portions[1..] == s2.portions;
    assert s2.portions[1..] == [];
  }

  // ------------------------------------------------------------------
  // New batches for what was moved

  /** The batch `ResourceBatch::create` makes from a portion at `loc`; the
      generated batch number is not modelled. */
  function NewBatch(p: Portion, loc: Location, id: nat): Batch {
    Batch(id, loc, p.unitType, p.conversionFactor, p.purchasePrice, p.inBatchUnit, p.inBatchUnit, p.purchaseDate, p.supplier)
  }

  lemma NewBatchBase(p: Portion, loc: Location, id: nat)
    requires Exact(p)
    ensures BaseQuantity(NewBatch(p, loc, id)) == p.inBaseUnit
  {
  }

  /** The creation loop: the portions become batches with the next ids, in
      order. */
  function Placed(bs: seq<Batch>, ps: seq<Portion>, loc: Location, firstId: nat): seq<Batch>
    decreases |ps|
  {
    if ps == [] then bs
    else Insert(Placed(bs, ps[..|ps| - 1], loc, firstId), NewBatch(ps[|ps| - 1], loc, firstId + |ps| - 1))
  }

  lemma SoundFactored(bs: seq<Batch>)
    requires AllSound(bs)
    ensures Factored(bs)
  {
  }

  lemma ExactSplit(ps: seq<Portion>)
    requires ps != [] && AllExact(ps)
    ensures AllExact(ps[..|ps| - 1]) && Exact(ps[|ps| - 1])
  {
    assert forall k :: 0 <= k < |ps| - 1 ==> ps[..|ps| - 1][k] == ps[k];
  }

  lemma PortionsBaseLast(ps: seq<Portion>)
    requires ps != []
    ensures PortionsBase(ps) == PortionsBase(ps[..|ps| - 1]) + ps[|ps| - 1].inBaseUnit
  {
    var p := ps[|ps| - 1];
    assert ps[..|ps| - 1] + [p] == ps;
    assert [p][1..] == [];
    PortionsConcat(ps[..|ps| - 1], [p]);
  }

  lemma PlacedStep(bs: seq<Batch>, ps: seq<Portion>, k: nat, loc: Location, firstId: nat)
    requires k < |ps|
    ensures Placed(bs, ps[..k + 1], loc, firstId) == Insert(Placed(bs, ps[..k], loc, firstId), NewBatch(ps[k], loc, firstId + k))
  {
    assert ps[..k + 1][..k] == ps[..k];
  }

  /** A new batch adds its portion's base amount at `loc`. */
  lemma InsertNew(bs: seq<Batch>, p: Portion, loc: Location, id: nat, where: Option<Location>)
    requires Exact(p)
    ensures QuantityIn(Insert(bs, NewBatch(p, loc, id)), where) ==
      QuantityIn(bs, where) + (if where.None? || loc == where.value then p.inBaseUnit else 0.0)
  {
    NewBatchBase(p, loc, id);
    InsertQuantity(bs, NewBatch(p, loc, id), where);
  }

  /** So does the last portion placed. */
  lemma PlacedLast(bs: seq<Batch>, ps: seq<Portion>, loc: Location, firstId: nat, where: Option<Location>)
    requires ps != [] && Exact(ps[|ps| - 1])
    ensures QuantityIn(Placed(bs, ps, loc, firstId), where) ==
      QuantityIn(Placed(bs, ps[..|ps| - 1], loc, firstId), where)
      + (if where.None? || loc == where.value then ps[|ps| - 1].inBaseUnit else 0.0)
  {
    InsertNew(Placed(bs, ps[..|ps| - 1], loc, firstId), ps[|ps| - 1], loc, firstId + |ps| - 1, where);
  }

  /** The new batches add exactly the portions' base amounts at `loc`. */
  lemma {:induction false} PlacedQuantity(bs: seq<Batch>, ps: seq<Portion>, loc: Location, firstId: nat, where: Option<Location>)
    requires AllExact(ps)
    ensures QuantityIn(Placed(bs, ps, loc, firstId), where) ==
      QuantityIn(bs, where) + (if where.None? || loc == where.value then PortionsBase(ps) else 0.0)
    decreases |ps|
  {
    if ps != [] {
      var n := |ps| - 1;
      ExactSplit(ps);
      PlacedQuantity(bs, ps[..n], loc, firstId, where);
      PlacedLast(bs, ps, loc, firstId, where);
      PortionsBaseLast(ps);
    }
  }

  /** The new batches are sound, have fresh ids and keep the order. */
  lemma {:induction false} PlacedSound(bs: seq<Batch>, ps: seq<Portion>, loc: Location, firstId: nat)
    requires AllSound(bs) && FifoOrdered(bs)
    requires forall i :: 0 <= i < |bs| ==> bs[i].id < firstId
    requires AllExact(ps)
    ensures var r := Placed(bs, ps, loc, firstId);
      AllSound(r) && FifoOrdered(r) && forall i :: 0 <= i < |r| ==> r[i].id < firstId + |ps|
    decreases |ps|
  {
    if ps != [] {
      var init := ps[..|ps| - 1];
      var p := ps[|ps| - 1];
      ExactSplit(ps);
      PlacedSound(bs, init, loc, firstId);
      var before := Placed(bs, init, loc, firstId);
      var b := NewBatch(p, loc, firstId + |ps| - 1);
      DivideBack(p.inBaseUnit, p.conversionFactor);
      InsertOrdered(before, b);
      InsertElements(before, b);
      var r := Insert(before, b);
      forall i | 0 <= i < |r|
        ensures Sound(r[i]) && r[i].id < firstId + |ps|
      {
        if r[i] != b {
          var m :| 0 <= m < |before| && before[m] == r[i];
        }
      }
    }
  }

  // ------------------------------------------------------------------
  // What the three operations do to the quantities

  /** For sound batches, what a drain can take is what the batches hold. */
  lemma {:induction false} AvailableIsQuantity(bs: seq<Batch>, loc: Location)
    requires AllSound(bs)
    ensures Available(bs, AnyActive) == QuantityIn(bs, None)
    ensures Available(bs, AtLocation(loc)) == QuantityIn(bs, Some(loc))
    ensures QuantityIn(bs, Some(loc)) <= QuantityIn(bs, None)
    decreases |bs|
  {
    if bs != [] {
      SoundTail(bs);
      AvailableIsQuantity(bs[1..], loc);
    }
  }

  /** `consumeQuantityFifo` with the hub's quantity covering the request
      (as `hasSufficientQuantity` checks when the stored quantity is in
      sync): all of it is taken, from the resource's batches as a whole. */
  lemma ConsumeTakesAll(bs: seq<Batch>, quantity: real)
    requires AllSound(bs) && 0.0 < quantity <= QuantityIn(bs, Some(Hub))
    ensures var d := Drain(bs, AnyActive, quantity, false);
      d.left == 0.0 && PortionsBase(d.portions) == quantity
      && QuantityIn(d.batches, None) == QuantityIn(bs, None) - quantity
  {
    SoundFactored(bs);
    AvailableIsQuantity(bs, Hub);
    DrainLeft(bs, AnyActive, quantity, false);
    DrainTakes(bs, AnyActive, quantity, false);
    DrainQuantity(bs, AnyActive, quantity, false, None);
  }

  /** `transferToProject` with enough at the hub: the hub loses exactly the
      quantity, the project gains it, every other place is unchanged. */
  lemma TransferMoves(bs: seq<Batch>, project: Id, quantity: real, firstId: nat, where: Option<Location>)
    requires AllSound(bs) && 0.0 < quantity <= QuantityIn(bs, Some(Hub))
    ensures var d := Drain(bs, AtLocation(Hub), quantity, false);
      var r := Placed(d.batches, d.portions, Project(project), firstId);
      QuantityIn(r, where) == QuantityIn(bs, where)
        + (if where == Some(Hub) then -quantity else if where == Some(Project(project)) then quantity else 0.0)
  {
    SoundFactored(bs);
    AvailableIsQuantity(bs, Hub);
    DrainLeft(bs, AtLocation(Hub), quantity, false);
    DrainTakes(bs, AtLocation(Hub), quantity, false);
    DrainQuantity(bs, AtLocation(Hub), quantity, false, where);
    var d := Drain(bs, AtLocation(Hub), quantity, false);
    PlacedQuantity(d.batches, d.portions, Project(project), firstId, where);
  }

  /** `returnToHub` with enough at the project: the hub gains exactly the
      quantity; the project loses it, and up to the tolerance more per
      batch drained for each batch deleted as near-empty. */
  lemma ReturnMoves(bs: seq<Batch>, project: Id, quantity: real, firstId: nat, where: Option<Location>)
    requires AllSound(bs) && 0.0 < quantity <= QuantityIn(bs, Some(Project(project)))
    ensures var d := Drain(bs, AtLocation(Project(project)), quantity, true);
      var r := Placed(d.batches, d.portions, Hub, firstId);
      (where == Some(Hub) ==> QuantityIn(r, where) == QuantityIn(bs, where) + quantity)
      && (where == Some(Project(project)) ==>
        QuantityIn(bs, where) - quantity - Slack(d.portions) <= QuantityIn(r, where) <= QuantityIn(bs, where) - quantity)
      && (where.None? ==> QuantityIn(bs, where) - Slack(d.portions) <= QuantityIn(r, where) <= QuantityIn(bs, where))
      && (where != Some(Hub) && where != Some(Project(project)) && where.Some? ==> QuantityIn(r, where) == QuantityIn(bs, where))
  {
    var scope := AtLocation(Project(project));
    SoundFactored(bs);
    AvailableIsQuantity(bs, Project(project));
    DrainLeft(bs, scope, quantity, true);
    DrainTakes(bs, scope, quantity, true);
    DrainQuantity(bs, scope, quantity, true, where);
    var d := Drain(bs, scope, quantity, true);
    PlacedQuantity(d.batches, d.portions, Hub, firstId, where);
  }

  // ------------------------------------------------------------------
  // The resource

  datatype BatchError =
    | NonPositiveQuantity
    | InsufficientQuantity(available: real, required: real)
    | InsufficientHub(available: real, requested: real)
    | InsufficientProject(available: real, requested: real)
    /** A call to a query scope the batch model does not define. */
    | UndefinedScope(name: string)

  datatype TransferKind = WarehouseToProject | ProjectToWarehouse

  /** A `ResourceTransfer` audit row; who and when are not modelled. */
  datatype TransferRecord = TransferRecord(from: Location, to: Location, quantity: real, kind: TransferKind)

  /** The creation loop: one `ResourceBatch::create` per portion, each
      with the next id. */
  method PlaceAll(bs: seq<Batch>, ps: seq<Portion>, loc: Location, firstId: nat) returns (r: seq<Batch>)
    ensures r == Placed(bs, ps, loc, firstId)
  {
    r := bs;
    var k := 0;
    while k < |ps|
      invariant 0 <= k <= |ps|
      invariant r == Placed(bs, ps[..k], loc, firstId)
    {
      PlacedStep(bs, ps, k, loc, firstId);
      r := Insert(r, NewBatch(ps[k], loc, firstId + k));
      k := k + 1;
    }
    assert ps[..k] == ps;
  }

  /** One iteration of the drain loop, as the source computes it. */
  method TakeFromBatch(batch: Batch, scope: Scope, remaining: real, dropNearEmpty: bool)
    returns (kept: seq<Batch>, taken: seq<Portion>, stillNeeded: real)
    requires batch.conversionFactor > 0.0
    ensures TakeFrom(batch, scope, remaining, dropNearEmpty) == Taken(kept, taken, stillNeeded)
  {
    var baseQuantity := batch.quantityRemaining * batch.conversionFactor;
    if !Takes(scope, batch) || baseQuantity <= 0.0 {
      return [batch], [], remaining;
    }
    var take := if remaining < baseQuantity then remaining else baseQuantity;
    var inBatchUnit := take / batch.conversionFactor;
    taken := [Portion(batch.unitType, batch.conversionFactor, batch.purchasePrice, inBatchUnit, take,
      batch.purchaseDate, batch.supplier)];
    if dropNearEmpty && batch.quantityRemaining <= inBatchUnit + Tolerance {
      kept := [];
    } else {
      kept := [batch.(quantityRemaining := batch.quantityRemaining - inBatchUnit)];
    }
    stillNeeded := remaining - take;
  }

  /** The drain loop over the batch sequence. */
  method DrainBatches(bs: seq<Batch>, scope: Scope, need: real, dropNearEmpty: bool) returns (r: Drained)
    requires Factored(bs)
    ensures r == Drain(bs, scope, need, dropNearEmpty)
  {
    var processed: seq<Batch> := [];
    var portions: seq<Portion> := [];
    var remaining := need;
    var i := 0;
    while i < |bs|
      invariant 0 <= i <= |bs|
      invariant Factored(bs[i..])
      invariant Drain(bs, scope, need, dropNearEmpty) == Joined(processed, portions, Drain(bs[i..], scope, remaining, dropNearEmpty))
    {
      if remaining <= 0.0 {
        break;
      }
      ghost var here := bs[i..];
      assert here[0] == bs[i] && here[1..] == bs[i + 1..];
      DrainUnfold(here, scope, remaining, dropNearEmpty);
      var kept, taken, stillNeeded := TakeFromBatch(bs[i], scope, remaining, dropNearEmpty);
      JoinedJoined(processed, portions, kept, taken, Drain(bs[i + 1..], scope, stillNeeded, dropNearEmpty));
      processed := processed + kept;
      portions := portions + taken;
      remaining := stillNeeded;
      i := i + 1;
    }
    assert portions + [] == portions;
    r := Drained(processed + bs[i..], portions, remaining);
  }

  class Resource {
    var totalQuantity: real
    var availableQuantity: real
    var purchasePrice: real
    /** This resource's batches, in the order the FIFO queries read them. */
    var batches: seq<Batch>
    /** The next auto-increment batch id. */
    var nextBatchId: nat
    var transfers: seq<TransferRecord>

    predicate Valid()
      reads this
    {
      AllSound(batches) && FifoOrdered(batches) && forall i :: 0 <= i < |batches| ==> batches[i].id < nextBatchId
    }

    /** The central hub's quantity, as the batches say. */
    function HubQuantity(): real
      reads this
    {
      QuantityIn(batches, Some(Hub))
    }

    /** The stored quantity agrees with the hub's batches. */
    predicate Synced()
      reads this
    {
      availableQuantity == HubQuantity()
    }

    constructor ()
      ensures Valid() && batches == [] && transfers == [] && availableQuantity == 0.0
    {
      totalQuantity := 0.0;
      availableQuantity := 0.0;
      purchasePrice := 0.0;
      batches := [];
      nextBatchId := 1;
      transfers := [];
    }

    /** `hasSufficientQuantity`. */
    predicate HasSufficientQuantity(required: real)
      reads this
    {
      availableQuantity >= required
    }

    /** `syncQuantityFromBatches`: the stored quantity becomes the base
        quantity of the hub's batches. It saves quietly, so the saving hook
        does not run. */
    method SyncQuantityFromBatches()
      modifies this
      ensures Synced() && availableQuantity >= 0.0 <== Valid()
      ensures availableQuantity == QuantityIn(batches, Some(Hub))
      ensures batches == old(batches) && nextBatchId == old(nextBatchId) && transfers == old(transfers)
      ensures totalQuantity == old(totalQuantity) && purchasePrice == old(purchasePrice)
    {
      availableQuantity := QuantityIn(batches, Some(Hub));
      if Valid() {
        QuantityNonNegative(batches, Some(Hub));
      }
    }

    /** `consumeQuantityFifo`: rejected unless the stored quantity covers
        the request; otherwise every active batch, hub or project, is
        drained oldest-first and the cost of what was taken is returned. */
    method ConsumeQuantityFifo(quantity: real) returns (r: Result<real, BatchError>)
      requires Valid()
      modifies this
      ensures Valid()
      ensures !old(HasSufficientQuantity(quantity)) ==>
        r == Err(InsufficientQuantity(old(availableQuantity), quantity)) && batches == old(batches)
        && availableQuantity == old(availableQuantity)
      ensures old(HasSufficientQuantity(quantity)) ==>
        var d := Drain(old(batches), AnyActive, quantity, false);
        r == Ok(Cost(d.portions)) && batches == d.batches && Synced()
      ensures nextBatchId == old(nextBatchId) && transfers == old(transfers)
      ensures totalQuantity == old(totalQuantity) && purchasePrice == old(purchasePrice)
    {
      if !HasSufficientQuantity(quantity) {
        return Err(InsufficientQuantity(availableQuantity, quantity));
      }
      SoundFactored(batches);
      var d := DrainBatches(batches, AnyActive, quantity, false);
      DrainSound(batches, AnyActive, quantity, false);
      DrainKeys(batches, AnyActive, quantity, false);
      DrainTakes(batches, AnyActive, quantity, false);
      batches := d.batches;
      SyncQuantityFromBatches();
      r := Ok(Cost(d.portions));
    }

    /** The loop creating the moved batches at `loc`. */
    method PlaceBatches(ps: seq<Portion>, loc: Location)
      requires Valid() && AllExact(ps)
      modifies this
      ensures Valid()
      ensures batches == Placed(old(batches), ps, loc, old(nextBatchId)) && nextBatchId == old(nextBatchId) + |ps|
      ensures availableQuantity == old(availableQuantity) && transfers == old(transfers)
      ensures totalQuantity == old(totalQuantity) && purchasePrice == old(purchasePrice)
    {
      PlacedSound(batches, ps, loc, nextBatchId);
      batches := PlaceAll(batches, ps, loc, nextBatchId);
      nextBatchId := nextBatchId + |ps|;
    }

    /** `transferToProject`: rejected for a non-positive quantity or when
        the stored hub quantity is short; otherwise the hub's batches are
        drained oldest-first, the taken portions become project batches
        with the same price, unit and factor, and the move is recorded. */
    method TransferToProject(project: Id, quantity: real) returns (r: Result<(), BatchError>)
      requires Valid()
      modifies this
      ensures Valid()
      ensures quantity <= 0.0 ==> r == Err(NonPositiveQuantity)
      ensures quantity > 0.0 && old(availableQuantity) < quantity ==> r == Err(InsufficientHub(old(availableQuantity), quantity))
      ensures r.Err? ==> batches == old(batches) && transfers == old(transfers) && availableQuantity == old(availableQuantity)
      ensures r.Ok? <==> quantity > 0.0 && old(availableQuantity) >= quantity
      ensures r.Ok? ==>
        var d := Drain(old(batches), AtLocation(Hub), quantity, false);
        batches == Placed(d.batches, d.portions, Project(project), old(nextBatchId))
        && transfers == old(transfers) + [TransferRecord(Hub, Project(project), quantity, WarehouseToProject)]
        && Synced()
        && nextBatchId == old(nextBatchId) + |d.portions|
      ensures r.Err? ==> nextBatchId == old(nextBatchId)
      ensures totalQuantity == old(totalQuantity) && purchasePrice == old(purchasePrice)
    {
      if quantity <= 0.0 {
        return Err(NonPositiveQuantity);
      }
      if availableQuantity < quantity {
        return Err(InsufficientHub(availableQuantity, quantity));
      }
      SoundFactored(batches);
      var d := DrainBatches(batches, AtLocation(Hub), quantity, false);
      DrainSound(batches, AtLocation(Hub), quantity, false);
      DrainKeys(batches, AtLocation(Hub), quantity, false);
      DrainTakes(batches, AtLocation(Hub), quantity, false);
      IdsBelow(batches, AtLocation(Hub), quantity, false, nextBatchId);
      batches := d.batches;
      PlaceBatches(d.portions, Project(project));
      transfers := transfers + [TransferRecord(Hub, Project(project), quantity, WarehouseToProject)];
      SyncQuantityFromBatches();
      r := Ok(());
    }

    /** `returnToHub`: rejected for a non-positive quantity or when the
        project's batches hold less; otherwise they are drained
        oldest-first (a batch within the tolerance of empty is deleted),
        the portions become hub batches, and the move is recorded. */
    method ReturnToHub(project: Id, quantity: real) returns (r: Result<(), BatchError>)
      requires Valid()
      modifies this
      ensures Valid()
      ensures quantity <= 0.0 ==> r == Err(NonPositiveQuantity)
      ensures quantity > 0.0 && QuantityIn(old(batches), Some(Project(project))) < quantity ==>
        r == Err(InsufficientProject(QuantityIn(old(batches), Some(Project(project))), quantity))
      ensures r.Err? ==> batches == old(batches) && transfers == old(transfers) && availableQuantity == old(availableQuantity)
      ensures r.Ok? <==> quantity > 0.0 && QuantityIn(old(batches), Some(Project(project))) >= quantity
      ensures r.Ok? ==>
        var d := Drain(old(batches), AtLocation(Project(project)), quantity, true);
        batches == Placed(d.batches, d.portions, Hub, old(nextBatchId))
        && transfers == old(transfers) + [TransferRecord(Project(project), Hub, quantity, ProjectToWarehouse)]
        && Synced()
        && nextBatchId == old(nextBatchId) + |d.portions|
      ensures r.Err? ==> nextBatchId == old(nextBatchId)
      ensures totalQuantity == old(totalQuantity) && purchasePrice == old(purchasePrice)
    {
      if quantity <= 0.0 {
        return Err(NonPositiveQuantity);
      }
      var projectQuantity := QuantityIn(batches, Some(Project(project)));
      if projectQuantity < quantity {
        return Err(InsufficientProject(projectQuantity, quantity));
      }
      SoundFactored(batches);
      var d := DrainBatches(batches, AtLocation(Project(project)), quantity, true);
      DrainSound(batches, AtLocation(Project(project)), quantity, true);
      DrainKeys(batches, AtLocation(Project(project)), quantity, true);
      DrainTakes(batches, AtLocation(Project(project)), quantity, true);
      IdsBelow(batches, AtLocation(Project(project)), quantity, true, nextBatchId);
      batches := d.batches;
      PlaceBatches(d.portions, Hub);
      transfers := transfers + [TransferRecord(Project(project), Hub, quantity, ProjectToWarehouse)];
      SyncQuantityFromBatches();
      r := Ok(());
    }

    // The relation scopes as written: the batch model defines neither
    // `centralHub` nor `forProject`, so each call to one fails.

    /** `syncQuantityFromBatches` as written: the `centralHub` call fails
        before the stored quantity is assigned or saved. */
    method SyncQuantityFromBatchesAsWritten() returns (r: Result<(), BatchError>)
      ensures r == Err(UndefinedScope("centralHub"))
    {
      r := Err(UndefinedScope("centralHub"));
    }

    /** `consumeQuantityFifo` as written: the drain saves each reduced batch
        and only then does the closing sync fail, so the batches are reduced
        while the stored quantity keeps its old value. */
    method ConsumeQuantityFifoAsWritten(quantity: real) returns (r: Result<real, BatchError>)
      requires Valid()
      modifies this
      ensures Valid()
      ensures !old(HasSufficientQuantity(quantity)) ==>
        r == Err(InsufficientQuantity(old(availableQuantity), quantity)) && batches == old(batches)
      ensures old(HasSufficientQuantity(quantity)) ==>
        r == Err(UndefinedScope("centralHub")) && batches == Drain(old(batches), AnyActive, quantity, false).batches
      ensures availableQuantity == old(availableQuantity) && nextBatchId == old(nextBatchId) && transfers == old(transfers)
      ensures totalQuantity == old(totalQuantity) && purchasePrice == old(purchasePrice)
    {
      if !HasSufficientQuantity(quantity) {
        return Err(InsufficientQuantity(availableQuantity, quantity));
      }
      SoundFactored(batches);
      var d := DrainBatches(batches, AnyActive, quantity, false);
      DrainSound(batches, AnyActive, quantity, false);
      DrainKeys(batches, AnyActive, quantity, false);
      DrainTakes(batches, AnyActive, quantity, false);
      batches := d.batches;
      var synced := SyncQuantityFromBatchesAsWritten();
      r := Err(synced.error);
    }

    /** `transferToProject` as written: both checks run as in the intended
        method, then the `centralHub` query fails before anything is
        written. */
    method TransferToProjectAsWritten(project: Id, quantity: real) returns (r: Result<(), BatchError>)
      ensures quantity <= 0.0 ==> r == Err(NonPositiveQuantity)
      ensures quantity > 0.0 && availableQuantity < quantity ==> r == Err(InsufficientHub(availableQuantity, quantity))
      ensures quantity > 0.0 && availableQuantity >= quantity ==> r == Err(UndefinedScope("centralHub"))
    {
      if quantity <= 0.0 {
        return Err(NonPositiveQuantity);
      }
      if availableQuantity < quantity {
        return Err(InsufficientHub(availableQuantity, quantity));
      }
      r := Err(UndefinedScope("centralHub"));
    }

    /** `returnToHub` as written: after the sign check the `forProject`
        query fails, before the project's quantity is even computed. */
    method ReturnToHubAsWritten(project: Id, quantity: real) returns (r: Result<(), BatchError>)
      ensures quantity <= 0.0 ==> r == Err(NonPositiveQuantity)
      ensures quantity > 0.0 ==> r == Err(UndefinedScope("forProject"))
    {
      if quantity <= 0.0 {
        return Err(NonPositiveQuantity);
      }
      r := Err(UndefinedScope("forProject"));
    }
  }

  /** A drain keeps the batches' ids. */
  lemma IdsBelow(bs: seq<Batch>, scope: Scope, need: real, dropNearEmpty: bool, bound: nat)
    requires AllSound(bs) && forall i :: 0 <= i < |bs| ==> bs[i].id < bound
    ensures var r := Drain(bs, scope, need, dropNearEmpty).batches;
      forall k :: 0 <= k < |r| ==> r[k].id < bound
  {
    DrainKeys(bs, scope, need, dropNearEmpty);
    var r := Drain(bs, scope, need, dropNearEmpty).batches;
    forall k | 0 <= k < |r|
      ensures r[k].id < bound
    {
      var i :| 0 <= i < |bs| && SameKey(r[k], bs[i]);
    }
  }

  /** The as-written consumption on the two-batch example, with the stored
      quantity in sync at 80: the call fails after draining, so the hub's
      batches hold 20 while the stored quantity still says 80. */
  lemma StaleHubQuantity()
    ensures var older := Batch(1, Hub, "kg", 1.0, 45.0, 30.0, 30.0, 1, None);
      var newer := Batch(2, Hub, "kg", 1.0, 50.0, 50.0, 50.0, 16, None);
      QuantityIn([older, newer], Some(Hub)) == 80.0
      && QuantityIn(Drain([older, newer], AnyActive, 60.0, false).batches, Some(Hub)) == 20.0
  {
    ConsumptionSpansBatches();
    var older := Batch(1, Hub, "kg", 1.0, 45.0, 30.0, 30.0, 1, None);
    var newer := Batch(2, Hub, "kg", 1.0, 50.0, 50.0, 50.0, 16, None);
    assert [older, newer][1..] == [newer] && [newer][1..] == [];
    assert QuantityIn([newer], Some(Hub)) == 50.0;
    var after := [older.(quantityRemaining := 0.0), newer.(quantityRemaining := 20.0)];
    assert after[1..] == [newer.(quantityRemaining := 20.0)] && after[1..][1..] == [];
    assert QuantityIn(after[1..], Some(Hub)) == 20.0;
  }
}
