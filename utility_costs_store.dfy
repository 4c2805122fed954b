/** `src/store/utility-costs.ts`: the unit price of each utility type.
    The store keeps whatever list it is given and tops it up with a
    zero-priced entry for every type the list lacks. */
module UtilityCostsStore {
  import opened Types
  import opened Seqs
  import opened JsonValue

  /** `defaultCosts`: electricity, water and garbage, all free. */
  const DefaultCosts: seq<UtilCost> := [UtilCost(Electric, 0.0), UtilCost(Water, 0.0), UtilCost(Garbage, 0.0)]

  function TypeOf(c: UtilCost): UtilType { c.utilType }

  /** The position of a type in the default list. */
  function Rank(t: UtilType): (r: nat)
    ensures r < |DefaultCosts| && DefaultCosts[r].utilType == t
  {
    match t
    case Electric => 0
    case Water => 1
    case Garbage => 2
  }

  /** `costs.some(cost => cost.type === t)`. */
  predicate HasType(costs: seq<UtilCost>, t: UtilType) {
    exists i :: 0 <= i < |costs| && costs[i].utilType == t
  }

  /** One round of the `forEach` in `setCosts`: push the default when its
      type is missing. */
  function AddMissing(costs: seq<UtilCost>, d: UtilCost): seq<UtilCost> {
    if HasType(costs, d.utilType) then costs else costs + [d]
  }

  /** The list after the rounds for the defaults `ds`, in order. */
  function AddDefaults(costs: seq<UtilCost>, ds: seq<UtilCost>): seq<UtilCost> {
    if ds == [] then costs else AddMissing(AddDefaults(costs, ds[..|ds| - 1]), ds[|ds| - 1])
  }

  /** What `setCosts(costs)` stores. */
  function WithDefaults(costs: seq<UtilCost>): seq<UtilCost> {
    AddDefaults(costs, DefaultCosts)
  }

  lemma WithDefaultsSteps(costs: seq<UtilCost>)
    ensures WithDefaults(costs)
         == AddMissing(AddMissing(AddMissing(costs, DefaultCosts[0]), DefaultCosts[1]), DefaultCosts[2])
  {
    var d := DefaultCosts;
    assert d[..3] == d && d[..2][..1] == d[..1] && d[..1][..0] == [];
    assert AddDefaults(costs, d[..1]) == AddMissing(costs, d[0]);
    assert AddDefaults(costs, d[..2]) == AddMissing(AddDefaults(costs, d[..1]), d[1]);
    assert AddDefaults(costs, d) == AddMissing(AddDefaults(costs, d[..2]), d[2]);
  }

  /** A round leaves its default's type present. */
  lemma AddMissingHas(costs: seq<UtilCost>, d: UtilCost)
    ensures HasType(AddMissing(costs, d), d.utilType)
  {
    if !HasType(costs, d.utilType) {
      assert AddMissing(costs, d)[|costs|] == d;
    }
  }

  /** `setCosts` keeps the given list, in order, as a prefix; every entry
      after it is a free default of a type the list lacked, in the order
      electricity, water, garbage; afterwards every type is present. */
  lemma SetCostsProperties(costs: seq<UtilCost>)
    ensures var r := WithDefaults(costs);
            && |costs| <= |r| <= |costs| + 3
            && r[..|costs|] == costs
            && (forall t :: HasType(r, t))
            && (forall k :: |costs| <= k < |r| ==> r[k].price == 0.0 && !HasType(costs, r[k].utilType))
            && (forall j, k :: |costs| <= j < k < |r| ==> Rank(r[j].utilType) < Rank(r[k].utilType))
  {
    SetCostsShape(costs);
    SetCostsCoverTypes(costs);
  }

  /** The given list, then the missing defaults in rank order. */
  lemma SetCostsShape(costs: seq<UtilCost>)
    ensures var r := WithDefaults(costs);
            && |costs| <= |r| <= |costs| + 3
            && r[..|costs|] == costs
            && (forall k :: |costs| <= k < |r| ==> r[k].price == 0.0 && !HasType(costs, r[k].utilType))
            && (forall j, k :: |costs| <= j < k < |r| ==> Rank(r[j].utilType) < Rank(r[k].utilType))
  {
    WithDefaultsSteps(costs);
    var r := WithDefaults(costs);
    var a := AddMissing(costs, DefaultCosts[0]);
    var b := AddMissing(a, DefaultCosts[1]);
    assert r == AddMissing(b, DefaultCosts[2]);
    assert a[..|costs|] == costs && b[..|a|] == a && r[..|b|] == b;
    assert forall k :: |costs| <= k < |a| ==> a[k] == DefaultCosts[0] && !HasType(costs, Electric);
    assert forall k :: |a| <= k < |b| ==> b[k] == DefaultCosts[1] && !HasType(a, Water);
    assert forall k :: |b| <= k < |r| ==> r[k] == DefaultCosts[2] && !HasType(b, Garbage);
  }

  /** After `setCosts` every type has an entry. */
  lemma SetCostsCoverTypes(costs: seq<UtilCost>)
    ensures forall t :: HasType(WithDefaults(costs), t)
  {
    WithDefaultsSteps(costs);
    var r := WithDefaults(costs);
    var a := AddMissing(costs, DefaultCosts[0]);
    var b := AddMissing(a, DefaultCosts[1]);
    assert r == AddMissing(b, DefaultCosts[2]);
    assert b[..|a|] == a && r[..|b|] == b;
    AddMissingHas(costs, DefaultCosts[0]);
    AddMissingHas(a, DefaultCosts[1]);
    AddMissingHas(b, DefaultCosts[2]);
    forall t ensures HasType(r, t) {
      var i := Rank(t);
      var l := if i == 0 then a else if i == 1 then b else r;
      assert HasType(l, t);
      var j :| 0 <= j < |l| && l[j].utilType == t;
      assert r[j] == l[j];
    }
  }

  /** A list that already has every type is stored as given, so setting the
      stored list again changes nothing. */
  lemma SetCostsComplete(costs: seq<UtilCost>)
    requires forall t :: HasType(costs, t)
    ensures WithDefaults(costs) == costs
  {
    WithDefaultsSteps(costs);
  }

  lemma SetCostsIdempotent(costs: seq<UtilCost>)
    ensures WithDefaults(WithDefaults(costs)) == WithDefaults(costs)
  {
    SetCostsProperties(costs);
    SetCostsComplete(WithDefaults(costs));
  }

  /** What `updateCost(t, price)` stores. */
  function Updated(costs: seq<UtilCost>, t: UtilType, price: real): (r: seq<UtilCost>)
    ensures |r| == |costs|
    ensures forall i :: 0 <= i < |costs| ==>
              r[i] == (if costs[i].utilType == t then UtilCost(t, price) else costs[i])
  {
    seq(|costs|, i requires 0 <= i < |costs| =>
      if costs[i].utilType == t then costs[i].(price := price) else costs[i])
  }

  /** `costs.find(c => c.type === t)?.price ?? 0`. */
  function PriceOf(costs: seq<UtilCost>, t: UtilType): (p: real)
    ensures !HasType(costs, t) ==> p == 0.0
    ensures HasType(costs, t) ==> p == costs[FirstIndex(costs, TypeOf, t)].price
  {
    if costs == [] then 0.0
    else if costs[0].utilType == t then (assert TypeOf(costs[0]) == t; costs[0].price)
    else
      var rest := costs[1..];
      assert HasType(costs, t) ==> HasType(rest, t) && FirstIndex(costs, TypeOf, t) == 1 + FirstIndex(rest, TypeOf, t) by {
        if HasType(costs, t) {
          var j :| 0 <= j < |costs| && costs[j].utilType == t;
          assert rest[j - 1].utilType == t;
          FirstIndexIs(costs, TypeOf, t, 1 + FirstIndex(rest, TypeOf, t));
        }
      }
      PriceOf(rest, t)
  }

  /** After `updateCost(t, p)`, `getCost(t)` is `p` if some entry has type
      `t` (and still 0 otherwise); the other types read as before. */
  lemma PriceAfterUpdate(costs: seq<UtilCost>, t: UtilType, price: real, u: UtilType)
    ensures PriceOf(Updated(costs, t, price), u)
         == if u == t && HasType(costs, t) then price else PriceOf(costs, u)
  {
    var r := Updated(costs, t, price);
    assert forall i :: 0 <= i < |costs| ==> r[i].utilType == costs[i].utilType;
    assert HasType(r, u) <==> HasType(costs, u) by {
      if HasType(r, u) {
        var j :| 0 <= j < |r| && r[j].utilType == u;
        assert costs[j].utilType == u;
      }
      if HasType(costs, u) {
        var j :| 0 <= j < |costs| && costs[j].utilType == u;
        assert r[j].utilType == u;
      }
    }
    if HasType(costs, u) {
      var f := FirstIndex(costs, TypeOf, u);
      FirstIndexIs(r, TypeOf, u, f);
    }
  }

  /** `getCost` after `setCosts`: the price of an existing type is still
      read from the given list, a missing type reads 0. */
  lemma PriceAfterSetCosts(costs: seq<UtilCost>, t: UtilType)
    ensures PriceOf(WithDefaults(costs), t) == PriceOf(costs, t)
  {
    SetCostsProperties(costs);
    var r := WithDefaults(costs);
    assert forall i :: 0 <= i < |costs| ==> r[i] == costs[i] by {
      assert r[..|costs|] == costs;
    }
    if HasType(costs, t) {
      var f := FirstIndex(costs, TypeOf, t);
      FirstIndexIs(r, TypeOf, t, f);
    } else {
      assert HasType(r, t);
      var f := FirstIndex(r, TypeOf, t);
      assert f >= |costs|;
    }
  }

  class Store {
    var costs: seq<UtilCost>

    constructor()
      ensures costs == DefaultCosts
    {
      costs := DefaultCosts;
    }

    /** `setCosts`: copy the list, then push each missing default in turn. */
    method SetCosts(given: seq<UtilCost>)
      modifies this
      ensures costs == WithDefaults(given)
    {
      var newCosts := given;
      for i := 0 to |DefaultCosts|
        invariant newCosts == AddDefaults(given, DefaultCosts[..i])
      {
        var d := DefaultCosts[i];
        var present := false;
        for k := 0 to |newCosts|
          invariant present <==> exists j :: 0 <= j < k && newCosts[j].utilType == d.utilType
        {
          if newCosts[k].utilType == d.utilType {
            present := true;
          }
        }
        if !present {
          newCosts := newCosts + [d];
        }
        assert DefaultCosts[..i + 1][..i] == DefaultCosts[..i];
      }
      assert DefaultCosts[..|DefaultCosts|] == DefaultCosts;
      costs := newCosts;
    }

    /** `updateCost`: re-price every entry of that type. */
    method UpdateCost(t: UtilType, price: real)
      modifies this
      ensures costs == Updated(old(costs), t, price)
    {
      costs := Updated(costs, t, price);
    }

    /** `getCost`: the first entry of that type, or 0. */
    method GetCost(t: UtilType) returns (p: real)
      ensures p == PriceOf(costs, t)
    {
      p := 0.0;
      var i := 0;
      while i < |costs| && costs[i].utilType != t
        invariant 0 <= i <= |costs|
        invariant forall j :: 0 <= j < i ==> costs[j].utilType != t
      {
        i := i + 1;
      }
      if i < |costs| {
        FirstIndexIs(costs, TypeOf, t, i);
        p := costs[i].price;
      }
    }
  }

  /** The named cost sets the printing stage reads and an import replaces.
      `src/store/utility-costs.ts` as it stands has no such members; this
      class holds just what `importCostSets` is called with, the records of
      an import file after migration. */
  class CostSetsStore {
    var costSets: seq<Json>

    constructor()
      ensures costSets == []
    {
      costSets := [];
    }

    /** `importCostSets`: replace the list. */
    method ImportCostSets(sets: seq<Json>)
      modifies this
      ensures costSets == sets
    {
      costSets := sets;
    }
  }
}
