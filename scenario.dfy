/**
 * A worked instance of the constraint model: three items of one volume unit and one mass unit
 * each, and one pallet holding two units of each. Capacity allows two of the three items, and an
 * optimal load takes exactly two.
 */
module Scenarios {
  import opened Items
  import opened Solution
  import opened Metrics

  /** Three unit items with positive priorities, and one pallet of capacity two in mass and volume. */
  predicate ThreeUnitItems(items: seq<Item>, cfg: PalletConfig)
  {
    && |items| == 3
    && (forall i :: 0 <= i < 3 ==> items[i].vol == 1 && items[i].mass == 1 && Priority(items[i]) >= 1)
    && cfg.count == 1 && cfg.capacityMass == 2 && cfg.capacityVolume == 2
  }

  /** Items a and b on the pallet, the third one off, all in the canonical orientation, nothing stacked. */
  function LoadPair(a: nat, b: nat): (v: Values)
    ensures forall i :: 0 <= i < 3 ==> (At(v.x, i, 0) <==> i == a || i == b)
  {
    Values(seq(3, i => [i == a || i == b]), seq(3, _ => [true, false, false, false, false, false]), [])
  }

  /** 1 when item i is on the pallet. */
  function On(x: seq<seq<bool>>, i: nat): nat
  {
    if At(x, i, 0) then 1 else 0
  }

  /** With unit items on one pallet, the ledgers and the assigned count all count the items on, and the value adds their priorities. */
  lemma UnitTotals(items: seq<Item>, cfg: PalletConfig, x: seq<seq<bool>>)
    requires ThreeUnitItems(items, cfg)
    ensures PalletMass(items, x, 0, 3) == On(x, 0) + On(x, 1) + On(x, 2)
    ensures PalletVolume(items, x, 0, 3) == On(x, 0) + On(x, 1) + On(x, 2)
    ensures AssignedItems(x, cfg.count, 3) == On(x, 0) + On(x, 1) + On(x, 2)
    ensures LoadedValue(items, x, cfg.count, 3) ==
              (if At(x, 0, 0) then Priority(items[0]) else 0) +
              (if At(x, 1, 0) then Priority(items[1]) else 0) +
              (if At(x, 2, 0) then Priority(items[2]) else 0)
  {
    assert PalletMass(items, x, 0, 1) == On(x, 0);
    assert PalletMass(items, x, 0, 2) == On(x, 0) + On(x, 1);
    assert PalletVolume(items, x, 0, 1) == On(x, 0);
    assert PalletVolume(items, x, 0, 2) == On(x, 0) + On(x, 1);
    forall i | 0 <= i < 3 ensures RowCount(x, i, 1) == On(x, i) {
      assert RowCount(x, i, 0) == 0;
    }
    assert AssignedItems(x, 1, 1) == On(x, 0);
    assert AssignedItems(x, 1, 2) == On(x, 0) + On(x, 1);
    assert LoadedValue(items, x, 1, 1) == (if At(x, 0, 0) then Priority(items[0]) else 0);
  }

  /** Loading any two of the three items is valid, and its value is the two items' priorities. */
  lemma PairLoadValid(items: seq<Item>, cfg: PalletConfig, a: nat, b: nat)
    requires ThreeUnitItems(items, cfg)
    requires a < 3 && b < 3 && a != b
    ensures ValidSolution(items, cfg, LoadPair(a, b))
    ensures LoadedValue(items, LoadPair(a, b).x, cfg.count, 3) == Priority(items[a]) + Priority(items[b])
  {
    var v := LoadPair(a, b);
    forall i | 0 <= i < 3
      ensures ItemAllowed(items, cfg.count, v.x, v.r, i)
    {
      RowCountOnlyFirst(v.r, i, OrientationCount);
    }
    UnitTotals(items, cfg, v.x);
    assert PalletWithinCapacity(items, cfg, v.x, 0);
  }

  /** Capacity lets at most two of the three items on. */
  lemma AtMostTwoLoaded(items: seq<Item>, cfg: PalletConfig, v: Values)
    requires ThreeUnitItems(items, cfg)
    requires ValidSolution(items, cfg, v)
    ensures AssignedItems(v.x, cfg.count, 3) <= 2
  {
    UnitTotals(items, cfg, v.x);
    assert PalletWithinCapacity(items, cfg, v.x, 0);
  }

  /**
   * A load of the largest value — what an OPTIMAL answer returns — has exactly two items on the
   * pallet, and its value is that of the best pair: no pair is worth more, and one pair is worth
   * exactly as much.
   */
  lemma OptimumLoadsTwo(items: seq<Item>, cfg: PalletConfig, v: Values)
    requires ThreeUnitItems(items, cfg)
    requires ValidSolution(items, cfg, v)
    requires forall w :: ValidSolution(items, cfg, w) ==>
               LoadedValue(items, w.x, cfg.count, 3) <= LoadedValue(items, v.x, cfg.count, 3)
    ensures AssignedItems(v.x, cfg.count, 3) == 2
    ensures forall a: nat, b: nat :: a < 3 && b < 3 && a != b ==>
              Priority(items[a]) + Priority(items[b]) <= LoadedValue(items, v.x, cfg.count, 3)
    ensures exists a: nat, b: nat :: a < 3 && b < 3 && a != b &&
              LoadedValue(items, v.x, cfg.count, 3) == Priority(items[a]) + Priority(items[b])
  {
    AtMostTwoLoaded(items, cfg, v);
    UnitTotals(items, cfg, v.x);
    if AssignedItems(v.x, cfg.count, 3) < 2 {
      // at most one item is on: pair it, or item 0, with another one and the value goes up
      var a := if At(v.x, 1, 0) then 1 else if At(v.x, 2, 0) then 2 else 0;
      var b := if a == 0 then 1 else 0;
      PairLoadValid(items, cfg, a, b);
      assert false;
    }
    forall a: nat, b: nat | a < 3 && b < 3 && a != b
      ensures Priority(items[a]) + Priority(items[b]) <= LoadedValue(items, v.x, cfg.count, 3)
    {
      PairLoadValid(items, cfg, a, b);
    }
    // exactly two items are on: the pair of them is the witness
    var a: nat, b: nat := if At(v.x, 0, 0) then 0 else 1, if At(v.x, 2, 0) then 2 else 1;
    assert a < 3 && b < 3 && a != b && LoadedValue(items, v.x, cfg.count, 3) == Priority(items[a]) + Priority(items[b]);
  }
}
