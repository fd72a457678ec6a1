/**
 * The allocation record of the downloadable results: one entry per placed item, giving the
 * item's index, its pallet, the orientation index read from the solution, and the item record.
 */
module Allocation {
  import opened Items
  import opened Solution
  import opened Metrics
  import opened Placement

  datatype AllocEntry = AllocEntry(itemId: nat, pallet: nat, orientation: nat, item: Item)

  /**
   * Walk the pallets, and on each one the items placed there, appending one entry per placed
   * item. The entries follow the traversal order, and each records the slot it came from, the
   * item at that index and the orientation the lookup finds for it.
   */
  method BuildAllocation(items: seq<Item>, x: seq<seq<bool>>, r: seq<seq<bool>>, pallets: nat)
    returns (entries: seq<AllocEntry>)
    requires OrientationsReadable(|items|, x, r, pallets)
    ensures |entries| == |Placed(x, |items|, pallets)|
    ensures forall t :: 0 <= t < |entries| ==>
              && Slot(entries[t].pallet, entries[t].itemId) == Placed(x, |items|, pallets)[t]
              && entries[t].itemId < |items|
              && entries[t].item == items[entries[t].itemId]
              && Orientation(r, entries[t].itemId) == Some(entries[t].orientation)
  {
    var n := |items|;
    entries := [];
    for p := 0 to pallets
      invariant |entries| == |Placed(x, n, p)|
      invariant forall t :: 0 <= t < |entries| ==>
                  && Slot(entries[t].pallet, entries[t].itemId) == Placed(x, n, p)[t]
                  && entries[t].itemId < n
                  && entries[t].item == items[entries[t].itemId]
                  && Orientation(r, entries[t].itemId) == Some(entries[t].orientation)
    {
      for i := 0 to n
        invariant |entries| == |Walked(x, n, p, i)|
        invariant forall t :: 0 <= t < |entries| ==>
                    && Slot(entries[t].pallet, entries[t].itemId) == Walked(x, n, p, i)[t]
                    && entries[t].itemId < n
                    && entries[t].item == items[entries[t].itemId]
                    && Orientation(r, entries[t].itemId) == Some(entries[t].orientation)
      {
        if At(x, i, p) {
          var k := FindOrientation(r, i);
          assert Walked(x, n, p, i + 1) == Walked(x, n, p, i) + [Slot(p, i)];
          entries := entries + [AllocEntry(i, p, k, items[i])];
        } else {
          assert Walked(x, n, p, i + 1) == Walked(x, n, p, i);
        }
      }
      assert Walked(x, n, p, n) == Placed(x, n, p + 1);
    }
  }

  /**
   * For a valid solution the record has one entry per assigned item: as many as the loaded-items
   * metric, no item twice, every assigned item present, in (pallet, item) order.
   */
  lemma AllocationComplete(items: seq<Item>, cfg: PalletConfig, v: Values)
    requires |items| > 0
    requires ValidSolution(items, cfg, v)
    ensures |Placed(v.x, |items|, cfg.count)| == Summary(items, v.x, cfg).loadedItems
    ensures forall a, b :: 0 <= a < b < |Placed(v.x, |items|, cfg.count)| ==>
              Before(Placed(v.x, |items|, cfg.count)[a], Placed(v.x, |items|, cfg.count)[b]) &&
              Placed(v.x, |items|, cfg.count)[a].item != Placed(v.x, |items|, cfg.count)[b].item
    ensures forall i :: 0 <= i < |items| ==>
              (RowCount(v.x, i, cfg.count) > 0 <==>
               exists t :: 0 <= t < |Placed(v.x, |items|, cfg.count)| && Placed(v.x, |items|, cfg.count)[t].item == i)
  {
    PlacedFacts(v.x, |items|, cfg.count);
    PlacedOnce(items, cfg, v);
  }
}
