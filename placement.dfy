/**
 * The order in which a solution's placements are walked by the layout and by the allocation
 * record: pallets in index order, and within a pallet its items in index order. Also the
 * orientation lookup both use.
 */
module Placement {
  import opened Items
  import opened Solution
  import opened Metrics

  /** Item `item` placed on pallet `pallet`. */
  datatype Slot = Slot(pallet: nat, item: nat)

  /** The items i < k on pallet p, in index order. */
  function PalletRow(x: seq<seq<bool>>, p: nat, k: nat): seq<Slot>
  {
    if k == 0 then [] else PalletRow(x, p, k - 1) + (if At(x, k - 1, p) then [Slot(p, k - 1)] else [])
  }

  /** The placements of the n items on pallets p < k, pallet by pallet. */
  function Placed(x: seq<seq<bool>>, n: nat, k: nat): seq<Slot>
  {
    if k == 0 then [] else Placed(x, n, k - 1) + PalletRow(x, k - 1, n)
  }

  /** The traversal so far: every pallet before p, then pallet p's items before i. */
  function Walked(x: seq<seq<bool>>, n: nat, p: nat, i: nat): seq<Slot>
  {
    Placed(x, n, p) + PalletRow(x, p, i)
  }

  /** Lexicographic order on (pallet, item). */
  predicate Before(a: Slot, b: Slot)
  {
    a.pallet < b.pallet || (a.pallet == b.pallet && a.item < b.item)
  }

  /**
   * The orientation lookup: the first k < 6 whose flag is set for item i. The program gives up
   * when no flag is set; here the caller must rule that out.
   */
  method FindOrientation(r: seq<seq<bool>>, i: nat) returns (k: nat)
    requires Orientation(r, i).Some?
    ensures k < OrientationCount && At(r, i, k)
    ensures forall j :: 0 <= j < k ==> !At(r, i, j)
    ensures Orientation(r, i) == Some(k)
  {
    k := 0;
    while !At(r, i, k)
      invariant k < OrientationCount
      invariant FirstTrue(r, i, k, OrientationCount) == Orientation(r, i)
      invariant forall j :: 0 <= j < k ==> !At(r, i, j)
      decreases OrientationCount - k
    {
      k := k + 1;
    }
  }

  // ---- what the traversal visits ----

  /** A pallet's row is as long as the pallet's item count. */
  lemma {:induction false} PalletRowLength(x: seq<seq<bool>>, p: nat, k: nat)
    ensures |PalletRow(x, p, k)| == PalletCount(x, p, k)
  {
    if k > 0 {
      PalletRowLength(x, p, k - 1);
    }
  }

  /** A pallet's row lists only items on that pallet, in increasing index order. */
  lemma {:induction false} PalletRowSorted(x: seq<seq<bool>>, p: nat, k: nat)
    ensures forall t :: 0 <= t < |PalletRow(x, p, k)| ==>
              PalletRow(x, p, k)[t].pallet == p && PalletRow(x, p, k)[t].item < k && At(x, PalletRow(x, p, k)[t].item, p)
    ensures forall a, b :: 0 <= a < b < |PalletRow(x, p, k)| ==> PalletRow(x, p, k)[a].item < PalletRow(x, p, k)[b].item
  {
    if k > 0 {
      PalletRowSorted(x, p, k - 1);
    }
  }

  /** A pallet's row lists every item on that pallet. */
  lemma {:induction false} PalletRowComplete(x: seq<seq<bool>>, p: nat, k: nat)
    ensures forall i :: 0 <= i < k && At(x, i, p) ==> Slot(p, i) in PalletRow(x, p, k)
  {
    if k > 0 {
      PalletRowComplete(x, p, k - 1);
    }
  }

  /** The traversal is as long as the loaded-items metric. */
  lemma {:induction false} PlacedLength(x: seq<seq<bool>>, n: nat, k: nat)
    ensures |Placed(x, n, k)| == LoadedItems(x, n, k)
  {
    if k > 0 {
      PlacedLength(x, n, k - 1);
      PalletRowLength(x, k - 1, n);
    }
  }

  /** Every slot the traversal visits is a placement of the solution. */
  lemma {:induction false} PlacedSound(x: seq<seq<bool>>, n: nat, k: nat)
    ensures forall t :: 0 <= t < |Placed(x, n, k)| ==>
              Placed(x, n, k)[t].pallet < k && Placed(x, n, k)[t].item < n &&
              At(x, Placed(x, n, k)[t].item, Placed(x, n, k)[t].pallet)
  {
    if k > 0 {
      PlacedSound(x, n, k - 1);
      PalletRowSorted(x, k - 1, n);
    }
  }

  /** Every placement of the solution is visited. */
  lemma {:induction false} PlacedComplete(x: seq<seq<bool>>, n: nat, k: nat)
    ensures forall p, i :: 0 <= p < k && 0 <= i < n && At(x, i, p) ==> Slot(p, i) in Placed(x, n, k)
  {
    if k > 0 {
      var prev, row := Placed(x, n, k - 1), PalletRow(x, k - 1, n);
      PlacedComplete(x, n, k - 1);
      PalletRowComplete(x, k - 1, n);
      forall p, i | 0 <= p < k && 0 <= i < n && At(x, i, p)
        ensures Slot(p, i) in prev + row
      {
        if p < k - 1 {
          assert Slot(p, i) in prev;
        } else {
          assert Slot(p, i) in row;
        }
      }
    }
  }

  /** The traversal is strictly increasing in (pallet, item) order, so it visits no slot twice. */
  lemma {:induction false} PlacedSorted(x: seq<seq<bool>>, n: nat, k: nat)
    ensures forall a, b :: 0 <= a < b < |Placed(x, n, k)| ==> Before(Placed(x, n, k)[a], Placed(x, n, k)[b])
  {
    if k > 0 {
      var prev, row := Placed(x, n, k - 1), PalletRow(x, k - 1, n);
      PlacedSorted(x, n, k - 1);
      PlacedSound(x, n, k - 1);
      PalletRowSorted(x, k - 1, n);
      forall a, b | 0 <= a < b < |prev + row|
        ensures Before((prev + row)[a], (prev + row)[b])
      {
        if b < |prev| {
          assert Before(prev[a], prev[b]);
        } else if a < |prev| {
          assert (prev + row)[b] == row[b - |prev|];
        } else {
          assert (prev + row)[b] == row[b - |prev|] && (prev + row)[a] == row[a - |prev|];
        }
      }
    }
  }

  /**
   * The traversal visits exactly the placements of the solution — slot s appears iff item s.item
   * is on pallet s.pallet — strictly in (pallet, item) order, as many as the loaded-items metric.
   */
  lemma PlacedFacts(x: seq<seq<bool>>, n: nat, k: nat)
    ensures |Placed(x, n, k)| == LoadedItems(x, n, k)
    ensures forall t :: 0 <= t < |Placed(x, n, k)| ==>
              Placed(x, n, k)[t].pallet < k && Placed(x, n, k)[t].item < n &&
              At(x, Placed(x, n, k)[t].item, Placed(x, n, k)[t].pallet)
    ensures forall a, b :: 0 <= a < b < |Placed(x, n, k)| ==> Before(Placed(x, n, k)[a], Placed(x, n, k)[b])
    ensures forall p, i :: 0 <= p < k && 0 <= i < n && At(x, i, p) ==> Slot(p, i) in Placed(x, n, k)
  {
    PlacedLength(x, n, k);
    PlacedSound(x, n, k);
    PlacedComplete(x, n, k);
    PlacedSorted(x, n, k);
  }

  /** In a valid solution the traversal visits every assigned item exactly once, and nothing else. */
  lemma PlacedOnce(items: seq<Item>, cfg: PalletConfig, v: Values)
    requires ValidSolution(items, cfg, v)
    ensures forall a, b :: 0 <= a < b < |Placed(v.x, |items|, cfg.count)| ==>
              Placed(v.x, |items|, cfg.count)[a].item != Placed(v.x, |items|, cfg.count)[b].item
    ensures forall i :: 0 <= i < |items| ==>
              (RowCount(v.x, i, cfg.count) > 0 <==> exists t :: 0 <= t < |Placed(v.x, |items|, cfg.count)| && Placed(v.x, |items|, cfg.count)[t].item == i)
    ensures |Placed(v.x, |items|, cfg.count)| == AssignedItems(v.x, cfg.count, |items|)
  {
    var n := |items|;
    var ps := Placed(v.x, n, cfg.count);
    PlacedFacts(v.x, n, cfg.count);
    forall a, b | 0 <= a < b < |ps|
      ensures ps[a].item != ps[b].item
    {
      if ps[a].item == ps[b].item {
        SingleAssignment(items, cfg, v, ps[a].item, ps[a].pallet, ps[b].pallet);
      }
    }
    forall i | 0 <= i < n
      ensures RowCount(v.x, i, cfg.count) > 0 <==> exists t :: 0 <= t < |ps| && ps[t].item == i
    {
      RowCountZero(v.x, i, cfg.count);
      if RowCount(v.x, i, cfg.count) > 0 {
        var p :| 0 <= p < cfg.count && At(v.x, i, p);
        assert Slot(p, i) in ps;
      }
    }
    CountsBounded(items, cfg, v);
  }
}
