/**
 * The tower layout used to draw a solution: each pallet is a column set `spacing` apart along x,
 * and its items are stacked in index order, each one on top of the previous, in its chosen
 * orientation. The three-dimensional view uses a spacing of 2.5 computed as `p * 2.5`; the
 * alternative view uses 2.0 added once per pallet. Both are one layout with a spacing parameter.
 */
module Layout {
  import opened Items
  import opened Solution
  import opened Placement

  const SpacingInteractive: real := 2.5
  const SpacingAlternative: real := 2.0

  /** One drawn box: which item on which pallet, its lower corner, and its oriented size. */
  datatype Box = Box(item: nat, pallet: nat, x0: real, y0: real, z0: real, size: Dims)

  /** The height of the tower on pallet p built from the items before index k. */
  function StackHeight(items: seq<Item>, x: seq<seq<bool>>, r: seq<seq<bool>>, p: nat, k: nat): real
    requires k <= |items|
  {
    if k == 0 then 0.0
    else StackHeight(items, x, r, p, k - 1) + (if At(x, k - 1, p) then OrientedDims(items[k - 1], r, k - 1).h else 0.0)
  }

  /** Where slot s goes: on its pallet's column, at y 0, on top of the pallet's lower-indexed items. */
  function BoxFor(items: seq<Item>, x: seq<seq<bool>>, r: seq<seq<bool>>, s: Slot, spacing: real): Box
    requires s.item < |items|
  {
    Box(s.item, s.pallet, s.pallet as real * spacing, 0.0,
        StackHeight(items, x, r, s.pallet, s.item), OrientedDims(items[s.item], r, s.item))
  }

  /**
   * The drawing loop: walk the pallets, and on each one the items placed there, reading each
   * item's orientation and raising the pallet's cursor by the oriented height. The boxes come in
   * traversal order, each at the place BoxFor gives it; `tops` holds each pallet's final cursor.
   */
  method TowerLayout(items: seq<Item>, x: seq<seq<bool>>, r: seq<seq<bool>>, pallets: nat, spacing: real)
    returns (boxes: seq<Box>, tops: seq<real>)
    requires OrientationsReadable(|items|, x, r, pallets)
    ensures |boxes| == |Placed(x, |items|, pallets)|
    ensures forall t :: 0 <= t < |boxes| ==>
              Placed(x, |items|, pallets)[t].item < |items| &&
              boxes[t] == BoxFor(items, x, r, Placed(x, |items|, pallets)[t], spacing)
    ensures |tops| == pallets
    ensures forall p :: 0 <= p < pallets ==> tops[p] == StackHeight(items, x, r, p, |items|)
  {
    var n := |items|;
    boxes, tops := [], [];
    var offset := 0.0;
    for p := 0 to pallets
      invariant offset == p as real * spacing
      invariant |tops| == p
      invariant forall q :: 0 <= q < p ==> tops[q] == StackHeight(items, x, r, q, n)
      invariant |boxes| == |Placed(x, n, p)|
      invariant forall t :: 0 <= t < |boxes| ==>
                  Placed(x, n, p)[t].item < n && boxes[t] == BoxFor(items, x, r, Placed(x, n, p)[t], spacing)
    {
      var tower, zTop := StackPallet(items, x, r, p, offset, spacing);
      boxes := boxes + tower;
      tops := tops + [zTop];
      offset := offset + spacing;
    }
  }

  /** The inner loop of the drawing: the boxes of pallet p's tower, bottom to top, and its final cursor. */
  method StackPallet(items: seq<Item>, x: seq<seq<bool>>, r: seq<seq<bool>>, p: nat, offset: real, spacing: real)
    returns (tower: seq<Box>, zTop: real)
    requires offset == p as real * spacing
    requires forall i :: 0 <= i < |items| && At(x, i, p) ==> Orientation(r, i).Some?
    ensures |tower| == |PalletRow(x, p, |items|)|
    ensures forall t :: 0 <= t < |tower| ==>
              PalletRow(x, p, |items|)[t].item < |items| &&
              tower[t] == BoxFor(items, x, r, PalletRow(x, p, |items|)[t], spacing)
    ensures zTop == StackHeight(items, x, r, p, |items|)
  {
    var n := |items|;
    tower, zTop := [], 0.0;
    for i := 0 to n
      invariant zTop == StackHeight(items, x, r, p, i)
      invariant |tower| == |PalletRow(x, p, i)|
      invariant forall t :: 0 <= t < |tower| ==>
                  PalletRow(x, p, i)[t].item < n && tower[t] == BoxFor(items, x, r, PalletRow(x, p, i)[t], spacing)
    {
      if At(x, i, p) {
        var k := FindOrientation(r, i);
        var size := Permutations(items[i].l, items[i].w, items[i].h)[k];
        assert Box(i, p, offset, 0.0, zTop, size) == BoxFor(items, x, r, Slot(p, i), spacing);
        assert PalletRow(x, p, i + 1) == PalletRow(x, p, i) + [Slot(p, i)];
        tower := tower + [Box(i, p, offset, 0.0, zTop, size)];
        zTop := zTop + size.h;
      } else {
        assert PalletRow(x, p, i + 1) == PalletRow(x, p, i);
      }
    }
  }

  // ---- the towers ----

  /** Items with positive dimensions, as every item of a batch has. */
  predicate PositiveDims(items: seq<Item>)
  {
    forall i :: 0 <= i < |items| ==> items[i].l > 0.0 && items[i].w > 0.0 && items[i].h > 0.0
  }

  /** Whatever the orientation, an item with positive dimensions has a positive height. */
  lemma OrientedHeightPositive(items: seq<Item>, r: seq<seq<bool>>, i: nat)
    requires PositiveDims(items) && i < |items|
    ensures OrientedDims(items[i], r, i).h > 0.0
  {
    var it := items[i];
    match Orientation(r, i)
    case None =>
    case Some(k) =>
      var d := Permutations(it.l, it.w, it.h)[k];
      assert d.h in multiset{d.l, d.w, d.h};
  }

  /** With positive heights a tower only grows as items are added. */
  lemma {:induction false} StackHeightMonotone(items: seq<Item>, x: seq<seq<bool>>, r: seq<seq<bool>>, p: nat, a: nat, b: nat)
    requires PositiveDims(items) && a <= b <= |items|
    ensures StackHeight(items, x, r, p, a) <= StackHeight(items, x, r, p, b)
    decreases b
  {
    if a < b {
      StackHeightMonotone(items, x, r, p, a, b - 1);
      OrientedHeightPositive(items, r, b - 1);
    }
  }

  /**
   * Boxes on the same pallet do not overlap vertically: an item placed below a later one ends
   * at or under the later one's base, and every box ends at or under the pallet's final top.
   */
  lemma StackedWithoutOverlap(items: seq<Item>, x: seq<seq<bool>>, r: seq<seq<bool>>, p: nat, i: nat, j: nat)
    requires PositiveDims(items)
    requires i < j < |items| && At(x, i, p)
    ensures StackHeight(items, x, r, p, i) + OrientedDims(items[i], r, i).h <= StackHeight(items, x, r, p, j)
    ensures StackHeight(items, x, r, p, i) + OrientedDims(items[i], r, i).h <= StackHeight(items, x, r, p, |items|)
  {
    StackHeightMonotone(items, x, r, p, i + 1, j);
    StackHeightMonotone(items, x, r, p, j, |items|);
  }

  /**
   * Consecutive items of a tower touch: when no item between i and j is on pallet p, item j's
   * base is exactly item i's top.
   */
  lemma {:induction false} StackedContiguously(items: seq<Item>, x: seq<seq<bool>>, r: seq<seq<bool>>, p: nat, i: nat, j: nat)
    requires i < j <= |items| && At(x, i, p)
    requires forall m :: i < m < j ==> !At(x, m, p)
    ensures StackHeight(items, x, r, p, j) == StackHeight(items, x, r, p, i) + OrientedDims(items[i], r, i).h
    decreases j
  {
    if j > i + 1 {
      StackedContiguously(items, x, r, p, i, j - 1);
    }
  }

  /** A pallet with no items has an empty tower. */
  lemma {:induction false} EmptyTower(items: seq<Item>, x: seq<seq<bool>>, r: seq<seq<bool>>, p: nat, k: nat)
    requires k <= |items| && PalletCount(x, p, k) == 0
    ensures StackHeight(items, x, r, p, k) == 0.0
  {
    if k > 0 {
      EmptyTower(items, x, r, p, k - 1);
    }
  }
}
