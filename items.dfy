/** Items, pallet configurations and the six-entry orientation table. */
module Items {

  datatype Option<T> = None | Some(value: T)

  /** The number of axis permutations an item may be placed in. */
  const OrientationCount: nat := 6

  /**
   * One item of a batch. `vol` and `mass` are already integer micro-units and milli-units;
   * `l`, `w`, `h` are the metric dimensions used only for the layout. `priority` is
   * `None` when the record has no priority key.
   */
  datatype Item = Item(
    id: int,
    name: string,
    category: string,
    l: real, w: real, h: real,
    vol: int,
    mass: int,
    fragile: bool,
    rotatable: bool,
    priority: Option<int>,
    destination: string)

  /** A pallet configuration: how many pallets, and the capacity of each one. */
  datatype PalletConfig = PalletConfig(count: nat, capacityMass: int, capacityVolume: int, kind: string)

  /** The weight an item carries in the objective; an item without a priority weighs 1. */
  function Priority(it: Item): int
  {
    match it.priority
    case Some(v) => v
    case None => 1
  }

  /** Items whose integer volume and mass are not negative, as they are when computed from positive dimensions. */
  predicate NonNegative(items: seq<Item>)
  {
    forall i :: 0 <= i < |items| ==> items[i].vol >= 0 && items[i].mass >= 0
  }

  datatype Dims = Dims(l: real, w: real, h: real)

  /** Dimensions d are an arrangement of (l, w, h): the same three values, in some order. */
  predicate IsRearrangement(d: Dims, l: real, w: real, h: real)
  {
    multiset{d.l, d.w, d.h} == multiset{l, w, h}
  }

  /** The orientation table: the six arrangements of `(l, w, h)`, the first of them the canonical one. */
  function Permutations(l: real, w: real, h: real): (r: seq<Dims>)
    ensures |r| == OrientationCount
    ensures r[0] == Dims(l, w, h)
    ensures forall k :: 0 <= k < |r| ==> IsRearrangement(r[k], l, w, h)
  {
    var r := [Dims(l, w, h), Dims(l, h, w),
              Dims(w, l, h), Dims(w, h, l),
              Dims(h, l, w), Dims(h, w, l)];
    SwapsRearrange(l, w, h);
    assert forall k :: 0 <= k < |r| ==> r[k] in {Dims(l, w, h), Dims(l, h, w), Dims(w, l, h), Dims(w, h, l), Dims(h, l, w), Dims(h, w, l)};
    r
  }

  /** The six arrangements, each reached from the canonical one by swapping neighbours. */
  lemma SwapsRearrange(l: real, w: real, h: real)
    ensures IsRearrangement(Dims(l, w, h), l, w, h)
    ensures IsRearrangement(Dims(l, h, w), l, w, h)
    ensures IsRearrangement(Dims(w, l, h), l, w, h)
    ensures IsRearrangement(Dims(w, h, l), l, w, h)
    ensures IsRearrangement(Dims(h, l, w), l, w, h)
    ensures IsRearrangement(Dims(h, w, l), l, w, h)
  {
    SwapFirst(l, w, h);
    SwapLast(l, w, h);
    SwapFirst(l, h, w);
    SwapLast(w, l, h);
    SwapFirst(w, h, l);
    SwapLast(h, l, w);
  }

  lemma SwapFirst(a: real, b: real, c: real)
    ensures multiset{b, a, c} == multiset{a, b, c}
  {
  }

  lemma SwapLast(a: real, b: real, c: real)
    ensures multiset{a, c, b} == multiset{a, b, c}
  {
  }

  /** Every orientation has the same volume as the item. */
  lemma OrientedVolume(l: real, w: real, h: real, k: nat)
    requires k < OrientationCount
    ensures Permutations(l, w, h)[k].l * Permutations(l, w, h)[k].w * Permutations(l, w, h)[k].h == l * w * h
  {
    var d := Permutations(l, w, h)[k];
    if k == 1 {
      assert d == Dims(l, h, w);
    } else if k == 2 {
      assert d == Dims(w, l, h);
    } else if k == 3 {
      assert d == Dims(w, h, l);
    } else if k == 4 {
      assert d == Dims(h, l, w);
    } else if k == 5 {
      assert d == Dims(h, w, l);
    }
  }

  /** When the three dimensions differ, the six entries are six different arrangements: the table lists every orientation once. */
  lemma PermutationsDistinct(l: real, w: real, h: real, j: nat, k: nat)
    requires l != w && w != h && l != h
    requires j < OrientationCount && k < OrientationCount && j != k
    ensures Permutations(l, w, h)[j] != Permutations(l, w, h)[k]
  {
  }
}
