/**
 * Solved decision variables and the constraints a solution must meet, stated declaratively.
 * `x[i][p]`: item i is on pallet p; `r[i][k]`: item i uses orientation k; `s[i][j]`: item i rests on item j.
 */
module Solution {
  import opened Items

  datatype Values = Values(x: seq<seq<bool>>, r: seq<seq<bool>>, s: seq<seq<bool>>)

  /** The value the solver reports for entry (i, j) of a matrix; a variable outside the matrix reads as false. */
  function At(m: seq<seq<bool>>, i: nat, j: nat): bool
  {
    i < |m| && j < |m[i]| && m[i][j]
  }

  function Bit(b: bool): nat
  {
    if b then 1 else 0
  }

  /** The number of columns j < k with entry (i, j) set: for `x` the pallets holding item i, for `r` its orientation flags. */
  function RowCount(m: seq<seq<bool>>, i: nat, k: nat): nat
  {
    if k == 0 then 0 else RowCount(m, i, k - 1) + Bit(At(m, i, k - 1))
  }

  /** The number of items i < k on pallet p. */
  function PalletCount(x: seq<seq<bool>>, p: nat, k: nat): nat
  {
    if k == 0 then 0 else PalletCount(x, p, k - 1) + Bit(At(x, k - 1, p))
  }

  /** The mass ledger of pallet p over the items before index k. */
  function PalletMass(items: seq<Item>, x: seq<seq<bool>>, p: nat, k: nat): int
    requires k <= |items|
  {
    if k == 0 then 0 else PalletMass(items, x, p, k - 1) + (if At(x, k - 1, p) then items[k - 1].mass else 0)
  }

  /** The volume ledger of pallet p over the items before index k. */
  function PalletVolume(items: seq<Item>, x: seq<seq<bool>>, p: nat, k: nat): int
    requires k <= |items|
  {
    if k == 0 then 0 else PalletVolume(items, x, p, k - 1) + (if At(x, k - 1, p) then items[k - 1].vol else 0)
  }

  /** The first column in [j, k) whose entry in row i is set, as the program's `next(...)` lookup finds it. */
  function FirstTrue(m: seq<seq<bool>>, i: nat, j: nat, k: nat): (r: Option<nat>)
    decreases k - j
    ensures r.Some? ==> j <= r.value < k && At(m, i, r.value) && forall t :: j <= t < r.value ==> !At(m, i, t)
    ensures r.None? ==> forall t :: j <= t < k ==> !At(m, i, t)
  {
    if j >= k then None
    else if At(m, i, j) then Some(j)
    else FirstTrue(m, i, j + 1, k)
  }

  /** The orientation index the extractor reads for item i: the first k with `r[i][k]` set. */
  function Orientation(r: seq<seq<bool>>, i: nat): Option<nat>
  {
    FirstTrue(r, i, 0, OrientationCount)
  }

  /** The oriented dimensions of item `it` (at index i): its orientation's entry of the table, or the canonical one when none is set. */
  function OrientedDims(it: Item, r: seq<seq<bool>>, i: nat): Dims
  {
    match Orientation(r, i)
    case Some(k) => Permutations(it.l, it.w, it.h)[k]
    case None => Dims(it.l, it.w, it.h)
  }

  /** True when every placed item has an orientation flag set, so that the orientation lookup succeeds. */
  predicate OrientationsReadable(n: nat, x: seq<seq<bool>>, r: seq<seq<bool>>, pallets: nat)
  {
    forall i, p :: 0 <= i < n && 0 <= p < pallets && At(x, i, p) ==> Orientation(r, i).Some?
  }

  // ---- the four parts of the constraint model ----

  predicate AtMostOnePallet(x: seq<seq<bool>>, i: nat, pallets: nat)
  {
    RowCount(x, i, pallets) <= 1
  }

  predicate OrientationChosen(it: Item, r: seq<seq<bool>>, i: nat)
  {
    if it.rotatable then RowCount(r, i, OrientationCount) == 1
    else At(r, i, 0) && forall k :: 1 <= k < OrientationCount ==> !At(r, i, k)
  }

  /** Nothing rests on a fragile item, and no item rests on a lighter one; the diagonal is no variable. */
  predicate StackingAllowed(items: seq<Item>, s: seq<seq<bool>>)
  {
    forall i, j :: 0 <= i < |items| && 0 <= j < |items| && i != j && At(s, i, j) ==>
      !items[j].fragile && items[i].mass <= items[j].mass
  }

  /** Both ledgers of pallet p are within the pallet's capacity. */
  predicate PalletWithinCapacity(items: seq<Item>, cfg: PalletConfig, x: seq<seq<bool>>, p: nat)
  {
    PalletMass(items, x, p, |items|) <= cfg.capacityMass && PalletVolume(items, x, p, |items|) <= cfg.capacityVolume
  }

  predicate WithinCapacity(items: seq<Item>, cfg: PalletConfig, x: seq<seq<bool>>)
  {
    forall p :: 0 <= p < cfg.count ==> PalletWithinCapacity(items, cfg, x, p)
  }

  /** The per-item constraints: at most one pallet, and the orientation rule. */
  predicate ItemAllowed(items: seq<Item>, pallets: nat, x: seq<seq<bool>>, r: seq<seq<bool>>, i: nat)
    requires i < |items|
  {
    AtMostOnePallet(x, i, pallets) && OrientationChosen(items[i], r, i)
  }

  predicate ValidSolution(items: seq<Item>, cfg: PalletConfig, v: Values)
  {
    && (forall i :: 0 <= i < |items| ==> ItemAllowed(items, cfg.count, v.x, v.r, i))
    && StackingAllowed(items, v.s)
    && WithinCapacity(items, cfg, v.x)
  }

  /** The value of a load: the sum of volume times priority over the items on some pallet. */
  function LoadedValue(items: seq<Item>, x: seq<seq<bool>>, pallets: nat, k: nat): int
    requires k <= |items|
  {
    if k == 0 then 0
    else LoadedValue(items, x, pallets, k - 1) +
         (if RowCount(x, k - 1, pallets) > 0 then items[k - 1].vol * Priority(items[k - 1]) else 0)
  }

  // ---- lemmas ----

  lemma {:induction false} RowCountZero(m: seq<seq<bool>>, i: nat, k: nat)
    ensures RowCount(m, i, k) == 0 <==> forall j :: 0 <= j < k ==> !At(m, i, j)
  {
    if k > 0 {
      RowCountZero(m, i, k - 1);
    }
  }

  /** A row counted at most once has at most one entry set. */
  lemma {:induction false} RowCountUnique(m: seq<seq<bool>>, i: nat, k: nat, a: nat, b: nat)
    requires RowCount(m, i, k) <= 1
    requires a < k && b < k && At(m, i, a) && At(m, i, b)
    ensures a == b
  {
    if a == k - 1 && b < k - 1 {
      RowCountZero(m, i, k - 1);
    } else if b == k - 1 && a < k - 1 {
      RowCountZero(m, i, k - 1);
    } else if a < k - 1 && b < k - 1 {
      RowCountUnique(m, i, k - 1, a, b);
    }
  }

  /** In a valid solution no item is on two pallets. */
  lemma SingleAssignment(items: seq<Item>, cfg: PalletConfig, v: Values, i: nat, p: nat, q: nat)
    requires ValidSolution(items, cfg, v)
    requires i < |items| && p < cfg.count && q < cfg.count
    requires At(v.x, i, p) && At(v.x, i, q)
    ensures p == q
  {
    assert ItemAllowed(items, cfg.count, v.x, v.r, i);
    RowCountUnique(v.x, i, cfg.count, p, q);
  }

  /**
   * In a valid solution the orientation lookup of every item succeeds and finds the only flag set;
   * a non-rotatable item always reads orientation 0.
   */
  lemma OrientationDetermined(items: seq<Item>, cfg: PalletConfig, v: Values, i: nat)
    requires ValidSolution(items, cfg, v)
    requires i < |items|
    ensures Orientation(v.r, i).Some?
    ensures !items[i].rotatable ==> Orientation(v.r, i) == Some(0)
    ensures forall k :: 0 <= k < OrientationCount ==> (At(v.r, i, k) <==> Orientation(v.r, i) == Some(k))
  {
    var o := Orientation(v.r, i);
    assert ItemAllowed(items, cfg.count, v.x, v.r, i);
    if items[i].rotatable {
      RowCountZero(v.r, i, OrientationCount);
      forall k | 0 <= k < OrientationCount && At(v.r, i, k)
        ensures o == Some(k)
      {
        RowCountUnique(v.r, i, OrientationCount, k, o.value);
      }
    }
  }

  lemma ValidOrientationsReadable(items: seq<Item>, cfg: PalletConfig, v: Values)
    requires ValidSolution(items, cfg, v)
    ensures OrientationsReadable(|items|, v.x, v.r, cfg.count)
  {
    forall i | 0 <= i < |items|
      ensures Orientation(v.r, i).Some?
    {
      OrientationDetermined(items, cfg, v, i);
    }
  }

  /** In a valid solution a set stacking flag never points at a fragile item or a lighter one. */
  lemma StackingRespected(items: seq<Item>, cfg: PalletConfig, v: Values, i: nat, j: nat)
    requires ValidSolution(items, cfg, v)
    requires i < |items| && j < |items| && i != j
    requires items[j].fragile || items[i].mass > items[j].mass
    ensures !At(v.s, i, j)
  {
  }

  /** The stacking flags take part in no other constraint: any flags that obey the stacking rule keep a solution valid. */
  lemma StackingIndependent(items: seq<Item>, cfg: PalletConfig, v: Values, s': seq<seq<bool>>)
    requires ValidSolution(items, cfg, v)
    requires StackingAllowed(items, s')
    ensures ValidSolution(items, cfg, v.(s := s'))
  {
  }

  /** A pallet holding no item has empty ledgers. */
  lemma {:induction false} EmptyPalletLedgers(items: seq<Item>, x: seq<seq<bool>>, p: nat, k: nat)
    requires k <= |items|
    requires PalletCount(x, p, k) == 0
    ensures PalletMass(items, x, p, k) == 0 && PalletVolume(items, x, p, k) == 0
  {
    if k > 0 {
      EmptyPalletLedgers(items, x, p, k - 1);
    }
  }

  lemma {:induction false} LedgersNonNegative(items: seq<Item>, x: seq<seq<bool>>, p: nat, k: nat)
    requires k <= |items| && NonNegative(items)
    ensures PalletMass(items, x, p, k) >= 0 && PalletVolume(items, x, p, k) >= 0
  {
    if k > 0 {
      LedgersNonNegative(items, x, p, k - 1);
    }
  }

  lemma ValidAtMostOne(items: seq<Item>, cfg: PalletConfig, v: Values)
    requires ValidSolution(items, cfg, v)
    ensures forall i :: 0 <= i < |items| ==> AtMostOnePallet(v.x, i, cfg.count)
  {
    forall i | 0 <= i < |items| ensures AtMostOnePallet(v.x, i, cfg.count) {
      assert ItemAllowed(items, cfg.count, v.x, v.r, i);
    }
  }

  /** A row whose only set entry is the first one counts once. */
  lemma {:induction false} RowCountOnlyFirst(m: seq<seq<bool>>, i: nat, k: nat)
    requires 1 <= k && At(m, i, 0)
    requires forall t :: 1 <= t < k ==> !At(m, i, t)
    ensures RowCount(m, i, k) == 1
  {
    if k > 1 {
      RowCountOnlyFirst(m, i, k - 1);
    }
  }

  /** The empty load: no item on any pallet, every item in its canonical orientation, no stacking. */
  function EmptyLoad(n: nat): (v: Values)
    ensures forall i, p :: !At(v.x, i, p)
    ensures forall i, j :: !At(v.s, i, j)
  {
    Values([], seq(n, _ => [true, false, false, false, false, false]), [])
  }

  lemma {:induction false} EmptyLoadLedgers(items: seq<Item>, p: nat, k: nat)
    requires k <= |items|
    ensures PalletMass(items, EmptyLoad(|items|).x, p, k) == 0
    ensures PalletVolume(items, EmptyLoad(|items|).x, p, k) == 0
  {
    if k > 0 {
      EmptyLoadLedgers(items, p, k - 1);
    }
  }

  ghost predicate HasValidSolution(items: seq<Item>, cfg: PalletConfig)
  {
    exists v :: ValidSolution(items, cfg, v)
  }

  /**
   * The model is feasible exactly when there is no pallet or both capacities are non-negative:
   * the empty load is always a candidate, and a load never has negative ledgers.
   */
  lemma FeasibilityCharacterized(items: seq<Item>, cfg: PalletConfig)
    requires NonNegative(items)
    ensures HasValidSolution(items, cfg) <==> cfg.count == 0 || (cfg.capacityMass >= 0 && cfg.capacityVolume >= 0)
  {
    var e := EmptyLoad(|items|);
    if cfg.count == 0 || (cfg.capacityMass >= 0 && cfg.capacityVolume >= 0) {
      forall i | 0 <= i < |items| ensures ItemAllowed(items, cfg.count, e.x, e.r, i) {
        RowCountZero(e.x, i, cfg.count);
        RowCountOnlyFirst(e.r, i, OrientationCount);
      }
      forall p | 0 <= p < cfg.count ensures PalletWithinCapacity(items, cfg, e.x, p) {
        EmptyLoadLedgers(items, p, |items|);
      }
      assert ValidSolution(items, cfg, e);
    }
    if HasValidSolution(items, cfg) && cfg.count > 0 {
      var v :| ValidSolution(items, cfg, v);
      assert PalletWithinCapacity(items, cfg, v.x, 0);
      LedgersNonNegative(items, v.x, 0, |items|);
    }
  }
}
