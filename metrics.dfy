/**
 * Utilisation metrics of a solution: how many pallets hold at least one item, how many items were
 * loaded, the loaded volume and mass, the capacity available on the used pallets, and the three
 * utilisation percentages.
 */
module Metrics {
  import opened Items
  import opened Solution

  datatype Metrics = Metrics(
    usedPallets: nat,
    loadedItems: nat,
    totalItems: nat,
    loadedVolume: int,
    availableVolume: int,
    loadedMass: int,
    availableMass: int,
    itemRate: real,
    volumeRate: real,
    massRate: real)

  // ---- reference definitions, pallet by pallet ----

  /** The number of pallets p < k holding at least one of the n items. */
  function UsedPallets(x: seq<seq<bool>>, n: nat, k: nat): nat
  {
    if k == 0 then 0 else UsedPallets(x, n, k - 1) + (if PalletCount(x, k - 1, n) > 0 then 1 else 0)
  }

  /** The number of (item, pallet) assignments on pallets p < k. */
  function LoadedItems(x: seq<seq<bool>>, n: nat, k: nat): nat
  {
    if k == 0 then 0 else LoadedItems(x, n, k - 1) + PalletCount(x, k - 1, n)
  }

  function LoadedVolume(items: seq<Item>, x: seq<seq<bool>>, k: nat): int
  {
    if k == 0 then 0 else LoadedVolume(items, x, k - 1) + PalletVolume(items, x, k - 1, |items|)
  }

  function LoadedMass(items: seq<Item>, x: seq<seq<bool>>, k: nat): int
  {
    if k == 0 then 0 else LoadedMass(items, x, k - 1) + PalletMass(items, x, k - 1, |items|)
  }

  /** `part / whole * 100`, and 0 when nothing is available. */
  function Percentage(part: int, whole: int): real
  {
    if whole > 0 then part as real / whole as real * 100.0 else 0.0
  }

  /** The metrics of the load x of the items on cfg's pallets. */
  function Summary(items: seq<Item>, x: seq<seq<bool>>, cfg: PalletConfig): Metrics
    requires |items| > 0
  {
    var used := UsedPallets(x, |items|, cfg.count);
    var loaded := LoadedItems(x, |items|, cfg.count);
    var volume := LoadedVolume(items, x, cfg.count);
    var mass := LoadedMass(items, x, cfg.count);
    Metrics(used, loaded, |items|,
            volume, cfg.capacityVolume * used,
            mass, cfg.capacityMass * used,
            loaded as real / |items| as real * 100.0,
            Percentage(volume, cfg.capacityVolume * used),
            Percentage(mass, cfg.capacityMass * used))
  }

  /**
   * The metrics loop: for each pallet, total the volume, mass and count of its items; a pallet
   * with at least one item is counted as used and its totals are added. Without a solution
   * there are no metrics.
   */
  method CalculateMetrics(items: seq<Item>, solution: Option<Values>, cfg: PalletConfig)
    returns (metrics: Option<Metrics>)
    requires solution.Some? ==> |items| > 0
    ensures solution.None? ==> metrics.None?
    ensures solution.Some? ==> metrics == Some(Summary(items, solution.value.x, cfg))
  {
    if solution.None? {
      return None;
    }
    var x := solution.value.x;
    var n := |items|;
    var used, loaded, volume, mass := 0, 0, 0, 0;
    for p := 0 to cfg.count
      invariant used == UsedPallets(x, n, p)
      invariant loaded == LoadedItems(x, n, p)
      invariant volume == LoadedVolume(items, x, p)
      invariant mass == LoadedMass(items, x, p)
    {
      var palletVolume, palletMass, palletItems := 0, 0, 0;
      for i := 0 to n
        invariant palletVolume == PalletVolume(items, x, p, i)
        invariant palletMass == PalletMass(items, x, p, i)
        invariant palletItems == PalletCount(x, p, i)
      {
        if At(x, i, p) {
          palletVolume := palletVolume + items[i].vol;
          palletMass := palletMass + items[i].mass;
          palletItems := palletItems + 1;
        }
      }
      if palletItems > 0 {
        used := used + 1;
        volume := volume + palletVolume;
        mass := mass + palletMass;
        loaded := loaded + palletItems;
      } else {
        EmptyPalletLedgers(items, x, p, n);
      }
    }
    var availableVolume := cfg.capacityVolume * used;
    var availableMass := cfg.capacityMass * used;
    metrics := Some(Metrics(
      used, loaded, n,
      volume, availableVolume,
      mass, availableMass,
      loaded as real / n as real * 100.0,
      if availableVolume > 0 then volume as real / availableVolume as real * 100.0 else 0.0,
      if availableMass > 0 then mass as real / availableMass as real * 100.0 else 0.0));
  }

  // ---- what the metrics promise ----

  lemma {:induction false} UsedPalletsBound(x: seq<seq<bool>>, n: nat, k: nat)
    ensures UsedPallets(x, n, k) <= k
  {
    if k > 0 {
      UsedPalletsBound(x, n, k - 1);
    }
  }

  /** The number of items i < m assigned to some pallet p < k. */
  function AssignedItems(x: seq<seq<bool>>, k: nat, m: nat): nat
  {
    if m == 0 then 0 else AssignedItems(x, k, m - 1) + (if RowCount(x, m - 1, k) > 0 then 1 else 0)
  }

  lemma {:induction false} AssignedItemsBound(x: seq<seq<bool>>, k: nat, m: nat)
    ensures AssignedItems(x, k, m) <= m
  {
    if m > 0 {
      AssignedItemsBound(x, k, m - 1);
    }
  }

  /** Adding item m to the count adds the number of pallets that hold it. */
  lemma {:induction false} LoadedItemsStep(x: seq<seq<bool>>, m: nat, k: nat)
    ensures LoadedItems(x, m + 1, k) == LoadedItems(x, m, k) + RowCount(x, m, k)
  {
    if k > 0 {
      LoadedItemsStep(x, m, k - 1);
    }
  }

  /** Counted pallet by pallet or item by item, the loaded items are the same: each assigned item once. */
  lemma {:induction false} LoadedItemsCountsAssigned(x: seq<seq<bool>>, m: nat, k: nat)
    requires forall i :: 0 <= i < m ==> AtMostOnePallet(x, i, k)
    ensures LoadedItems(x, m, k) == AssignedItems(x, k, m)
  {
    if m == 0 {
      EmptyColumnsCount(x, k);
    } else {
      LoadedItemsCountsAssigned(x, m - 1, k);
      LoadedItemsStep(x, m - 1, k);
      assert AtMostOnePallet(x, m - 1, k);
    }
  }

  lemma {:induction false} EmptyColumnsCount(x: seq<seq<bool>>, k: nat)
    ensures LoadedItems(x, 0, k) == 0
  {
    if k > 0 {
      EmptyColumnsCount(x, k - 1);
    }
  }

  /** In a valid solution: at most `count` pallets are used and at most every item is loaded, each item counted once. */
  lemma CountsBounded(items: seq<Item>, cfg: PalletConfig, v: Values)
    requires ValidSolution(items, cfg, v)
    ensures UsedPallets(v.x, |items|, cfg.count) <= cfg.count
    ensures LoadedItems(v.x, |items|, cfg.count) == AssignedItems(v.x, cfg.count, |items|)
    ensures LoadedItems(v.x, |items|, cfg.count) <= |items|
  {
    UsedPalletsBound(v.x, |items|, cfg.count);
    ValidAtMostOne(items, cfg, v);
    LoadedItemsCountsAssigned(v.x, |items|, cfg.count);
    AssignedItemsBound(v.x, cfg.count, |items|);
  }

  /** Within capacity, the used pallets offer at least the loaded volume and mass. */
  lemma {:induction false} LoadedWithinAvailable(items: seq<Item>, cfg: PalletConfig, x: seq<seq<bool>>, k: nat)
    requires k <= cfg.count
    requires WithinCapacity(items, cfg, x)
    ensures LoadedVolume(items, x, k) <= cfg.capacityVolume * UsedPallets(x, |items|, k)
    ensures LoadedMass(items, x, k) <= cfg.capacityMass * UsedPallets(x, |items|, k)
  {
    if k > 0 {
      var p := k - 1;
      LoadedWithinAvailable(items, cfg, x, p);
      assert PalletWithinCapacity(items, cfg, x, p);
      if PalletCount(x, p, |items|) == 0 {
        EmptyPalletLedgers(items, x, p, |items|);
      } else {
        var u := UsedPallets(x, |items|, p);
        assert cfg.capacityVolume * (u + 1) == cfg.capacityVolume * u + cfg.capacityVolume;
        assert cfg.capacityMass * (u + 1) == cfg.capacityMass * u + cfg.capacityMass;
      }
    }
  }

  lemma {:induction false} LoadedNonNegative(items: seq<Item>, x: seq<seq<bool>>, k: nat)
    requires NonNegative(items)
    ensures LoadedVolume(items, x, k) >= 0 && LoadedMass(items, x, k) >= 0
  {
    if k > 0 {
      LoadedNonNegative(items, x, k - 1);
      LedgersNonNegative(items, x, k - 1, |items|);
    }
  }

  lemma PercentageBounds(part: int, whole: int)
    requires 0 <= part <= whole
    ensures 0.0 <= Percentage(part, whole) <= 100.0
  {
    if whole > 0 {
      assert part as real / whole as real <= 1.0;
    }
  }

  /**
   * For a valid solution: at most all pallets used, each assigned item counted once, the loaded
   * volume and mass within what the used pallets offer, every rate between 0 and 100, and the
   * volume and mass rates 0 when no pallet is used.
   */
  lemma SummaryBounds(items: seq<Item>, cfg: PalletConfig, v: Values)
    requires |items| > 0 && NonNegative(items)
    requires ValidSolution(items, cfg, v)
    ensures Summary(items, v.x, cfg).usedPallets <= cfg.count
    ensures Summary(items, v.x, cfg).loadedItems == AssignedItems(v.x, cfg.count, |items|)
    ensures Summary(items, v.x, cfg).loadedItems <= Summary(items, v.x, cfg).totalItems
    ensures Summary(items, v.x, cfg).loadedVolume <= Summary(items, v.x, cfg).availableVolume
    ensures Summary(items, v.x, cfg).loadedMass <= Summary(items, v.x, cfg).availableMass
    ensures 0.0 <= Summary(items, v.x, cfg).itemRate <= 100.0
    ensures 0.0 <= Summary(items, v.x, cfg).volumeRate <= 100.0
    ensures 0.0 <= Summary(items, v.x, cfg).massRate <= 100.0
    ensures Summary(items, v.x, cfg).usedPallets == 0 ==>
              Summary(items, v.x, cfg).volumeRate == 0.0 && Summary(items, v.x, cfg).massRate == 0.0
  {
    var n := |items|;
    CountsBounded(items, cfg, v);
    LoadedWithinAvailable(items, cfg, v.x, cfg.count);
    LoadedNonNegative(items, v.x, cfg.count);
    var used := UsedPallets(v.x, n, cfg.count);
    PercentageBounds(LoadedItems(v.x, n, cfg.count), n);
    PercentageBounds(LoadedVolume(items, v.x, cfg.count), cfg.capacityVolume * used);
    PercentageBounds(LoadedMass(items, v.x, cfg.count), cfg.capacityMass * used);
  }
}
