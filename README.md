# Pallet optimizer — a Dafny model

This project models the `PalletOptimizer` core of a pallet-loading calculator. The calculator
takes a batch of items and a pallet configuration. The items have integer volume and mass, and
flags for fragile and rotatable. The configuration gives a number of pallets and each pallet's
mass and volume capacity. From these the calculator builds a constraint model:

- every item goes on at most one pallet;
- a rotatable item takes one of six orientations, and any other item keeps its canonical one;
- nothing may be stacked on a fragile item or on a lighter one;
- each pallet's total mass and total volume stay within its capacity.

The objective to maximise is the loaded volume weighted by priority. The calculator hands the
model to a constraint solver and then reads the solution three ways:

- the utilisation metrics;
- a tower layout for drawing, with each pallet's items stacked in index order;
- an allocation record of (item, pallet, orientation) entries.

Modules, one per file:

| file | module | what it holds |
|---|---|---|
| `items.dfy` | `Items` | items, pallet configurations, priorities, the orientation table |
| `solution.dfy` | `Solution` | solver values as 0/1 matrices, the constraint model stated declaratively (`ValidSolution`), the loaded value, and facts about valid solutions |
| `cpmodel.dfy` | `CpModel` | the model as the builder emits it (variables, linear constraints, objective, in emission order) and the proof that it means `ValidSolution` |
| `solver.dfy` | `Solver` | the solve call, with the solving capability as a parameter and its promise (`SolverContract`) as a precondition |
| `metrics.dfy` | `Metrics` | the metrics loop and its bounds |
| `placement.dfy` | `Placement` | the traversal order shared by layout and allocation (pallets outer, items inner) and the orientation lookup |
| `layout.dfy` | `Layout` | the tower layout loop and its stacking properties |
| `allocation.dfy` | `Allocation` | the allocation-record loop and its completeness |
| `scenario.dfy` | `Scenarios` | a worked instance: three unit items and one pallet of capacity two, where an optimal load takes exactly two items |

Solver values are total: `At(m, i, j)` reads false outside the matrix. So no member needs a
precondition on the shape of the solution.

`otimizar` rejects nothing: it has no check for zero pallets, non-positive capacities or an
empty batch. Its callers never pass zero pallets or an empty batch. Every pallet count comes
from a slider whose minimum is 1 (app.py:349, 356, 364, 765, 770), and both calls are guarded
by a non-empty item list (app.py:426, 772). Non-positive capacities can get through, from the
custom preset's number inputs (app.py:365-366). The model builder accepts all of these inputs,
as `otimizar` does: with zero pallets there are no capacity constraints and nothing can be
loaded, and with non-negative items a negative capacity makes the model infeasible.

The model has two preconditions that come from the code:

- the metrics need a non-empty batch, because of the item-rate division (app.py:255);
- the orientation lookup needs a set orientation flag, `Solution.OrientationsReadable`, on
  every item it reads. `next(...)` at app.py:183 and app.py:549 raises StopIteration otherwise,
  and `[...][0]` at app.py:482 raises IndexError. `Placement.FindOrientation`,
  `Layout.StackPallet`, `Layout.TowerLayout` and `Allocation.BuildAllocation` require it.
  `Solution.ValidOrientationsReadable` proves that every valid solution meets it, and the
  solver only returns valid solutions.

## Model

| member | source | states |
|---|---|---|
| `Items.Permutations` | app.py:77-83 | the table has six entries; entry 0 is `(l, w, h)` unchanged; every entry is an arrangement of the same three values |
| `Items.OrientedVolume` | app.py:77-83 | every orientation has the item's volume `l·w·h` |
| `Items.PermutationsDistinct` | app.py:77-83 | when the three dimensions differ, the six entries are pairwise different |
| `Solution.FirstTrue` | app.py:183 | the lookup finds the first set flag in the range, or reports that none is set |
| `Solution.RowCountZero` | app.py:109 | a row's count is 0 exactly when none of its flags is set |
| `Solution.RowCountUnique` | app.py:109 | a row counted at most once has at most one flag set |
| `Solution.SingleAssignment` | app.py:107-109 | in a valid solution no item is on two pallets |
| `Solution.OrientationDetermined` | app.py:111-117 | in a valid solution every item's orientation lookup succeeds; a non-rotatable item reads 0; a flag is set exactly when it is the one the lookup finds |
| `Solution.ValidOrientationsReadable` | app.py:111-117 | in a valid solution the orientation lookup succeeds for every placed item |
| `Solution.StackingRespected` | app.py:119-129 | in a valid solution no stacking flag points at a fragile item or a lighter one |
| `Solution.StackingIndependent` | app.py:102-104 | the stacking flags are in no other constraint: replacing them with any flags that obey the stacking rule keeps a solution valid |
| `Solution.EmptyPalletLedgers` | app.py:131-138 | a pallet with no items has zero mass and zero volume |
| `Solution.LedgersNonNegative` | app.py:131-138 | with non-negative items, the ledgers are non-negative |
| `Solution.ValidAtMostOne` | app.py:107-109 | a valid solution meets the at-most-one-pallet constraint for every item |
| `Solution.EmptyLoadLedgers` | app.py:131-138 | the empty load leaves every ledger at 0 |
| `Solution.FeasibilityCharacterized` | app.py:106-138 | for non-negative items, a valid solution exists exactly when there are no pallets or both capacities are at least 0 |
| `CpModel.EvalAppend` | app.py:133-145 | a linear sum over concatenated term lists is the sum of the two parts |
| `CpModel.HoldsAllConcat` | app.py:106-138 | a concatenation of constraint blocks holds exactly when every block holds |
| `CpModel.EvalAssignTerms` | app.py:109 | the at-most-one sum is the number of pallets holding the item |
| `CpModel.EvalOrientTerms` | app.py:113 | the orientation sum is the number of orientation flags set |
| `CpModel.EvalMassTerms` | app.py:133-135 | the mass sum of pallet p is its mass ledger |
| `CpModel.EvalVolumeTerms` | app.py:136-138 | the volume sum of pallet p is its volume ledger |
| `CpModel.EvalValueTerms` | app.py:141-145 | one item's objective terms add up to its value times the number of pallets holding it |
| `CpModel.EvalObjectiveTerms` | app.py:141-145 | under at-most-one, the objective sum is the loaded value |
| `CpModel.OrientationConstraintsHold` | app.py:111-117 | the generated orientation constraints hold exactly when the orientation rule does |
| `CpModel.ItemBlockHolds` | app.py:107-117 | one item's generated block holds exactly when the item satisfies both of its rules |
| `CpModel.ItemConstraintsHold` | app.py:107-117 | the item constraints hold exactly when every item is allowed |
| `CpModel.StackPairHolds` | app.py:120-129 | the generated constraints of one ordered pair hold exactly when the pair obeys the stacking rule |
| `CpModel.StackRowHolds` | app.py:120-129 | the generated constraints for item i hold exactly when each of i's pairs obeys the stacking rule |
| `CpModel.StackConstraintsHold` | app.py:120-129 | the generated stacking constraints hold exactly when the stacking rule does |
| `CpModel.CapacityConstraintsHold` | app.py:132-138 | the generated capacity constraints hold exactly when every pallet is within both capacities |
| `CpModel.BuildModelSound` | app.py:85-138 | an assignment satisfies the built model exactly when it is a valid solution |
| `CpModel.BuildModelObjective` | app.py:140-146 | under at-most-one, the model's objective is the sum over loaded items of volume times priority, with priority 1 when an item has none |
| `CpModel.ItemConstraintsDeclared` | app.py:97-117 | the item constraints use only declared variables |
| `CpModel.StackConstraintsDeclared` | app.py:102-104 | the stacking constraints use `s[i, j]` only for distinct items |
| `CpModel.CapacityConstraintsDeclared` | app.py:97-99 | the capacity constraints use only declared variables |
| `CpModel.BuildModelDeclared` | app.py:96-146 | the built model uses only variables the builder declared: `s[i, j]` only when `i ≠ j` |
| `Solver.Optimize` | app.py:148-156 | the status passes through unchanged; values are returned exactly for OPTIMAL and FEASIBLE and then form a valid solution; OPTIMAL values have the largest loaded value of all valid solutions; INFEASIBLE means no valid solution exists, which for non-negative items needs a pallet with negative capacity |
| `Metrics.CalculateMetrics` | app.py:216-264 | no metrics without a solution; otherwise the totals are the pallet-by-pallet sums (used pallets, loaded items, volume, mass), the available capacity is capacity times used pallets, and the rates are the guarded percentages |
| `Metrics.UsedPalletsBound` | app.py:225-245 | at most `count` pallets are used |
| `Metrics.LoadedItemsCountsAssigned` | app.py:225-245 | under at-most-one, counting loaded items pallet by pallet counts each assigned item once |
| `Metrics.CountsBounded` | app.py:225-245 | in a valid solution, used pallets ≤ count and loaded items = assigned items ≤ batch size |
| `Metrics.LoadedWithinAvailable` | app.py:240-249 | within capacity, the loaded volume and mass are at most capacity times used pallets |
| `Metrics.LoadedNonNegative` | app.py:225-245 | with non-negative items, the loaded totals are non-negative |
| `Metrics.PercentageBounds` | app.py:255-261 | a part between 0 and the whole gives a rate between 0 and 100 |
| `Metrics.SummaryBounds` | app.py:216-264 | for a valid solution: used ≤ count, loaded = assigned ≤ total, loaded volume and mass within the available amounts, every rate in [0, 100], and the volume and mass rates 0 when no pallet is used |
| `Placement.FindOrientation` | app.py:183 | the lookup returns the first k < 6 whose flag is set, which is `Orientation` |
| `Placement.PalletRowLength` | app.py:180-181 | a pallet's row has one entry per item on the pallet |
| `Placement.PalletRowSorted` | app.py:180-181 | a pallet's row lists only that pallet's items, in increasing index order |
| `Placement.PalletRowComplete` | app.py:180-181 | a pallet's row lists every item on the pallet |
| `Placement.PlacedLength` | app.py:546-548 | the traversal is as long as the loaded-items metric |
| `Placement.PlacedSound` | app.py:546-548 | every slot visited is a placement of the solution |
| `Placement.PlacedComplete` | app.py:546-548 | every placement of the solution is visited |
| `Placement.PlacedSorted` | app.py:546-548 | the traversal is strictly increasing in (pallet, item) order |
| `Placement.PlacedFacts` | app.py:546-548 | the traversal visits exactly the solution's placements, in (pallet, item) order, as many as the loaded-items metric |
| `Placement.PlacedOnce` | app.py:546-548 | in a valid solution every assigned item is visited exactly once and nothing else is visited |
| `Layout.TowerLayout` | app.py:165-201 | boxes in traversal order, each at x = `p · spacing`, y = 0, z = the oriented heights of the pallet's lower-indexed items, with its oriented dimensions; each pallet's final cursor is its total height |
| `Layout.StackPallet` | app.py:166-201 | one pallet's tower, bottom to top, and its final cursor |
| `Layout.OrientedHeightPositive` | app.py:184 | with positive dimensions every orientation has a positive height |
| `Layout.StackHeightMonotone` | app.py:201 | with positive heights the cursor only grows |
| `Layout.StackedWithoutOverlap` | app.py:191-201 | boxes on one pallet do not overlap vertically, and each ends at or below the pallet's final top |
| `Layout.StackedContiguously` | app.py:191-201 | consecutive boxes of a tower touch: each starts where the previous one ends |
| `Layout.EmptyTower` | app.py:166 | a pallet with no items has height 0 |
| `Allocation.BuildAllocation` | app.py:546-555 | one entry per placed slot, in traversal order, with the item index, the pallet, the item record and the orientation the lookup finds |
| `Allocation.AllocationComplete` | app.py:546-555 | for a valid solution: as many entries as loaded items, strictly in (pallet, item) order, no item twice, every assigned item present |
| `Scenarios.UnitTotals` | app.py:131-146 | with three unit items and one pallet, both ledgers and the assigned count equal the number of items on the pallet, and the loaded value is the sum of their priorities |
| `Scenarios.PairLoadValid` | app.py:106-146 | loading any two of the three items is a valid solution, worth the two items' priorities |
| `Scenarios.AtMostTwoLoaded` | app.py:131-138 | a capacity of two lets at most two of the three items on |
| `Scenarios.OptimumLoadsTwo` | app.py:140-156 | a load of the largest value, which is what an OPTIMAL answer returns, has exactly two items on the pallet, and its value is the sum of the priorities of the best pair: no pair is worth more and some pair is worth exactly that |

The alternative drawing (app.py:476-487) is the same layout. It adds 2.0 to the offset once per
pallet instead of computing p · 2.5. `Layout.TowerLayout` takes the spacing as a parameter and
keeps the offset as a running sum, so it covers both views. The constants are
`Layout.SpacingInteractive` (2.5) and `Layout.SpacingAlternative` (2.0).

## Left out

- The web user interface, its sidebar, tables, progress bars and help texts: presentation only.
- The per-pallet detail table (app.py:497-531): presentation. It walks the same pallet rows as `Placement.PalletRow`.
- The solver's search and its 30-second time limit: the solver is a foreign library. `Solver.Optimize` takes it as a function parameter, and `Solver.SolverContract` states what it promises.
- The solver status set has a fifth value, `Unknown`, as the solving library has. It is passed through like the others.
- Mesh construction, colours and the pallet base drawn under each tower: rendering. Only the box coordinates are modelled.
- Random test-data generation: it depends on a random generator and on floating point.
- File parsing and the conversion of metres and kilograms into integer units: I/O and floating point. `vol` and `mass` are taken as given integers.
- Metrics.CalculateMetrics: the unit-converted fields (volumes and masses divided by the scale factors) are left out. The percentages are exact reals rather than floating point.
- The cost, KPI and benchmark tabs, the scenario comparison and every export format with its timestamps: dashboards, serialization and clock I/O.
- Capacities given as floating-point numbers by the custom pallet preset: capacities are modelled as integers.
- Solver.Optimize: does not state that FEASIBLE values may be suboptimal, and does not state determinism across runs. Both are properties of the solving library, and the code does not depend on them.
- Layout.TowerLayout: the layout's coordinates are exact reals, not Python floats. `p * 2.5`, `z_top += h` and `offset_x += 2.0` (app.py:167, 201, 487) accumulate rounding error in the program, and the model does not capture that drift.
- Placement.FindOrientation: when no orientation flag is set, the program raises an exception (app.py:183, 482, 549). The model instead requires a set flag. Every call site meets that requirement, through `Solution.ValidOrientationsReadable`.
- CpModel.BuildModelSound: the solving library limits coefficients and bounds to 64-bit integers. `x*int(mass)`, `x*int(vol)`, `x*vol*prioridade` and the capacities (app.py:134, 137, 142) outside that range make it raise an overflow error or answer MODEL_INVALID. `Term.coef` and the bounds are unbounded integers, so the model does not capture this failure.
