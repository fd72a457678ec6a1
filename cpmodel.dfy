/**
 * The constraint model as the builder hands it to the solver: boolean variables, linear
 * constraints with integer coefficients, and a linear objective to maximise. The constraints
 * are generated in the order the builder adds them, and BuildModelSound proves that a
 * variable assignment satisfies them exactly when it is a valid solution.
 */
module CpModel {
  import opened Items
  import opened Solution

  /** `X(i, p)`: item i on pallet p; `R(i, k)`: item i uses orientation k; `S(i, j)`: item i rests on item j. */
  datatype Var = X(i: nat, p: nat) | R(i: nat, k: nat) | S(i: nat, j: nat)

  datatype Term = Term(coef: int, v: Var)

  datatype Relation = AtMost | Equal

  datatype Constraint = Linear(terms: seq<Term>, rel: Relation, bound: int)

  datatype Model = Model(constraints: seq<Constraint>, objective: seq<Term>)

  /** The 0/1 value of a variable under a solver assignment. */
  function Value(v: Values, x: Var): nat
  {
    match x
    case X(i, p) => Bit(At(v.x, i, p))
    case R(i, k) => Bit(At(v.r, i, k))
    case S(i, j) => Bit(At(v.s, i, j))
  }

  function Eval(ts: seq<Term>, v: Values): int
  {
    if |ts| == 0 then 0 else Eval(ts[..|ts| - 1], v) + ts[|ts| - 1].coef * Value(v, ts[|ts| - 1].v)
  }

  predicate Holds(c: Constraint, v: Values)
  {
    match c.rel
    case AtMost => Eval(c.terms, v) <= c.bound
    case Equal => Eval(c.terms, v) == c.bound
  }

  predicate HoldsAll(cs: seq<Constraint>, v: Values)
  {
    forall k :: 0 <= k < |cs| ==> Holds(cs[k], v)
  }

  predicate Satisfies(m: Model, v: Values)
  {
    HoldsAll(m.constraints, v)
  }

  function ObjectiveValue(m: Model, v: Values): int
  {
    Eval(m.objective, v)
  }

  /** The variables the builder declares: x for every item and pallet, r for every item and orientation, s for every ordered pair of distinct items. */
  predicate Declared(x: Var, n: nat, pallets: nat)
  {
    match x
    case X(i, p) => i < n && p < pallets
    case R(i, k) => i < n && k < OrientationCount
    case S(i, j) => i < n && j < n && i != j
  }

  // ---- the builder ----

  /** `var == value`, the form of the fixed-orientation and stacking constraints. */
  function Fix(x: Var, value: int): Constraint
  {
    Linear([Term(1, x)], Equal, value)
  }

  /** x[i, p] for p < k. */
  function AssignTerms(i: nat, k: nat): seq<Term>
  {
    if k == 0 then [] else AssignTerms(i, k - 1) + [Term(1, X(i, k - 1))]
  }

  /** r[i, o] for o < k. */
  function OrientTerms(i: nat, k: nat): seq<Term>
  {
    if k == 0 then [] else OrientTerms(i, k - 1) + [Term(1, R(i, k - 1))]
  }

  /** Exactly one orientation for a rotatable item; otherwise r[i, 0] == 1 and r[i, o] == 0 for o in 1..5. */
  function OrientationConstraints(it: Item, i: nat): seq<Constraint>
  {
    if it.rotatable then [Linear(OrientTerms(i, OrientationCount), Equal, 1)]
    else [Fix(R(i, 0), 1), Fix(R(i, 1), 0), Fix(R(i, 2), 0), Fix(R(i, 3), 0), Fix(R(i, 4), 0), Fix(R(i, 5), 0)]
  }

  /** The constraint lists of successive blocks, one after the other. */
  function Concat(blocks: seq<seq<Constraint>>): seq<Constraint>
  {
    if |blocks| == 0 then [] else Concat(blocks[..|blocks| - 1]) + blocks[|blocks| - 1]
  }

  /** The constraints added for item i: at most one pallet, then its orientation constraints. */
  function ItemBlock(items: seq<Item>, pallets: nat, i: nat): seq<Constraint>
    requires i < |items|
  {
    [Linear(AssignTerms(i, pallets), AtMost, 1)] + OrientationConstraints(items[i], i)
  }

  function ItemConstraints(items: seq<Item>, pallets: nat): seq<Constraint>
  {
    Concat(seq(|items|, i requires 0 <= i < |items| => ItemBlock(items, pallets, i)))
  }

  /** The stacking constraints for the pair (i, j): one for a fragile j, one for a heavier i. */
  function StackPair(items: seq<Item>, i: nat, j: nat): seq<Constraint>
    requires i < |items| && j < |items|
  {
    if i == j then []
    else (if items[j].fragile then [Fix(S(i, j), 0)] else [])
         + (if items[i].mass > items[j].mass then [Fix(S(i, j), 0)] else [])
  }

  function StackRow(items: seq<Item>, i: nat): seq<Constraint>
    requires i < |items|
  {
    Concat(seq(|items|, j requires 0 <= j < |items| => StackPair(items, i, j)))
  }

  function StackConstraints(items: seq<Item>): seq<Constraint>
  {
    Concat(seq(|items|, i requires 0 <= i < |items| => StackRow(items, i)))
  }

  /** mass(i) * x[i, p] for i < k. */
  function MassTerms(items: seq<Item>, p: nat, k: nat): seq<Term>
    requires k <= |items|
  {
    if k == 0 then [] else MassTerms(items, p, k - 1) + [Term(items[k - 1].mass, X(k - 1, p))]
  }

  /** vol(i) * x[i, p] for i < k. */
  function VolumeTerms(items: seq<Item>, p: nat, k: nat): seq<Term>
    requires k <= |items|
  {
    if k == 0 then [] else VolumeTerms(items, p, k - 1) + [Term(items[k - 1].vol, X(k - 1, p))]
  }

  /** The mass and volume capacity constraints of pallet p. */
  function CapacityBlock(items: seq<Item>, cfg: PalletConfig, p: nat): seq<Constraint>
  {
    [Linear(MassTerms(items, p, |items|), AtMost, cfg.capacityMass),
     Linear(VolumeTerms(items, p, |items|), AtMost, cfg.capacityVolume)]
  }

  function CapacityConstraints(items: seq<Item>, cfg: PalletConfig): seq<Constraint>
  {
    Concat(seq(cfg.count, p requires 0 <= p < cfg.count => CapacityBlock(items, cfg, p)))
  }

  /** vol(i) * priority(i) * x[i, p] for p < k. */
  function ValueTerms(it: Item, i: nat, k: nat): seq<Term>
  {
    if k == 0 then [] else ValueTerms(it, i, k - 1) + [Term(it.vol * Priority(it), X(i, k - 1))]
  }

  function ObjectiveTerms(items: seq<Item>, pallets: nat, k: nat): seq<Term>
    requires k <= |items|
  {
    if k == 0 then [] else ObjectiveTerms(items, pallets, k - 1) + ValueTerms(items[k - 1], k - 1, pallets)
  }

  function BuildModel(items: seq<Item>, cfg: PalletConfig): Model
  {
    Model(
      ItemConstraints(items, cfg.count) + StackConstraints(items) + CapacityConstraints(items, cfg),
      ObjectiveTerms(items, cfg.count, |items|))
  }

  // ---- evaluation lemmas ----

  lemma {:induction false} EvalAppend(a: seq<Term>, b: seq<Term>, v: Values)
    ensures Eval(a + b, v) == Eval(a, v) + Eval(b, v)
    decreases |b|
  {
    if |b| == 0 {
      assert a + b == a;
    } else {
      assert (a + b)[..|a + b| - 1] == a + b[..|b| - 1];
      EvalAppend(a, b[..|b| - 1], v);
    }
  }

  lemma EvalSnoc(a: seq<Term>, t: Term, v: Values)
    ensures Eval(a + [t], v) == Eval(a, v) + t.coef * Value(v, t.v)
  {
    assert (a + [t])[..|a|] == a;
  }

  lemma HoldsAllAppend(a: seq<Constraint>, b: seq<Constraint>, v: Values)
    ensures HoldsAll(a + b, v) <==> HoldsAll(a, v) && HoldsAll(b, v)
  {
    if HoldsAll(a + b, v) {
      forall k | 0 <= k < |a| ensures Holds(a[k], v) {
        assert (a + b)[k] == a[k];
      }
      forall k | 0 <= k < |b| ensures Holds(b[k], v) {
        assert (a + b)[|a| + k] == b[k];
      }
    }
    if HoldsAll(a, v) && HoldsAll(b, v) {
      forall k | 0 <= k < |a + b| ensures Holds((a + b)[k], v) {
        if k < |a| {
          assert (a + b)[k] == a[k];
        } else {
          assert (a + b)[k] == b[k - |a|];
        }
      }
    }
  }

  lemma {:induction false} HoldsAllConcat(blocks: seq<seq<Constraint>>, v: Values)
    ensures HoldsAll(Concat(blocks), v) <==> forall b :: 0 <= b < |blocks| ==> HoldsAll(blocks[b], v)
  {
    if |blocks| > 0 {
      var init := blocks[..|blocks| - 1];
      HoldsAllConcat(init, v);
      HoldsAllAppend(Concat(init), blocks[|blocks| - 1], v);
      assert forall b :: 0 <= b < |init| ==> init[b] == blocks[b];
    }
  }

  lemma FixHolds(x: Var, value: int, v: Values)
    ensures Holds(Fix(x, value), v) <==> Value(v, x) == value
  {
    EvalSnoc([], Term(1, x), v);
    assert [] + [Term(1, x)] == [Term(1, x)];
  }

  lemma {:induction false} EvalAssignTerms(i: nat, k: nat, v: Values)
    ensures Eval(AssignTerms(i, k), v) == RowCount(v.x, i, k)
  {
    if k > 0 {
      EvalAssignTerms(i, k - 1, v);
      EvalSnoc(AssignTerms(i, k - 1), Term(1, X(i, k - 1)), v);
    }
  }

  lemma {:induction false} EvalOrientTerms(i: nat, k: nat, v: Values)
    ensures Eval(OrientTerms(i, k), v) == RowCount(v.r, i, k)
  {
    if k > 0 {
      EvalOrientTerms(i, k - 1, v);
      EvalSnoc(OrientTerms(i, k - 1), Term(1, R(i, k - 1)), v);
    }
  }

  lemma {:induction false} EvalMassTerms(items: seq<Item>, p: nat, k: nat, v: Values)
    requires k <= |items|
    ensures Eval(MassTerms(items, p, k), v) == PalletMass(items, v.x, p, k)
  {
    if k > 0 {
      EvalMassTerms(items, p, k - 1, v);
      EvalSnoc(MassTerms(items, p, k - 1), Term(items[k - 1].mass, X(k - 1, p)), v);
    }
  }

  lemma {:induction false} EvalVolumeTerms(items: seq<Item>, p: nat, k: nat, v: Values)
    requires k <= |items|
    ensures Eval(VolumeTerms(items, p, k), v) == PalletVolume(items, v.x, p, k)
  {
    if k > 0 {
      EvalVolumeTerms(items, p, k - 1, v);
      EvalSnoc(VolumeTerms(items, p, k - 1), Term(items[k - 1].vol, X(k - 1, p)), v);
    }
  }

  lemma Distribute(a: int, b: int, c: int)
    ensures (a + b) * c == a * c + b * c
  {
  }

  lemma ScaleByAtMostOne(count: nat, c: int)
    requires count <= 1
    ensures count * c == if count > 0 then c else 0
  {
  }

  lemma {:induction false} EvalValueTerms(it: Item, i: nat, k: nat, v: Values)
    ensures Eval(ValueTerms(it, i, k), v) == RowCount(v.x, i, k) * (it.vol * Priority(it))
  {
    if k > 0 {
      var c := it.vol * Priority(it);
      EvalValueTerms(it, i, k - 1, v);
      EvalSnoc(ValueTerms(it, i, k - 1), Term(c, X(i, k - 1)), v);
      Distribute(RowCount(v.x, i, k - 1), Bit(At(v.x, i, k - 1)), c);
    }
  }

  /** Under the at-most-one-pallet constraint, the objective is the volume times priority of the loaded items. */
  lemma {:induction false} EvalObjectiveTerms(items: seq<Item>, pallets: nat, k: nat, v: Values)
    requires k <= |items|
    requires forall i :: 0 <= i < k ==> AtMostOnePallet(v.x, i, pallets)
    ensures Eval(ObjectiveTerms(items, pallets, k), v) == LoadedValue(items, v.x, pallets, k)
  {
    if k > 0 {
      EvalObjectiveTerms(items, pallets, k - 1, v);
      EvalAppend(ObjectiveTerms(items, pallets, k - 1), ValueTerms(items[k - 1], k - 1, pallets), v);
      EvalValueTerms(items[k - 1], k - 1, pallets, v);
      assert AtMostOnePallet(v.x, k - 1, pallets);
      ScaleByAtMostOne(RowCount(v.x, k - 1, pallets), items[k - 1].vol * Priority(items[k - 1]));
    }
  }

  // ---- the generated constraints mean the declarative ones ----

  lemma OrientationConstraintsHold(it: Item, i: nat, v: Values)
    ensures HoldsAll(OrientationConstraints(it, i), v) <==> OrientationChosen(it, v.r, i)
  {
    var cs := OrientationConstraints(it, i);
    if it.rotatable {
      EvalOrientTerms(i, OrientationCount, v);
      assert HoldsAll(cs, v) <==> Holds(cs[0], v);
    } else {
      forall k | 0 <= k < OrientationCount
        ensures Holds(cs[k], v) <==> (if k == 0 then At(v.r, i, 0) else !At(v.r, i, k))
      {
        FixHolds(R(i, k), if k == 0 then 1 else 0, v);
      }
    }
  }

  lemma ItemBlockHolds(items: seq<Item>, pallets: nat, i: nat, v: Values)
    requires i < |items|
    ensures HoldsAll(ItemBlock(items, pallets, i), v) <==> ItemAllowed(items, pallets, v.x, v.r, i)
  {
    var one := [Linear(AssignTerms(i, pallets), AtMost, 1)];
    HoldsAllAppend(one, OrientationConstraints(items[i], i), v);
    EvalAssignTerms(i, pallets, v);
    assert HoldsAll(one, v) <==> Holds(one[0], v);
    OrientationConstraintsHold(items[i], i, v);
  }

  lemma ItemConstraintsHold(items: seq<Item>, pallets: nat, v: Values)
    ensures HoldsAll(ItemConstraints(items, pallets), v) <==>
            forall i :: 0 <= i < |items| ==> ItemAllowed(items, pallets, v.x, v.r, i)
  {
    var blocks := seq(|items|, i requires 0 <= i < |items| => ItemBlock(items, pallets, i));
    HoldsAllConcat(blocks, v);
    forall i | 0 <= i < |items|
      ensures HoldsAll(blocks[i], v) <==> ItemAllowed(items, pallets, v.x, v.r, i)
    {
      ItemBlockHolds(items, pallets, i, v);
    }
  }

  predicate PairAllowed(items: seq<Item>, s: seq<seq<bool>>, i: nat, j: nat)
    requires i < |items| && j < |items|
  {
    i != j && At(s, i, j) ==> !items[j].fragile && items[i].mass <= items[j].mass
  }

  lemma StackPairHolds(items: seq<Item>, i: nat, j: nat, v: Values)
    requires i < |items| && j < |items|
    ensures HoldsAll(StackPair(items, i, j), v) <==> PairAllowed(items, v.s, i, j)
  {
    if i != j {
      var frag := if items[j].fragile then [Fix(S(i, j), 0)] else [];
      var heavy := if items[i].mass > items[j].mass then [Fix(S(i, j), 0)] else [];
      HoldsAllAppend(frag, heavy, v);
      FixHolds(S(i, j), 0, v);
    }
  }

  /** No stacking flag of item i breaks the stacking rule. */
  predicate StackRowAllowed(items: seq<Item>, s: seq<seq<bool>>, i: nat)
    requires i < |items|
  {
    forall j :: 0 <= j < |items| ==> PairAllowed(items, s, i, j)
  }

  lemma StackRowHolds(items: seq<Item>, i: nat, v: Values)
    requires i < |items|
    ensures HoldsAll(StackRow(items, i), v) <==> StackRowAllowed(items, v.s, i)
  {
    var blocks := seq(|items|, j requires 0 <= j < |items| => StackPair(items, i, j));
    HoldsAllConcat(blocks, v);
    forall j | 0 <= j < |items|
      ensures HoldsAll(blocks[j], v) <==> PairAllowed(items, v.s, i, j)
    {
      StackPairHolds(items, i, j, v);
    }
  }

  lemma StackConstraintsHold(items: seq<Item>, v: Values)
    ensures HoldsAll(StackConstraints(items), v) <==> StackingAllowed(items, v.s)
  {
    var blocks := seq(|items|, i requires 0 <= i < |items| => StackRow(items, i));
    HoldsAllConcat(blocks, v);
    forall i | 0 <= i < |items|
      ensures HoldsAll(blocks[i], v) <==> StackRowAllowed(items, v.s, i)
    {
      StackRowHolds(items, i, v);
    }
    if forall i :: 0 <= i < |items| ==> StackRowAllowed(items, v.s, i) {
      forall i, j | 0 <= i < |items| && 0 <= j < |items| && i != j && At(v.s, i, j)
        ensures !items[j].fragile && items[i].mass <= items[j].mass
      {
        assert StackRowAllowed(items, v.s, i);
        assert PairAllowed(items, v.s, i, j);
      }
    }
  }

  lemma CapacityConstraintsHold(items: seq<Item>, cfg: PalletConfig, v: Values)
    ensures HoldsAll(CapacityConstraints(items, cfg), v) <==> WithinCapacity(items, cfg, v.x)
  {
    var blocks := seq(cfg.count, p requires 0 <= p < cfg.count => CapacityBlock(items, cfg, p));
    HoldsAllConcat(blocks, v);
    forall p | 0 <= p < cfg.count
      ensures HoldsAll(blocks[p], v) <==> PalletWithinCapacity(items, cfg, v.x, p)
    {
      var pair := CapacityBlock(items, cfg, p);
      EvalMassTerms(items, p, |items|, v);
      EvalVolumeTerms(items, p, |items|, v);
      assert HoldsAll(pair, v) <==> Holds(pair[0], v) && Holds(pair[1], v);
    }
  }

  /** The built model is exactly the declarative constraint model: its solutions are the valid solutions. */
  lemma BuildModelSound(items: seq<Item>, cfg: PalletConfig, v: Values)
    ensures Satisfies(BuildModel(items, cfg), v) <==> ValidSolution(items, cfg, v)
  {
    var a := ItemConstraints(items, cfg.count);
    var b := StackConstraints(items);
    var c := CapacityConstraints(items, cfg);
    HoldsAllAppend(a + b, c, v);
    HoldsAllAppend(a, b, v);
    ItemConstraintsHold(items, cfg.count, v);
    StackConstraintsHold(items, v);
    CapacityConstraintsHold(items, cfg, v);
  }

  /** The objective the builder sets: under the at-most-one-pallet constraint, the value of the load. */
  lemma BuildModelObjective(items: seq<Item>, cfg: PalletConfig, v: Values)
    requires forall i :: 0 <= i < |items| ==> AtMostOnePallet(v.x, i, cfg.count)
    ensures ObjectiveValue(BuildModel(items, cfg), v) == LoadedValue(items, v.x, cfg.count, |items|)
  {
    EvalObjectiveTerms(items, cfg.count, |items|, v);
  }

  // ---- the model mentions only declared variables ----

  predicate TermsDeclared(ts: seq<Term>, n: nat, pallets: nat)
  {
    forall t :: 0 <= t < |ts| ==> Declared(ts[t].v, n, pallets)
  }

  predicate AllDeclared(cs: seq<Constraint>, n: nat, pallets: nat)
  {
    forall c :: 0 <= c < |cs| ==> TermsDeclared(cs[c].terms, n, pallets)
  }

  lemma TermsDeclaredAppend(a: seq<Term>, b: seq<Term>, n: nat, pallets: nat)
    requires TermsDeclared(a, n, pallets) && TermsDeclared(b, n, pallets)
    ensures TermsDeclared(a + b, n, pallets)
  {
    forall t | 0 <= t < |a + b| ensures Declared((a + b)[t].v, n, pallets) {
      if t < |a| {
        assert (a + b)[t] == a[t];
      } else {
        assert (a + b)[t] == b[t - |a|];
      }
    }
  }

  lemma AllDeclaredAppend(a: seq<Constraint>, b: seq<Constraint>, n: nat, pallets: nat)
    requires AllDeclared(a, n, pallets) && AllDeclared(b, n, pallets)
    ensures AllDeclared(a + b, n, pallets)
  {
    forall c | 0 <= c < |a + b| ensures TermsDeclared((a + b)[c].terms, n, pallets) {
      if c < |a| {
        assert (a + b)[c] == a[c];
      } else {
        assert (a + b)[c] == b[c - |a|];
      }
    }
  }

  lemma {:induction false} AllDeclaredConcat(blocks: seq<seq<Constraint>>, n: nat, pallets: nat)
    requires forall b :: 0 <= b < |blocks| ==> AllDeclared(blocks[b], n, pallets)
    ensures AllDeclared(Concat(blocks), n, pallets)
  {
    if |blocks| > 0 {
      var init := blocks[..|blocks| - 1];
      assert forall b :: 0 <= b < |init| ==> init[b] == blocks[b];
      AllDeclaredConcat(init, n, pallets);
      AllDeclaredAppend(Concat(init), blocks[|blocks| - 1], n, pallets);
    }
  }

  lemma {:induction false} AssignTermsDeclared(i: nat, k: nat, n: nat, pallets: nat)
    requires i < n && k <= pallets
    ensures TermsDeclared(AssignTerms(i, k), n, pallets)
  {
    if k > 0 {
      AssignTermsDeclared(i, k - 1, n, pallets);
      TermsDeclaredAppend(AssignTerms(i, k - 1), [Term(1, X(i, k - 1))], n, pallets);
    }
  }

  lemma {:induction false} OrientTermsDeclared(i: nat, k: nat, n: nat, pallets: nat)
    requires i < n && k <= OrientationCount
    ensures TermsDeclared(OrientTerms(i, k), n, pallets)
  {
    if k > 0 {
      OrientTermsDeclared(i, k - 1, n, pallets);
      TermsDeclaredAppend(OrientTerms(i, k - 1), [Term(1, R(i, k - 1))], n, pallets);
    }
  }

  lemma {:induction false} LedgerTermsDeclared(items: seq<Item>, p: nat, k: nat, pallets: nat)
    requires p < pallets && k <= |items|
    ensures TermsDeclared(MassTerms(items, p, k), |items|, pallets)
    ensures TermsDeclared(VolumeTerms(items, p, k), |items|, pallets)
  {
    if k > 0 {
      LedgerTermsDeclared(items, p, k - 1, pallets);
      TermsDeclaredAppend(MassTerms(items, p, k - 1), [Term(items[k - 1].mass, X(k - 1, p))], |items|, pallets);
      TermsDeclaredAppend(VolumeTerms(items, p, k - 1), [Term(items[k - 1].vol, X(k - 1, p))], |items|, pallets);
    }
  }

  lemma {:induction false} ObjectiveTermsDeclared(items: seq<Item>, pallets: nat, k: nat)
    requires k <= |items|
    ensures TermsDeclared(ObjectiveTerms(items, pallets, k), |items|, pallets)
  {
    if k > 0 {
      ObjectiveTermsDeclared(items, pallets, k - 1);
      ValueTermsDeclared(items[k - 1], k - 1, pallets, |items|, pallets);
      TermsDeclaredAppend(ObjectiveTerms(items, pallets, k - 1), ValueTerms(items[k - 1], k - 1, pallets), |items|, pallets);
    }
  }

  lemma {:induction false} ValueTermsDeclared(it: Item, i: nat, k: nat, n: nat, pallets: nat)
    requires i < n && k <= pallets
    ensures TermsDeclared(ValueTerms(it, i, k), n, pallets)
  {
    if k > 0 {
      ValueTermsDeclared(it, i, k - 1, n, pallets);
      TermsDeclaredAppend(ValueTerms(it, i, k - 1), [Term(it.vol * Priority(it), X(i, k - 1))], n, pallets);
    }
  }

  lemma ItemConstraintsDeclared(items: seq<Item>, pallets: nat)
    ensures AllDeclared(ItemConstraints(items, pallets), |items|, pallets)
  {
    var n := |items|;
    var blocks := seq(n, i requires 0 <= i < n => ItemBlock(items, pallets, i));
    forall i | 0 <= i < n ensures AllDeclared(blocks[i], n, pallets) {
      AssignTermsDeclared(i, pallets, n, pallets);
      OrientTermsDeclared(i, OrientationCount, n, pallets);
    }
    AllDeclaredConcat(blocks, n, pallets);
  }

  lemma StackConstraintsDeclared(items: seq<Item>, pallets: nat)
    ensures AllDeclared(StackConstraints(items), |items|, pallets)
  {
    var n := |items|;
    var rows := seq(n, i requires 0 <= i < n => StackRow(items, i));
    forall i | 0 <= i < n ensures AllDeclared(rows[i], n, pallets) {
      var pairs := seq(n, j requires 0 <= j < n => StackPair(items, i, j));
      AllDeclaredConcat(pairs, n, pallets);
    }
    AllDeclaredConcat(rows, n, pallets);
  }

  lemma CapacityConstraintsDeclared(items: seq<Item>, cfg: PalletConfig)
    ensures AllDeclared(CapacityConstraints(items, cfg), |items|, cfg.count)
  {
    var blocks := seq(cfg.count, p requires 0 <= p < cfg.count => CapacityBlock(items, cfg, p));
    forall p | 0 <= p < cfg.count ensures AllDeclared(blocks[p], |items|, cfg.count) {
      LedgerTermsDeclared(items, p, |items|, cfg.count);
    }
    AllDeclaredConcat(blocks, |items|, cfg.count);
  }

  /**
   * The builder uses only variables it declared: x[i, p] for items and pallets, r[i, k] for the
   * six orientations, and s[i, j] only for distinct items.
   */
  lemma BuildModelDeclared(items: seq<Item>, cfg: PalletConfig)
    ensures AllDeclared(BuildModel(items, cfg).constraints, |items|, cfg.count)
    ensures TermsDeclared(BuildModel(items, cfg).objective, |items|, cfg.count)
  {
    var a, b, c := ItemConstraints(items, cfg.count), StackConstraints(items), CapacityConstraints(items, cfg);
    ItemConstraintsDeclared(items, cfg.count);
    StackConstraintsDeclared(items, cfg.count);
    CapacityConstraintsDeclared(items, cfg);
    AllDeclaredAppend(a, b, |items|, cfg.count);
    AllDeclaredAppend(a + b, c, |items|, cfg.count);
    ObjectiveTermsDeclared(items, cfg.count, |items|);
  }
}
