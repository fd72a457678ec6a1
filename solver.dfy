/**
 * The solver driver: build the model, hand it to the solving capability, and return its status
 * with the solved values when there are any. The solving capability itself (its search and its
 * time limit) is a parameter; what it promises about its answer is stated in SolverContract.
 */
module Solver {
  import opened Items
  import opened Solution
  import opened CpModel

  datatype Status = Optimal | Feasible | Infeasible | ModelInvalid | Unknown

  /** What the solving capability returns: a status and a value for every variable. */
  datatype SolverAnswer = SolverAnswer(status: Status, values: Values)

  /**
   * The solving capability's promise about its answer to model m: OPTIMAL and FEASIBLE come with
   * an assignment that satisfies every constraint, OPTIMAL's has the largest objective among all
   * satisfying assignments, and INFEASIBLE means no assignment satisfies the model.
   */
  ghost predicate SolverContract(m: Model, answer: SolverAnswer)
  {
    && (answer.status == Optimal || answer.status == Feasible ==> Satisfies(m, answer.values))
    && (answer.status == Optimal ==>
          forall w :: Satisfies(m, w) ==> ObjectiveValue(m, w) <= ObjectiveValue(m, answer.values))
    && (answer.status == Infeasible ==> forall w :: !Satisfies(m, w))
  }

  /**
   * One solve: the status is passed through unchanged, and the values are returned exactly when it
   * is OPTIMAL or FEASIBLE. Such values form a valid solution, OPTIMAL values have the largest load
   * value of all valid solutions, and INFEASIBLE happens only with a pallet of negative capacity.
   */
  method Optimize(items: seq<Item>, cfg: PalletConfig, solve: Model -> SolverAnswer)
    returns (status: Status, solution: Option<Values>)
    requires SolverContract(BuildModel(items, cfg), solve(BuildModel(items, cfg)))
    ensures status == solve(BuildModel(items, cfg)).status
    ensures solution.Some? <==> status == Optimal || status == Feasible
    ensures solution.Some? ==> solution.value == solve(BuildModel(items, cfg)).values
    ensures solution.Some? ==> ValidSolution(items, cfg, solution.value)
    ensures status == Optimal ==>
              forall w :: ValidSolution(items, cfg, w) ==>
                LoadedValue(items, w.x, cfg.count, |items|) <= LoadedValue(items, solution.value.x, cfg.count, |items|)
    ensures status == Infeasible ==> !HasValidSolution(items, cfg)
    ensures status == Infeasible && NonNegative(items) ==>
              cfg.count > 0 && (cfg.capacityMass < 0 || cfg.capacityVolume < 0)
  {
    var model := BuildModel(items, cfg);
    var answer := solve(model);
    status := answer.status;
    if status == Optimal || status == Feasible {
      BuildModelSound(items, cfg, answer.values);
      solution := Some(answer.values);
      if status == Optimal {
        ValidAtMostOne(items, cfg, answer.values);
        BuildModelObjective(items, cfg, answer.values);
        forall w | ValidSolution(items, cfg, w)
          ensures LoadedValue(items, w.x, cfg.count, |items|) <= LoadedValue(items, answer.values.x, cfg.count, |items|)
        {
          BuildModelSound(items, cfg, w);
          ValidAtMostOne(items, cfg, w);
          BuildModelObjective(items, cfg, w);
        }
      }
    } else {
      solution := None;
      if status == Infeasible {
        forall w ensures !ValidSolution(items, cfg, w) {
          BuildModelSound(items, cfg, w);
        }
        if NonNegative(items) {
          FeasibilityCharacterized(items, cfg);
        }
      }
    }
  }
}
