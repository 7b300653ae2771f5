/** backend/logic/operational_regime.py: the systemic operating mode. */
module OperationalRegime {
  import opened Common
  import opened Insights
  import opened OperatorCapacity

  datatype Commitment = FragmentedCommitment | Abandoned | OtherCommitment

  datatype Regime =
    Expansion | Stabilization | RecoveryTransition | Defensive | Constrained | Containment

  predicate CallsForContainment(n: Tally) {
    || n(DegradingStructure) >= 1
    || (n(RecurringCascade) >= 1 && n(Compounding) >= 1)
    || n(BrittlePlus) >= 3
    || (n(FailedDeteriorating) >= 1 && n(Compounding) >= 1)
    || (n(BrittlePlus) >= 2 && n(RecurringCascade) >= 1)
  }

  /** The reasons for constraint that do not read capacity. */
  predicate CallsForConstraint(n: Tally) {
    || n(FragmentedView) >= 2
    || n(LockedStructure) >= 2
    || (n(LateTiming) >= 2 && n(FragmentedView) >= 1)
  }

  /** The cascade in its source order: the first severity whose condition holds. */
  function Classify(n: Tally, commitment: Option<Commitment>, capacity: Option<CapacityState>): Regime {
    if CallsForContainment(n) then Containment
    else if CallsForConstraint(n) || (capacity == Some(Overloaded) && n(FragmentedView) >= 1) then Constrained
    else if || (n(NarrowResilience) >= 2 && n(RigidAdaptation) >= 1)
            || (n(CoupledCascade) >= 1 && n(LateTiming) >= 1)
            || n(NarrowResilience) >= 3
            || n(BrittlePlus) >= 2
            || (n(RigidAdaptation) >= 2 && n(CoupledCascade) >= 1)
            || commitment == Some(FragmentedCommitment)
            || commitment == Some(Abandoned)
    then Defensive
    else if && n(RecoveringTrajectory) >= 1
            && n(StrengtheningAdaptation) >= 1
            && n(DegradingStructure) == 0
            && n(BrittlePlus) <= 1
    then RecoveryTransition
    else
      var majority := if n(Active) / 2 >= 1 then n(Active) / 2 else 1;
      if && n(HealthyResilience) >= majority
         && n(ImprovingDirection) >= 1
         && n(CoupledCascade) == 0
         && n(NarrowResilience) == 0
         && n(FragmentedView) == 0
      then Expansion
      else Stabilization
  }

  /** containment > constrained > defensive > every calmer regime. */
  function Severity(r: Option<Regime>): nat {
    match r
    case Some(Containment) => 3
    case Some(Constrained) => 2
    case Some(Defensive) => 1
    case _ => 0
  }

  lemma SeverityGrows(n: Tally, m: Tally, commitment: Option<Commitment>,
                      c: Option<CapacityState>, d: Option<CapacityState>)
    requires NoMore(n, m)
    requires CapacityLoad(c) <= CapacityLoad(d)
    ensures Severity(Some(Classify(n, commitment, c))) <= Severity(Some(Classify(m, commitment, d)))
  {
  }

  /** When capacity is relieved, a regime drops exactly when only the overload made it constrained. */
  lemma RegimeKeptExactly(n: Tally, m: Tally, commitment: Option<Commitment>,
                          c: Option<CapacityState>, d: Option<CapacityState>)
    requires NoMore(n, m) && CapacityLoad(d) < CapacityLoad(c)
    ensures Severity(Some(Classify(n, commitment, c))) <= Severity(Some(Classify(m, commitment, d))) <==>
      Classify(n, commitment, c) != Constrained || CallsForContainment(m) || CallsForConstraint(m)
  {
  }
}
