/** backend/logic/phase_transition.py: the systemic phase the portfolio moves into. */
module PhaseTransition {
  import opened Common
  import opened Insights
  import opened OperatorCapacity
  import opened OperationalRegime
  import opened DecisionEnergy

  datatype Phase =
    | AdaptiveEquilibrium | StabilizationCycle | DefensiveConvergence | RecoveryReentry
    | PressureFormation | ResilienceFragmentation | ConstrainedOperation

  /** The reasons for constrained operation that do not read capacity. */
  predicate IsConstrained(n: Tally, regime: Option<Regime>, energy: Option<Energy>) {
    || (&& regime == Some(Containment)
        && energy == Some(StructurallyExhausting)
        && n(CoupledCascade) >= 1
        && n(Compounding) >= 1)
    || (&& n(FailedOutcomes) >= 2
        && n(Compounding) >= 1
        && n(CoupledCascade) >= 1
        && n(DegradingStructure) >= 1)
  }

  function Classify(n: Tally, regime: Option<Regime>, capacity: Option<CapacityState>,
                    energy: Option<Energy>): Phase
  {
    if || IsConstrained(n, regime, energy)
       || (&& regime == Some(Containment)
           && capacity == Some(Overloaded)
           && n(DegradingStructure) >= 1
           && n(Compounding) >= 1)
    then ConstrainedOperation
    else if || (&& n(DegradingStructure) >= 1
                && n(Compounding) >= 1
                && n(ResetView) >= 1
                && n(LockedPressure) >= 1)
            || (&& n(DegradingStructure) >= 1
                && n(FragmentedView) >= 2
                && n(DeterioratingAdaptation) >= 1)
    then ResilienceFragmentation
    else if || (&& n(RecurringSignal) >= 2
                && n(DegradingStructure) >= 1
                && (n(AccumulatingTrajectory) >= 1 || n(CoupledCascade) >= 1))
            || (n(RecurringSignal) >= 3 && n(FragmentedView) >= 1)
            || (n(RecurringSignal) >= 2 && n(CoupledCascade) >= 1 && n(FragmentedView) >= 1)
    then PressureFormation
    else if && n(RecoveringTrajectory) >= 1
            && n(StrengtheningAdaptation) >= 1
            && n(DegradingStructure) == 0
            && n(LockReopening) >= 1
            && n(Compounding) == 0
    then RecoveryReentry
    else if || ((regime == Some(Defensive) || regime == Some(Constrained)) && n(RecurringSignal) >= 1)
            || (n(NarrowResilience) >= 2 && n(RigidAdaptation) >= 1 && n(RecurringSignal) >= 1)
            || (n(RecurringSignal) >= 2 && n(CoupledCascade) >= 1)
            || ((energy == Some(Draining) || energy == Some(Disruptive)) && n(RecurringSignal) >= 2)
    then DefensiveConvergence
    else if || n(RecoveringTrajectory) >= 1
            || (&& n(RecurringSignal) >= 1
                && energy != Some(Draining) && energy != Some(Disruptive)
                && energy != Some(StructurallyExhausting)
                && regime != Some(Constrained) && regime != Some(Containment))
    then StabilizationCycle
    else AdaptiveEquilibrium
  }

  /** constrained operation > resilience fragmentation > pressure formation > the rest. */
  function Strain(p: Option<Phase>): nat {
    match p
    case Some(ConstrainedOperation) => 3
    case Some(ResilienceFragmentation) => 2
    case Some(PressureFormation) => 1
    case _ => 0
  }

  lemma StrainGrows(n: Tally, m: Tally, r: Option<Regime>, s: Option<Regime>,
                    c: Option<CapacityState>, d: Option<CapacityState>,
                    e: Option<Energy>, f: Option<Energy>)
    requires NoMore(n, m)
    requires Severity(r) <= Severity(s)
    requires CapacityLoad(c) <= CapacityLoad(d)
    requires Cost(e) <= Cost(f)
    ensures Strain(Some(Classify(n, r, c, e))) <= Strain(Some(Classify(m, s, d, f)))
  {
  }

  /** When capacity is relieved, the phase drops exactly when only the overload constrained operation. */
  lemma PhaseKeptExactly(n: Tally, m: Tally, r: Option<Regime>, s: Option<Regime>,
                         c: Option<CapacityState>, d: Option<CapacityState>, e: Option<Energy>, f: Option<Energy>)
    requires NoMore(n, m) && CapacityLoad(d) < CapacityLoad(c)
    requires Severity(r) <= Severity(s) && Cost(e) <= Cost(f)
    ensures Strain(Some(Classify(n, r, c, e))) <= Strain(Some(Classify(m, s, d, f))) <==>
      Classify(n, r, c, e) != ConstrainedOperation || IsConstrained(m, s, f)
  {
  }
}
