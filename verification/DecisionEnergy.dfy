/** backend/logic/decision_energy.py: the energy cost of the current interventions. */
module DecisionEnergy {
  import opened Common
  import opened Insights
  import opened OperatorCapacity
  import opened OperationalRegime

  datatype Energy = Lightweight | Manageable | Draining | Disruptive | StructurallyExhausting

  predicate IsExhausting(n: Tally, regime: Option<Regime>) {
    || regime == Some(Containment)
    || (n(DegradingStructure) >= 1 && n(Compounding) >= 1)
    || (n(LockedStructure) >= 2 && n(Compounding) >= 1)
    || n(DegradingStructure) >= 2
  }

  predicate IsDisruptive(n: Tally) {
    || (n(CoupledCascade) >= 1 && n(FragmentedView) >= 1)
    || n(CoupledCascade) >= 2
    || (n(FragmentedView) >= 2 && n(RecurringSignal) >= 2)
    || (n(LockedStructure) >= 1 && n(CoupledCascade) >= 1)
  }

  /** The reasons for draining that do not read capacity. */
  predicate IsDraining(n: Tally) {
    || n(RecurringSignal) >= 3
    || (n(RigidAdaptation) >= 2 && n(RecurringSignal) >= 1)
    || (n(FragmentedView) >= 1 && n(RecurringSignal) >= 2)
  }

  function Classify(n: Tally, capacity: Option<CapacityState>, regime: Option<Regime>): Energy {
    if IsExhausting(n, regime) then StructurallyExhausting
    else if IsDisruptive(n) then Disruptive
    else if || (n(RecurringSignal) >= 2 && (capacity == Some(Overloaded) || capacity == Some(Saturated)))
            || IsDraining(n)
    then Draining
    else if n(RecurringSignal) >= 1 || n(Active) >= 2 then Manageable
    else Lightweight
  }

  function Cost(e: Option<Energy>): nat {
    match e
    case Some(StructurallyExhausting) => 4
    case Some(Disruptive) => 3
    case Some(Draining) => 2
    case Some(Manageable) => 1
    case _ => 0
  }

  lemma CostGrows(n: Tally, m: Tally, c: Option<CapacityState>, d: Option<CapacityState>,
                  r: Option<Regime>, s: Option<Regime>)
    requires NoMore(n, m)
    requires CapacityLoad(c) <= CapacityLoad(d)
    requires Severity(r) <= Severity(s)
    ensures Cost(Some(Classify(n, c, r))) <= Cost(Some(Classify(m, d, s)))
  {
  }

  /** When capacity is relieved, energy drops exactly when only the capacity made it draining. */
  lemma EnergyKeptExactly(n: Tally, m: Tally, c: Option<CapacityState>, d: Option<CapacityState>,
                          r: Option<Regime>, s: Option<Regime>)
    requires NoMore(n, m) && CapacityLoad(d) < CapacityLoad(c)
    requires Severity(r) <= Severity(s)
    ensures Cost(Some(Classify(n, c, r))) <= Cost(Some(Classify(m, d, s))) <==>
      Classify(n, c, r) != Draining || d == Some(Saturated) || IsExhausting(m, s) || IsDisruptive(m) || IsDraining(m)
  {
  }
}
