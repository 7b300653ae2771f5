/** backend/logic/stability_topology.py: which execution layers still carry stability. */
module StabilityTopology {
  import opened Common
  import opened Insights
  import opened OperatorCapacity
  import opened OperationalRegime
  import opened DecisionEnergy
  import opened PhaseTransition

  datatype Topology =
    | BalancedStability | CompensatingStructure | NarrowingSupport
    | FragmentedStability | StructurallyUnbalanced | CollapsingCompensation

  predicate IsCollapsing(n: Tally, capacity: Option<CapacityState>, phase: Option<Phase>) {
    || (&& n(LockedPressure) >= 1
        && n(DegradedResilience) >= 1
        && (n(ResetView) >= 1 || n(DegradedView) >= 2)
        && (capacity == Some(Overloaded) || n(FailedOutcomes) >= 2))
    || (&& phase == Some(ConstrainedOperation)
        && n(CoupledCascade) >= 1
        && n(DegradingStructure) >= 1
        && n(DegradedResilience) >= 1)
  }

  predicate IsUnbalanced(n: Tally, regime: Option<Regime>, energy: Option<Energy>) {
    || (&& n(DegradingStructure) >= 1
        && regime == Some(Containment)
        && (energy == Some(StructurallyExhausting) || n(Compounding) >= 1))
    || (&& n(DegradingStructure) >= 1
        && n(Compounding) >= 1
        && n(AccumulatingTrajectory) >= 1
        && n(RecurringSignal) >= 2)
  }

  predicate IsFragmented(n: Tally) {
    || (&& n(DegradedView) >= 1
        && n(CoupledCascade) >= 1
        && n(RecurringSignal) >= 2
        && n(Compounding) >= 1)
    || (n(ResetView) >= 1 && n(CoupledCascade) >= 1 && n(StiffAdaptation) >= 1)
    || (n(DegradedView) >= 2 && n(RecurringSignal) >= 2 && n(StiffAdaptation) >= 1)
  }

  /** The reasons for narrowing support that do not read energy. */
  predicate IsNarrowing(n: Tally) {
    || (n(RecurringSignal) >= 2 && n(NarrowResilience) >= 1 && n(StiffAdaptation) >= 1)
    || (n(DegradingTrajectory) >= 1 && n(NarrowingPressure) >= 1 && n(RecurringSignal) >= 1)
  }

  function Classify(n: Tally, regime: Option<Regime>, capacity: Option<CapacityState>,
                    energy: Option<Energy>, phase: Option<Phase>): Topology
  {
    if IsCollapsing(n, capacity, phase) then CollapsingCompensation
    else if IsUnbalanced(n, regime, energy) then StructurallyUnbalanced
    else if IsFragmented(n) then FragmentedStability
    else if || IsNarrowing(n)
            || (n(RecurringSignal) >= 3 && (energy == Some(Draining) || energy == Some(Disruptive)))
    then NarrowingSupport
    else if || (n(NarrowResilience) >= 1 && n(RecurringSignal) >= 1 && n(DegradingStructure) == 0)
            || (n(RecurringSignal) >= 1 && n(StiffAdaptation) >= 1 && n(DegradedView) == 0)
    then CompensatingStructure
    else BalancedStability
  }

  /** collapsing > unbalanced > fragmented > the rest. */
  function Imbalance(t: Option<Topology>): nat {
    match t
    case Some(CollapsingCompensation) => 3
    case Some(StructurallyUnbalanced) => 2
    case Some(FragmentedStability) => 1
    case _ => 0
  }

  lemma ImbalanceGrows(n: Tally, m: Tally, r: Option<Regime>, s: Option<Regime>,
                       c: Option<CapacityState>, d: Option<CapacityState>,
                       e: Option<Energy>, f: Option<Energy>, p: Option<Phase>, q: Option<Phase>)
    requires NoMore(n, m)
    requires Severity(r) <= Severity(s)
    requires CapacityLoad(c) <= CapacityLoad(d)
    requires Cost(e) <= Cost(f)
    requires Strain(p) <= Strain(q)
    ensures Imbalance(Some(Classify(n, r, c, e, p))) <= Imbalance(Some(Classify(m, s, d, f, q)))
  {
  }

  /** When capacity is relieved, a topology drops exactly when only the overload made it collapse. */
  lemma TopologyKeptExactly(n: Tally, m: Tally, r: Option<Regime>, s: Option<Regime>,
                            c: Option<CapacityState>, d: Option<CapacityState>,
                            e: Option<Energy>, f: Option<Energy>, p: Option<Phase>, q: Option<Phase>)
    requires NoMore(n, m) && CapacityLoad(d) < CapacityLoad(c)
    requires Severity(r) <= Severity(s) && Cost(e) <= Cost(f) && Strain(p) <= Strain(q)
    ensures Imbalance(Some(Classify(n, r, c, e, p))) <= Imbalance(Some(Classify(m, s, d, f, q))) <==>
      Classify(n, r, c, e, p) != CollapsingCompensation || IsCollapsing(m, d, q)
  {
  }

  /** narrowing_support or worse. */
  predicate AtLeastNarrowing(t: Topology) {
    t == NarrowingSupport || t == FragmentedStability || t == StructurallyUnbalanced || t == CollapsingCompensation
  }

  /**
   narrowing_support reads energy at two middle values, so it is left exactly when energy becomes
   structurally exhausting and no reason that does not need those values holds.
   */
  lemma NarrowingKeptExactly(n: Tally, m: Tally, r: Option<Regime>, s: Option<Regime>,
                             c: Option<CapacityState>, d: Option<CapacityState>,
                             e: Option<Energy>, f: Option<Energy>, p: Option<Phase>, q: Option<Phase>)
    requires NoMore(n, m) && CapacityLoad(c) <= CapacityLoad(d)
    requires Severity(r) <= Severity(s) && Cost(e) <= Cost(f) && Strain(p) <= Strain(q)
    requires AtLeastNarrowing(Classify(n, r, c, e, p))
    ensures AtLeastNarrowing(Classify(m, s, d, f, q)) <==>
      || f != Some(StructurallyExhausting) || IsNarrowing(m) || IsFragmented(m)
      || IsUnbalanced(m, s, f) || IsCollapsing(m, d, q)
  {
  }
}
