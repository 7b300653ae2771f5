/** backend/logic/operational_doctrine.py: recurring behaviour hardening into doctrine. */
module OperationalDoctrine {
  import opened Common
  import opened Insights
  import opened OperationalRegime
  import opened DecisionEnergy
  import opened PhaseTransition
  import opened StabilityTopology

  datatype Doctrine =
    | AdaptiveExecution | RecurringBias | DefensivePatterning
    | StabilizationDependency | EmbeddedDoctrine | RigidDoctrine

  predicate IsRigid(n: Tally, regime: Option<Regime>, phase: Option<Phase>) {
    || (&& n(RigidAdaptation) >= 1
        && n(FailedOutcomes) >= 2
        && n(Compounding) >= 1
        && n(LockedPressure) >= 1)
    || (&& n(RigidAdaptation) >= 2
        && n(Compounding) >= 1
        && (phase == Some(ConstrainedOperation) || regime == Some(Containment))
        && n(FailedOutcomes) >= 1)
  }

  predicate IsEmbedded(n: Tally, topology: Option<Topology>) {
    || (&& n(AccumulatingTrajectory) >= 1
        && n(Compounding) >= 1
        && n(RigidAdaptation) >= 1
        && n(RecurringSignal) >= 2)
    || (&& n(Compounding) >= 1
        && (topology == Some(StructurallyUnbalanced) || topology == Some(CollapsingCompensation))
        && n(RecurringSignal) >= 2)
    || (n(Compounding) >= 2 && n(RecurringSignal) >= 3)
  }

  predicate IsDependent(n: Tally) {
    || (n(RecurringSignal) >= 2 && n(LockWaiting) >= 2)
    || (n(RecurringSignal) >= 2 && n(RecurringReversal) >= 1 && n(ResetView) >= 1)
    || (n(DegradedView) >= 1 && n(RecurringSignal) >= 2 && n(LockWaiting) >= 1)
    || (n(RecurringSignal) >= 3 && n(CompressedTiming) >= 2)
  }

  /** energy_state is a parameter of the source too, and its cascade never reads it. */
  function Classify(n: Tally, regime: Option<Regime>, phase: Option<Phase>,
                    topology: Option<Topology>): Doctrine
  {
    if IsRigid(n, regime, phase) then RigidDoctrine
    else if IsEmbedded(n, topology) then EmbeddedDoctrine
    else if IsDependent(n) then StabilizationDependency
    else if || (&& (regime == Some(Defensive) || regime == Some(Constrained) || regime == Some(Containment))
                && n(RecurringSignal) >= 2
                && n(NarrowResilience) >= 1)
            || (n(CompressedTiming) >= 2 && n(RecurringSignal) >= 2 && n(NarrowResilience) >= 1)
            || (&& (regime == Some(Defensive) || regime == Some(Constrained))
                && n(RigidAdaptation) >= 1
                && n(RecurringSignal) >= 1)
    then DefensivePatterning
    else if || (n(ModerateDrift) >= 1 && n(RecurringSignal) >= 2)
            || (n(RecurringSignal) >= 2 && n(DegradedView) == 0 && n(Compounding) == 0)
            || (n(RecurringSignal) >= 1 && n(AccumulatingTrajectory) >= 1)
    then RecurringBias
    else AdaptiveExecution
  }

  /** rigid > embedded > dependency > the rest. */
  function Hardness(d: Option<Doctrine>): nat {
    match d
    case Some(RigidDoctrine) => 3
    case Some(EmbeddedDoctrine) => 2
    case Some(StabilizationDependency) => 1
    case _ => 0
  }

  lemma ReasonsGrow(n: Tally, m: Tally, r: Option<Regime>, s: Option<Regime>,
                    p: Option<Phase>, q: Option<Phase>, t: Option<Topology>, u: Option<Topology>)
    requires NoMore(n, m)
    requires Severity(r) <= Severity(s) && Strain(p) <= Strain(q) && Imbalance(t) <= Imbalance(u)
    ensures IsRigid(n, r, p) ==> IsRigid(m, s, q)
    ensures IsEmbedded(n, t) ==> IsEmbedded(m, u)
    ensures IsDependent(n) ==> IsDependent(m)
  {
  }

  lemma HardnessGrows(n: Tally, m: Tally, r: Option<Regime>, s: Option<Regime>,
                      p: Option<Phase>, q: Option<Phase>, t: Option<Topology>, u: Option<Topology>)
    requires NoMore(n, m)
    requires Severity(r) <= Severity(s)
    requires Strain(p) <= Strain(q)
    requires Imbalance(t) <= Imbalance(u)
    ensures Hardness(Some(Classify(n, r, p, t))) <= Hardness(Some(Classify(m, s, q, u)))
  {
    ReasonsGrow(n, m, r, s, p, q, t, u);
  }

  /** defensive_patterning or harder. */
  predicate AtLeastDefensive(d: Doctrine) {
    d == DefensivePatterning || d == StabilizationDependency || d == EmbeddedDoctrine || d == RigidDoctrine
  }

  /**
   One reason for defensive_patterning omits containment, so it is left exactly when the regime
   becomes containment and none of the other reasons holds.
   */
  lemma DefensiveKeptExactly(n: Tally, m: Tally, r: Option<Regime>, s: Option<Regime>,
                             p: Option<Phase>, q: Option<Phase>, t: Option<Topology>, u: Option<Topology>)
    requires NoMore(n, m)
    requires Severity(r) <= Severity(s) && Strain(p) <= Strain(q) && Imbalance(t) <= Imbalance(u)
    requires AtLeastDefensive(Classify(n, r, p, t))
    ensures AtLeastDefensive(Classify(m, s, q, u)) <==>
      || s != Some(Containment)
      || (m(RecurringSignal) >= 2 && m(NarrowResilience) >= 1)
      || IsDependent(m) || IsEmbedded(m, u) || IsRigid(m, s, q)
  {
  }
}
