/** backend/logic/institutional_inertia.py: resistance to operational change. */
module InstitutionalInertia {
  import opened Common
  import opened Insights
  import opened OperationalRegime
  import opened DecisionEnergy
  import opened PhaseTransition
  import opened StabilityTopology
  import Doctrines = OperationalDoctrine
  import opened OperationalDoctrine

  datatype Inertia =
    | FlexibleStructure | AdaptiveInertia | OperationalHardening
    | StructuralInertia | LockedBehavior | InstitutionalFreeze

  function Classify(n: Tally, regime: Option<Regime>, phase: Option<Phase>, topology: Option<Topology>,
                    energy: Option<Energy>, doctrine: Option<Doctrine>): Inertia
  {
    if || (&& Hardness(doctrine) >= 1
           && n(DegradedResilience) >= 1
           && energy == Some(StructurallyExhausting)
           && phase == Some(ConstrainedOperation))
       || (&& n(Compounding) >= 1
           && n(DegradedResilience) >= 1
           && n(ResetView) >= 2
           && n(SystemicCascade) >= 1)
       || (&& doctrine == Some(RigidDoctrine)
           && n(LockedPressure) >= 1
           && n(FailedOutcomes) >= 2
           && n(DegradedResilience) >= 1)
    then InstitutionalFreeze
    else if || (&& doctrine == Some(RigidDoctrine)
                && n(LockedPressure) >= 1
                && n(FailedOutcomes) >= 1
                && phase == Some(ConstrainedOperation))
            || (n(RigidAdaptation) >= 2 && n(Compounding) >= 1 && n(FailedOutcomes) >= 1)
            || (&& n(RigidAdaptation) >= 1
                && n(LockedPressure) >= 1
                && n(RecurringSignal) >= 2
                && n(FailedOutcomes) >= 1)
    then LockedBehavior
    else if || (&& doctrine == Some(EmbeddedDoctrine)
                && (topology == Some(StructurallyUnbalanced) || topology == Some(CollapsingCompensation))
                && n(RecurringSignal) >= 2)
            || (&& n(Compounding) >= 1
                && n(DegradedView) >= 1
                && n(RecurringSignal) >= 2
                && n(AccumulatingTrajectory) >= 1)
            || (n(RecurringSignal) >= 3 && n(LockWaiting) >= 1 && Hardness(doctrine) >= 1)
    then StructuralInertia
    else if || (&& doctrine == Some(DefensivePatterning)
                && n(CompressedTiming) >= 2
                && n(RecurringSignal) >= 2)
            || (&& n(NarrowResilience) >= 1
                && n(RecurringSignal) >= 2
                && (n(RigidAdaptation) >= 1 || n(PlateauingAdaptation) >= 1))
            || (&& (regime == Some(Defensive) || regime == Some(Constrained))
                && n(LockWaiting) >= 1
                && n(RecurringSignal) >= 2
                && (doctrine == Some(DefensivePatterning) || doctrine == Some(RecurringBias)))
    then OperationalHardening
    else if || (&& n(RecurringSignal) >= 2
                && (doctrine == Some(RecurringBias) || doctrine == Some(DefensivePatterning)))
            || (n(RecurringSignal) >= 1 && n(LockWaiting) >= 1 && n(HealthyResilience) >= 1)
            || (n(RecurringSignal) >= 2 && n(AccumulatingTrajectory) == 0 && n(Compounding) == 0)
    then AdaptiveInertia
    else FlexibleStructure
  }

  /** freeze > locked > structural > the rest. */
  function Resistance(i: Option<Inertia>): nat {
    match i
    case Some(InstitutionalFreeze) => 3
    case Some(LockedBehavior) => 2
    case Some(StructuralInertia) => 1
    case _ => 0
  }

  /**
   Rigid doctrine on some counts forces at least locked behaviour on the same counts, whatever
   phase, regime and topology either stage was given.
   */
  lemma RigidDoctrineLocksBehavior(n: Tally, dr: Option<Regime>, dp: Option<Phase>, dt: Option<Topology>,
                                   r: Option<Regime>, p: Option<Phase>, t: Option<Topology>, e: Option<Energy>)
    requires Coherent(n)
    requires Doctrines.Classify(n, dr, dp, dt) == RigidDoctrine
    ensures Resistance(Some(Classify(n, r, p, t, e, Some(RigidDoctrine)))) >= 2
  {
  }

  /**
   The structural rank reads doctrine at exactly one value (embedded), so the stage alone is not
   monotone in doctrine; it is once a rigid doctrine is known to come from the same counts.
   */
  lemma ResistanceGrows(n: Tally, m: Tally, r: Option<Regime>, s: Option<Regime>,
                        p: Option<Phase>, q: Option<Phase>, t: Option<Topology>, u: Option<Topology>,
                        e: Option<Energy>, f: Option<Energy>, d: Option<Doctrine>, g: Option<Doctrine>)
    requires NoMore(n, m) && Coherent(m)
    requires Severity(r) <= Severity(s)
    requires Strain(p) <= Strain(q)
    requires Imbalance(t) <= Imbalance(u)
    requires Cost(e) <= Cost(f)
    requires Hardness(d) <= Hardness(g)
    requires g == Some(RigidDoctrine) ==> Doctrines.Classify(m, s, q, u) == RigidDoctrine
    ensures Resistance(Some(Classify(n, r, p, t, e, d))) <= Resistance(Some(Classify(m, s, q, u, f, g)))
  {
    if g == Some(RigidDoctrine) {
      RigidDoctrineLocksBehavior(m, s, q, u, s, q, u, f);
    }
  }
}
