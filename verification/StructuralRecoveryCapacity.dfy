/** backend/logic/structural_recovery_capacity.py: can the system still restore itself. */
module StructuralRecoveryCapacity {
  import opened Common
  import opened Insights
  import opened StabilityTopology
  import opened DecisionEnergy
  import opened OperationalDoctrine
  import opened InstitutionalInertia

  datatype RecoveryState =
    | StructurallyRecoverable | RecoverableWithAdaptation | ConstrainedRecovery
    | RestructuringDependent | ContinuityWithoutRecovery | StructurallyExhausted

  predicate IsExhausted(n: Tally, energy: Option<Energy>, doctrine: Option<Doctrine>, inertia: Option<Inertia>) {
    || (&& inertia == Some(InstitutionalFreeze)
        && n(DegradedResilience) >= 1
        && energy == Some(StructurallyExhausting)
        && n(FailedOutcomes) >= 2)
    || (&& (inertia == Some(InstitutionalFreeze) || inertia == Some(LockedBehavior))
        && n(Compounding) >= 1
        && n(ResetView) >= 2
        && n(SystemicCascade) >= 1)
    || (&& doctrine == Some(RigidDoctrine)
        && n(RecurringSignal) >= 3
        && n(FailedOutcomes) >= 2
        && n(DegradedResilience) >= 1
        && n(LockedPressure) >= 1)
  }

  predicate IsBeyondRecovery(n: Tally, topology: Option<Topology>, doctrine: Option<Doctrine>,
                             inertia: Option<Inertia>) {
    || (&& (inertia == Some(LockedBehavior) || inertia == Some(InstitutionalFreeze))
        && n(DegradedResilience) >= 1
        && n(FailedOutcomes) >= 2)
    || (&& n(Compounding) >= 1
        && n(DegradedResilience) >= 1
        && (topology == Some(CollapsingCompensation) || topology == Some(StructurallyUnbalanced))
        && n(RecurringSignal) >= 2)
    || (&& (doctrine == Some(RigidDoctrine) || doctrine == Some(EmbeddedDoctrine))
        && n(RigidAdaptation) >= 2
        && n(LockWaiting) >= 2
        && n(FailedOutcomes) >= 1)
  }

  // The three reasons for restructuring_dependent.

  predicate LocksStructure(n: Tally, inertia: Option<Inertia>) {
    && (inertia == Some(StructuralInertia) || inertia == Some(LockedBehavior))
    && n(LockedPressure) >= 1
    && n(RecurringSignal) >= 2
  }

  predicate RepeatsFailures(n: Tally) {
    n(Compounding) >= 1 && n(DegradedView) >= 1 && n(FailedOutcomes) >= 1 && n(RecurringSignal) >= 2
  }

  predicate WaitsOnSupport(n: Tally, topology: Option<Topology>, doctrine: Option<Doctrine>) {
    && (doctrine == Some(EmbeddedDoctrine) || doctrine == Some(StabilizationDependency))
    && IsUnsupported(topology)
    && n(LockWaiting) >= 2
  }

  predicate IsUnsupported(topology: Option<Topology>) {
    || topology == Some(StructurallyUnbalanced) || topology == Some(CollapsingCompensation)
    || topology == Some(NarrowingSupport)
  }

  /** regime and phase are parameters of the source too, and its cascade never reads them. */
  function Classify(n: Tally, topology: Option<Topology>, energy: Option<Energy>,
                    doctrine: Option<Doctrine>, inertia: Option<Inertia>): RecoveryState
  {
    if IsExhausted(n, energy, doctrine, inertia) then StructurallyExhausted
    else if IsBeyondRecovery(n, topology, doctrine, inertia) then ContinuityWithoutRecovery
    else if LocksStructure(n, inertia) || RepeatsFailures(n) || WaitsOnSupport(n, topology, doctrine)
    then RestructuringDependent
    else if || (&& (inertia == Some(OperationalHardening) || inertia == Some(StructuralInertia))
                && n(NarrowResilience) >= 1
                && n(RecurringSignal) >= 2)
            || (&& n(LockWaiting) >= 1
                && n(RecurringSignal) >= 2
                && (n(RigidAdaptation) >= 1 || n(PlateauingAdaptation) >= 1)
                && n(DegradedView) >= 1)
            || (&& (doctrine == Some(DefensivePatterning) || doctrine == Some(StabilizationDependency))
                && n(NarrowResilience) >= 1
                && n(RecurringSignal) >= 1)
    then ConstrainedRecovery
    else if || (inertia == Some(AdaptiveInertia) && n(RecurringSignal) >= 1 && n(RigidAdaptation) == 0)
            || (&& n(RecurringSignal) >= 1
                && n(HealthyResilience) >= 1
                && n(LockedPressure) == 0
                && n(FailedOutcomes) == 0
                && n(Compounding) == 0)
            || (&& n(RecurringSignal) >= 2
                && n(LockWaiting) <= 1
                && n(DegradedView) == 0
                && (doctrine == Some(RecurringBias) || doctrine == Some(AdaptiveExecution)))
    then RecoverableWithAdaptation
    else StructurallyRecoverable
  }

  /** exhausted > continuity without recovery > the rest. */
  function Loss(r: Option<RecoveryState>): nat {
    match r
    case Some(StructurallyExhausted) => 2
    case Some(ContinuityWithoutRecovery) => 1
    case _ => 0
  }

  lemma LossGrows(n: Tally, m: Tally, t: Option<Topology>, u: Option<Topology>,
                  e: Option<Energy>, f: Option<Energy>, d: Option<Doctrine>, g: Option<Doctrine>,
                  i: Option<Inertia>, j: Option<Inertia>)
    requires NoMore(n, m)
    requires Imbalance(t) <= Imbalance(u)
    requires Cost(e) <= Cost(f)
    requires Hardness(d) <= Hardness(g)
    requires Resistance(i) <= Resistance(j)
    ensures Loss(Some(Classify(n, t, e, d, i))) <= Loss(Some(Classify(m, u, f, g, j)))
  {
  }

  /** restructuring_dependent or worse. */
  predicate AtLeastRestructuring(r: RecoveryState) {
    r == RestructuringDependent || r == ContinuityWithoutRecovery || r == StructurallyExhausted
  }

  /** The reasons for restructuring_dependent or worse that added insights can never take away. */
  predicate IsLostForGood(n: Tally, t: Option<Topology>, e: Option<Energy>, d: Option<Doctrine>, i: Option<Inertia>) {
    IsExhausted(n, e, d, i) || IsBeyondRecovery(n, t, d, i) || RepeatsFailures(n)
  }

  /**
   restructuring_dependent omits institutional freeze and rigid doctrine. Reached through a locked
   structure it is left exactly when inertia freezes, reached through waiting on support exactly when
   doctrine turns rigid or the topology moves on, in both cases unless another reason takes over.
   Reached for a lasting reason it is never left.
   */
  lemma RestructuringKeptExactly(n: Tally, m: Tally, t: Option<Topology>, u: Option<Topology>,
                                 e: Option<Energy>, f: Option<Energy>, d: Option<Doctrine>, g: Option<Doctrine>,
                                 i: Option<Inertia>, j: Option<Inertia>)
    requires NoMore(n, m) && Imbalance(t) <= Imbalance(u) && Cost(e) <= Cost(f)
    requires Hardness(d) <= Hardness(g) && Resistance(i) <= Resistance(j)
    ensures IsLostForGood(n, t, e, d, i) ==> AtLeastRestructuring(Classify(m, u, f, g, j))
    ensures LocksStructure(n, i) ==>
      (AtLeastRestructuring(Classify(m, u, f, g, j)) <==>
        j != Some(InstitutionalFreeze) || WaitsOnSupport(m, u, g) || IsLostForGood(m, u, f, g, j))
    ensures WaitsOnSupport(n, t, d) ==>
      (AtLeastRestructuring(Classify(m, u, f, g, j)) <==>
        (g != Some(RigidDoctrine) && IsUnsupported(u)) || LocksStructure(m, j) || IsLostForGood(m, u, f, g, j))
    ensures AtLeastRestructuring(Classify(n, t, e, d, i)) ==>
      IsLostForGood(n, t, e, d, i) || LocksStructure(n, i) || WaitsOnSupport(n, t, d)
  {
  }
}
