/**
 The rank each stage reports, decided by what stands in the insight list: a rank is reported exactly
 when the list shows one of its reasons and no reason of a rank that comes before it.
 */
module PostureReasons {
  import opened Common
  import opened Insights
  import opened PostureEvidence
  import opened OperatorCapacity
  import opened OperationalRegime
  import opened DecisionEnergy
  import opened PhaseTransition
  import opened StabilityTopology
  import opened OperationalDoctrine
  import opened InstitutionalInertia
  import opened StructuralRecoveryCapacity
  import opened PosturePipeline
  import Regimes = OperationalRegime
  import Energies = DecisionEnergy
  import Phases = PhaseTransition
  import Topologies = StabilityTopology
  import Doctrines = OperationalDoctrine
  import Inertias = InstitutionalInertia
  import Recoveries = StructuralRecoveryCapacity

  predicate Once(v: Tally, s: Signal) {
    v(s) >= 1
  }

  predicate Twice(v: Tally, s: Signal) {
    v(s) >= 2
  }

  predicate Thrice(v: Tally, s: Signal) {
    v(s) >= 3
  }

  predicate Never(v: Tally, s: Signal) {
    v(s) == 0
  }

  // ---- regime ---------------------------------------------------------------------------

  predicate ContainmentShown(v: Tally) {
    || Once(v, DegradingStructure)
    || (Once(v, RecurringCascade) && (Once(v, Compounding) || Twice(v, BrittlePlus)))
    || (Once(v, FailedDeteriorating) && Once(v, Compounding))
    || Thrice(v, BrittlePlus)
  }

  predicate ConstraintShown(v: Tally, capacity: Option<CapacityState>) {
    || Twice(v, FragmentedView)
    || Twice(v, LockedStructure)
    || (Once(v, FragmentedView) && (Twice(v, LateTiming) || capacity == Some(Overloaded)))
  }

  predicate DefenseShown(v: Tally, commitment: Option<Commitment>) {
    || commitment in {Some(FragmentedCommitment), Some(Abandoned)}
    || Thrice(v, NarrowResilience)
    || (Twice(v, NarrowResilience) && Once(v, RigidAdaptation))
    || (Once(v, CoupledCascade) && (Once(v, LateTiming) || Twice(v, RigidAdaptation)))
    || Twice(v, BrittlePlus)
  }

  predicate RecoveryShown(v: Tally) {
    && Once(v, RecoveringTrajectory) && Once(v, StrengtheningAdaptation)
    && Never(v, DegradingStructure) && !Twice(v, BrittlePlus)
  }

  predicate ExpansionShown(v: Tally) {
    && Once(v, HealthyResilience) && v(HealthyResilience) >= v(Active) / 2 && Once(v, ImprovingDirection)
    && Never(v, CoupledCascade) && Never(v, NarrowResilience) && Never(v, FragmentedView)
  }

  predicate RegimeShown(r: Regime, v: Tally, commitment: Option<Commitment>, capacity: Option<CapacityState>) {
    if ContainmentShown(v) then r == Containment
    else if ConstraintShown(v, capacity) then r == Constrained
    else if DefenseShown(v, commitment) then r == Defensive
    else if RecoveryShown(v) then r == RecoveryTransition
    else if ExpansionShown(v) then r == Expansion
    else r == Stabilization
  }

  lemma RegimeExactly(r: Regime, v: Tally, commitment: Option<Commitment>,
                                         capacity: Option<CapacityState>)
    ensures r == Regimes.Classify(v, commitment, capacity) <==> RegimeShown(r, v, commitment, capacity)
  {
  }

  // ---- energy ---------------------------------------------------------------------------

  predicate ExhaustionShown(v: Tally, regime: Option<Regime>) {
    || regime == Some(Containment)
    || Twice(v, DegradingStructure)
    || (Once(v, Compounding) && (Once(v, DegradingStructure) || Twice(v, LockedStructure)))
  }

  predicate DisruptionShown(v: Tally) {
    || Twice(v, CoupledCascade)
    || (Once(v, CoupledCascade) && (Once(v, FragmentedView) || Once(v, LockedStructure)))
    || (Twice(v, FragmentedView) && Twice(v, RecurringSignal))
  }

  predicate DrainShown(v: Tally, capacity: Option<CapacityState>) {
    || Thrice(v, RecurringSignal)
    || (Twice(v, RecurringSignal) && (capacity in {Some(Overloaded), Some(Saturated)} || Once(v, FragmentedView)))
    || (Once(v, RecurringSignal) && Twice(v, RigidAdaptation))
  }

  predicate EnergyShown(e: Energy, v: Tally, capacity: Option<CapacityState>, regime: Option<Regime>) {
    if ExhaustionShown(v, regime) then e == StructurallyExhausting
    else if DisruptionShown(v) then e == Disruptive
    else if DrainShown(v, capacity) then e == Draining
    else if Once(v, RecurringSignal) || Twice(v, Active) then e == Manageable
    else e == Lightweight
  }

  lemma EnergyExactly(e: Energy, v: Tally, capacity: Option<CapacityState>, regime: Option<Regime>)
    ensures e == Energies.Classify(v, capacity, regime) <==> EnergyShown(e, v, capacity, regime)
  {
  }

  // ---- phase ----------------------------------------------------------------------------

  predicate StandstillShown(v: Tally, regime: Option<Regime>, capacity: Option<CapacityState>, energy: Option<Energy>) {
    && Once(v, Compounding)
    && (|| (&& regime == Some(Containment) && energy == Some(StructurallyExhausting) && Once(v, CoupledCascade))
        || (&& regime == Some(Containment) && capacity == Some(Overloaded) && Once(v, DegradingStructure))
        || (Once(v, DegradingStructure) && Once(v, CoupledCascade) && Twice(v, FailedOutcomes)))
  }

  predicate BreakupShown(v: Tally) {
    && Once(v, DegradingStructure)
    && (|| (Once(v, Compounding) && Once(v, ResetView) && Once(v, LockedPressure))
        || (Twice(v, FragmentedView) && Once(v, DeterioratingAdaptation)))
  }

  predicate PressureShown(v: Tally) {
    || (&& Twice(v, RecurringSignal) && Once(v, DegradingStructure)
        && (Once(v, AccumulatingTrajectory) || Once(v, CoupledCascade)))
    || (&& Once(v, FragmentedView)
        && (Thrice(v, RecurringSignal) || (Twice(v, RecurringSignal) && Once(v, CoupledCascade))))
  }

  predicate ReentryShown(v: Tally) {
    && Once(v, RecoveringTrajectory) && Once(v, StrengtheningAdaptation) && Once(v, LockReopening)
    && Never(v, DegradingStructure) && Never(v, Compounding)
  }

  predicate ConvergenceShown(v: Tally, regime: Option<Regime>, energy: Option<Energy>) {
    || (Once(v, RecurringSignal) && regime in {Some(Defensive), Some(Constrained)})
    || (Once(v, RecurringSignal) && Twice(v, NarrowResilience) && Once(v, RigidAdaptation))
    || (Twice(v, RecurringSignal) && (Once(v, CoupledCascade) || energy in {Some(Draining), Some(Disruptive)}))
  }

  predicate CycleShown(v: Tally, regime: Option<Regime>, energy: Option<Energy>) {
    || Once(v, RecoveringTrajectory)
    || (&& Once(v, RecurringSignal)
        && energy !in {Some(Draining), Some(Disruptive), Some(StructurallyExhausting)}
        && regime !in {Some(Constrained), Some(Containment)})
  }

  predicate PhaseShown(p: Phase, v: Tally, regime: Option<Regime>, capacity: Option<CapacityState>,
                       energy: Option<Energy>) {
    if StandstillShown(v, regime, capacity, energy) then p == ConstrainedOperation
    else if BreakupShown(v) then p == ResilienceFragmentation
    else if PressureShown(v) then p == PressureFormation
    else if ReentryShown(v) then p == RecoveryReentry
    else if ConvergenceShown(v, regime, energy) then p == DefensiveConvergence
    else if CycleShown(v, regime, energy) then p == StabilizationCycle
    else p == AdaptiveEquilibrium
  }

  lemma PhaseExactly(p: Phase, v: Tally, regime: Option<Regime>, capacity: Option<CapacityState>,
                                        energy: Option<Energy>)
    ensures p == Phases.Classify(v, regime, capacity, energy) <==>
      PhaseShown(p, v, regime, capacity, energy)
  {
  }

  // ---- topology -------------------------------------------------------------------------

  predicate CollapseShown(v: Tally, capacity: Option<CapacityState>, phase: Option<Phase>) {
    && Once(v, DegradedResilience)
    && (|| (&& Once(v, LockedPressure)
            && (Once(v, ResetView) || Twice(v, DegradedView))
            && (capacity == Some(Overloaded) || Twice(v, FailedOutcomes)))
        || (phase == Some(ConstrainedOperation) && Once(v, CoupledCascade) && Once(v, DegradingStructure)))
  }

  predicate TiltShown(v: Tally, regime: Option<Regime>, energy: Option<Energy>) {
    && Once(v, DegradingStructure)
    && (|| (&& regime == Some(Containment)
            && (energy == Some(StructurallyExhausting) || Once(v, Compounding)))
        || (Once(v, Compounding) && Once(v, AccumulatingTrajectory) && Twice(v, RecurringSignal)))
  }

  predicate FragmentsShown(v: Tally) {
    || (&& Once(v, CoupledCascade)
        && (|| (Once(v, DegradedView) && Twice(v, RecurringSignal) && Once(v, Compounding))
            || (Once(v, ResetView) && Once(v, StiffAdaptation))))
    || (Twice(v, DegradedView) && Twice(v, RecurringSignal) && Once(v, StiffAdaptation))
  }

  predicate NarrowingShown(v: Tally, energy: Option<Energy>) {
    || (Twice(v, RecurringSignal) && Once(v, NarrowResilience) && Once(v, StiffAdaptation))
    || (Once(v, DegradingTrajectory) && Once(v, NarrowingPressure) && Once(v, RecurringSignal))
    || (Thrice(v, RecurringSignal) && energy in {Some(Draining), Some(Disruptive)})
  }

  predicate CompensationShown(v: Tally) {
    && Once(v, RecurringSignal)
    && (|| (Once(v, NarrowResilience) && Never(v, DegradingStructure))
        || (Once(v, StiffAdaptation) && Never(v, DegradedView)))
  }

  predicate TopologyShown(t: Topology, v: Tally, regime: Option<Regime>, capacity: Option<CapacityState>,
                          energy: Option<Energy>, phase: Option<Phase>) {
    if CollapseShown(v, capacity, phase) then t == CollapsingCompensation
    else if TiltShown(v, regime, energy) then t == StructurallyUnbalanced
    else if FragmentsShown(v) then t == FragmentedStability
    else if NarrowingShown(v, energy) then t == NarrowingSupport
    else if CompensationShown(v) then t == CompensatingStructure
    else t == BalancedStability
  }

  lemma TopologyExactly(t: Topology, v: Tally, regime: Option<Regime>,
                                           capacity: Option<CapacityState>, energy: Option<Energy>,
                                           phase: Option<Phase>)
    ensures t == Topologies.Classify(v, regime, capacity, energy, phase) <==>
      TopologyShown(t, v, regime, capacity, energy, phase)
  {
  }

  // ---- doctrine -------------------------------------------------------------------------

  predicate RigidityShown(v: Tally, regime: Option<Regime>, phase: Option<Phase>) {
    && Once(v, Compounding)
    && (|| (Once(v, RigidAdaptation) && Twice(v, FailedOutcomes) && Once(v, LockedPressure))
        || (&& Twice(v, RigidAdaptation) && Once(v, FailedOutcomes)
            && (phase == Some(ConstrainedOperation) || regime == Some(Containment))))
  }

  predicate EmbeddingShown(v: Tally, topology: Option<Topology>) {
    && Once(v, Compounding) && Twice(v, RecurringSignal)
    && (|| (Once(v, AccumulatingTrajectory) && Once(v, RigidAdaptation))
        || topology in {Some(StructurallyUnbalanced), Some(CollapsingCompensation)}
        || (Twice(v, Compounding) && Thrice(v, RecurringSignal)))
  }

  predicate DependencyShown(v: Tally) {
    && Twice(v, RecurringSignal)
    && (|| Twice(v, LockWaiting)
        || (Once(v, RecurringReversal) && Once(v, ResetView))
        || (Once(v, DegradedView) && Once(v, LockWaiting))
        || (Thrice(v, RecurringSignal) && Twice(v, CompressedTiming)))
  }

  predicate PatterningShown(v: Tally, regime: Option<Regime>) {
    || (&& Twice(v, RecurringSignal) && Once(v, NarrowResilience)
        && (regime in {Some(Defensive), Some(Constrained), Some(Containment)} || Twice(v, CompressedTiming)))
    || (regime in {Some(Defensive), Some(Constrained)} && Once(v, RigidAdaptation) && Once(v, RecurringSignal))
  }

  predicate BiasShown(v: Tally) {
    || (Twice(v, RecurringSignal) && (Once(v, ModerateDrift) || (Never(v, DegradedView) && Never(v, Compounding))))
    || (Once(v, RecurringSignal) && Once(v, AccumulatingTrajectory))
  }

  predicate DoctrineShown(d: Doctrine, v: Tally, regime: Option<Regime>, phase: Option<Phase>,
                          topology: Option<Topology>) {
    if RigidityShown(v, regime, phase) then d == RigidDoctrine
    else if EmbeddingShown(v, topology) then d == EmbeddedDoctrine
    else if DependencyShown(v) then d == StabilizationDependency
    else if PatterningShown(v, regime) then d == DefensivePatterning
    else if BiasShown(v) then d == RecurringBias
    else d == AdaptiveExecution
  }

  lemma DoctrineExactly(d: Doctrine, v: Tally, regime: Option<Regime>, phase: Option<Phase>,
                                           topology: Option<Topology>)
    ensures d == Doctrines.Classify(v, regime, phase, topology) <==>
      DoctrineShown(d, v, regime, phase, topology)
  {
  }

  // ---- inertia --------------------------------------------------------------------------

  const HARDENED := {Some(StabilizationDependency), Some(EmbeddedDoctrine), Some(RigidDoctrine)}

  predicate FreezeShown(v: Tally, phase: Option<Phase>, energy: Option<Energy>, doctrine: Option<Doctrine>) {
    && Once(v, DegradedResilience)
    && (|| (&& doctrine in HARDENED
            && energy == Some(StructurallyExhausting) && phase == Some(ConstrainedOperation))
        || (Once(v, Compounding) && Twice(v, ResetView) && Once(v, SystemicCascade))
        || (doctrine == Some(RigidDoctrine) && Once(v, LockedPressure) && Twice(v, FailedOutcomes)))
  }

  predicate LockShown(v: Tally, phase: Option<Phase>, doctrine: Option<Doctrine>) {
    && Once(v, FailedOutcomes)
    && (|| (&& doctrine == Some(RigidDoctrine) && phase == Some(ConstrainedOperation)
            && Once(v, LockedPressure))
        || (Twice(v, RigidAdaptation) && Once(v, Compounding))
        || (Once(v, RigidAdaptation) && Once(v, LockedPressure) && Twice(v, RecurringSignal)))
  }

  predicate SlowingShown(v: Tally, topology: Option<Topology>, doctrine: Option<Doctrine>) {
    && Twice(v, RecurringSignal)
    && (|| (&& doctrine == Some(EmbeddedDoctrine)
            && topology in {Some(StructurallyUnbalanced), Some(CollapsingCompensation)})
        || (Once(v, Compounding) && Once(v, DegradedView) && Once(v, AccumulatingTrajectory))
        || (Thrice(v, RecurringSignal) && Once(v, LockWaiting) && doctrine in HARDENED))
  }

  predicate HardeningShown(v: Tally, regime: Option<Regime>, doctrine: Option<Doctrine>) {
    && Twice(v, RecurringSignal)
    && (|| (doctrine == Some(DefensivePatterning) && Twice(v, CompressedTiming))
        || (Once(v, NarrowResilience) && (Once(v, RigidAdaptation) || Once(v, PlateauingAdaptation)))
        || (&& regime in {Some(Defensive), Some(Constrained)} && Once(v, LockWaiting)
            && doctrine in {Some(DefensivePatterning), Some(RecurringBias)}))
  }

  predicate HabitShown(v: Tally, doctrine: Option<Doctrine>) {
    || (&& Twice(v, RecurringSignal)
        && (|| doctrine in {Some(RecurringBias), Some(DefensivePatterning)}
            || (Never(v, AccumulatingTrajectory) && Never(v, Compounding))))
    || (Once(v, RecurringSignal) && Once(v, LockWaiting) && Once(v, HealthyResilience))
  }

  predicate InertiaShown(i: Inertia, v: Tally, regime: Option<Regime>, phase: Option<Phase>,
                         topology: Option<Topology>, energy: Option<Energy>, doctrine: Option<Doctrine>) {
    if FreezeShown(v, phase, energy, doctrine) then i == InstitutionalFreeze
    else if LockShown(v, phase, doctrine) then i == LockedBehavior
    else if SlowingShown(v, topology, doctrine) then i == StructuralInertia
    else if HardeningShown(v, regime, doctrine) then i == OperationalHardening
    else if HabitShown(v, doctrine) then i == AdaptiveInertia
    else i == FlexibleStructure
  }

  lemma InertiaExactly(i: Inertia, v: Tally, regime: Option<Regime>, phase: Option<Phase>,
                                          topology: Option<Topology>, energy: Option<Energy>,
                                          doctrine: Option<Doctrine>)
    ensures i == Inertias.Classify(v, regime, phase, topology, energy, doctrine) <==>
      InertiaShown(i, v, regime, phase, topology, energy, doctrine)
  {
  }

  // ---- recovery capacity ----------------------------------------------------------------

  const IMMOVABLE := {Some(InstitutionalFreeze), Some(LockedBehavior)}

  predicate SpentShown(v: Tally, energy: Option<Energy>, doctrine: Option<Doctrine>, inertia: Option<Inertia>) {
    || (&& inertia == Some(InstitutionalFreeze) && energy == Some(StructurallyExhausting)
        && Once(v, DegradedResilience) && Twice(v, FailedOutcomes))
    || (&& inertia in IMMOVABLE
        && Once(v, Compounding) && Twice(v, ResetView) && Once(v, SystemicCascade))
    || (&& doctrine == Some(RigidDoctrine)
        && Thrice(v, RecurringSignal) && Twice(v, FailedOutcomes)
        && Once(v, DegradedResilience) && Once(v, LockedPressure))
  }

  predicate ContinuationShown(v: Tally, topology: Option<Topology>, doctrine: Option<Doctrine>,
                              inertia: Option<Inertia>) {
    || (inertia in IMMOVABLE && Once(v, DegradedResilience) && Twice(v, FailedOutcomes))
    || (&& topology in {Some(CollapsingCompensation), Some(StructurallyUnbalanced)}
        && Once(v, Compounding) && Once(v, DegradedResilience) && Twice(v, RecurringSignal))
    || (&& doctrine in {Some(RigidDoctrine), Some(EmbeddedDoctrine)}
        && Twice(v, RigidAdaptation) && Twice(v, LockWaiting) && Once(v, FailedOutcomes))
  }

  predicate RestructuringShown(v: Tally, topology: Option<Topology>, doctrine: Option<Doctrine>,
                               inertia: Option<Inertia>) {
    || (&& Twice(v, RecurringSignal)
        && (|| (inertia in {Some(StructuralInertia), Some(LockedBehavior)} && Once(v, LockedPressure))
            || (Once(v, Compounding) && Once(v, DegradedView) && Once(v, FailedOutcomes))))
    || (&& doctrine in {Some(EmbeddedDoctrine), Some(StabilizationDependency)}
        && topology in {Some(StructurallyUnbalanced), Some(CollapsingCompensation), Some(NarrowingSupport)}
        && Twice(v, LockWaiting))
  }

  predicate StrainedShown(v: Tally, doctrine: Option<Doctrine>, inertia: Option<Inertia>) {
    || (&& Twice(v, RecurringSignal)
        && (|| (inertia in {Some(OperationalHardening), Some(StructuralInertia)} && Once(v, NarrowResilience))
            || (&& Once(v, LockWaiting) && Once(v, DegradedView)
                && (Once(v, RigidAdaptation) || Once(v, PlateauingAdaptation)))))
    || (&& doctrine in {Some(DefensivePatterning), Some(StabilizationDependency)}
        && Once(v, NarrowResilience) && Once(v, RecurringSignal))
  }

  predicate AdaptationShown(v: Tally, doctrine: Option<Doctrine>, inertia: Option<Inertia>) {
    || (&& Once(v, RecurringSignal)
        && (|| (inertia == Some(AdaptiveInertia) && Never(v, RigidAdaptation))
            || (&& Once(v, HealthyResilience)
                && Never(v, LockedPressure) && Never(v, FailedOutcomes) && Never(v, Compounding))))
    || (&& Twice(v, RecurringSignal) && !Twice(v, LockWaiting) && Never(v, DegradedView)
        && doctrine in {Some(RecurringBias), Some(AdaptiveExecution)})
  }

  predicate RecoveryStateShown(r: RecoveryState, v: Tally, topology: Option<Topology>, energy: Option<Energy>,
                               doctrine: Option<Doctrine>, inertia: Option<Inertia>) {
    if SpentShown(v, energy, doctrine, inertia) then r == StructurallyExhausted
    else if ContinuationShown(v, topology, doctrine, inertia) then r == ContinuityWithoutRecovery
    else if RestructuringShown(v, topology, doctrine, inertia) then r == RestructuringDependent
    else if StrainedShown(v, doctrine, inertia) then r == ConstrainedRecovery
    else if AdaptationShown(v, doctrine, inertia) then r == RecoverableWithAdaptation
    else r == StructurallyRecoverable
  }

  lemma RecoveryStateExactly(r: RecoveryState, v: Tally, topology: Option<Topology>,
                                                energy: Option<Energy>, doctrine: Option<Doctrine>,
                                                inertia: Option<Inertia>)
    ensures r == Recoveries.Classify(v, topology, energy, doctrine, inertia) <==>
      RecoveryStateShown(r, v, topology, energy, doctrine, inertia)
  {
  }

  // ---- all seven together ---------------------------------------------------------------

  /** Every rank of a posture is the one these places show, given the earlier ranks of the same posture. */
  predicate PostureShown(p: Posture, v: Tally, capacity: Option<CapacityState>, commitment: Option<Commitment>) {
    var r, e, q, t := Some(p.regime), Some(p.energy), Some(p.phase), Some(p.topology);
    var d, i := Some(p.doctrine), Some(p.inertia);
    && RegimeShown(p.regime, v, commitment, capacity)
    && EnergyShown(p.energy, v, capacity, r)
    && PhaseShown(p.phase, v, r, capacity, e)
    && TopologyShown(p.topology, v, r, capacity, e, q)
    && DoctrineShown(p.doctrine, v, r, q, t)
    && InertiaShown(p.inertia, v, r, q, t, e, d)
    && RecoveryStateShown(p.recovery, v, t, e, d, i)
  }

  lemma {:induction false} EarlyStagesExactly(p: Posture, v: Tally, capacity: Option<CapacityState>,
                                              commitment: Option<Commitment>)
    ensures var q := Assess(v, capacity, commitment);
      (p.regime == q.regime && p.energy == q.energy && p.phase == q.phase && p.topology == q.topology) <==>
        && RegimeShown(p.regime, v, commitment, capacity)
        && EnergyShown(p.energy, v, capacity, Some(p.regime))
        && PhaseShown(p.phase, v, Some(p.regime), capacity, Some(p.energy))
        && TopologyShown(p.topology, v, Some(p.regime), capacity, Some(p.energy), Some(p.phase))
  {
    RegimeExactly(p.regime, v, commitment, capacity);
    EnergyExactly(p.energy, v, capacity, Some(p.regime));
    PhaseExactly(p.phase, v, Some(p.regime), capacity, Some(p.energy));
    TopologyExactly(p.topology, v, Some(p.regime), capacity, Some(p.energy), Some(p.phase));
  }

  lemma {:induction false} LateStagesExactly(p: Posture, v: Tally, capacity: Option<CapacityState>,
                                             commitment: Option<Commitment>)
    requires var q := Assess(v, capacity, commitment);
      p.regime == q.regime && p.energy == q.energy && p.phase == q.phase && p.topology == q.topology
    ensures var r, e, q, t := Some(p.regime), Some(p.energy), Some(p.phase), Some(p.topology);
      var d, i := Some(p.doctrine), Some(p.inertia);
      p == Assess(v, capacity, commitment) <==>
        && DoctrineShown(p.doctrine, v, r, q, t)
        && InertiaShown(p.inertia, v, r, q, t, e, d)
        && RecoveryStateShown(p.recovery, v, t, e, d, i)
  {
    var r, e, q, t := Some(p.regime), Some(p.energy), Some(p.phase), Some(p.topology);
    DoctrineExactly(p.doctrine, v, r, q, t);
    InertiaExactly(p.inertia, v, r, q, t, e, Some(p.doctrine));
    RecoveryStateExactly(p.recovery, v, t, e, Some(p.doctrine), Some(p.inertia));
  }

  lemma {:induction false} AssessmentExactly(p: Posture, v: Tally, capacity: Option<CapacityState>,
                                             commitment: Option<Commitment>)
    ensures p == Assess(v, capacity, commitment) <==> PostureShown(p, v, capacity, commitment)
  {
    var q := Assess(v, capacity, commitment);
    EarlyStagesExactly(p, v, capacity, commitment);
    if p.regime == q.regime && p.energy == q.energy && p.phase == q.phase && p.topology == q.topology {
      LateStagesExactly(p, v, capacity, commitment);
    }
  }

  lemma {:induction false} PlacesDecide(xs: seq<Insight>, capacity: Option<CapacityState>,
                                        commitment: Option<Commitment>)
    ensures PostureOf(xs, capacity, commitment) == Assess(PlacesOf(xs), capacity, commitment)
    ensures Standalone(TallyOf(xs)) == Standalone(PlacesOf(xs))
  {
    CountsArePlaces(xs);
    AssessReadsCounts(TallyOf(xs), PlacesOf(xs), capacity, commitment);
    StandaloneReadsCounts(TallyOf(xs), PlacesOf(xs));
  }

  /** The composed stages report exactly the posture the places of the list show. */
  lemma {:induction false} PostureExactly(p: Posture, xs: seq<Insight>, capacity: Option<CapacityState>,
                                          commitment: Option<Commitment>)
    ensures p == PostureOf(xs, capacity, commitment) <==> PostureShown(p, PlacesOf(xs), capacity, commitment)
  {
    PlacesDecide(xs, capacity, commitment);
    AssessmentExactly(p, PlacesOf(xs), capacity, commitment);
  }

  predicate StandaloneShown(p: Posture, v: Tally) {
    && RegimeShown(p.regime, v, None, None)
    && EnergyShown(p.energy, v, None, None)
    && PhaseShown(p.phase, v, None, None, None)
    && TopologyShown(p.topology, v, None, None, None, None)
    && DoctrineShown(p.doctrine, v, None, None, None)
    && InertiaShown(p.inertia, v, None, None, None, None, None)
    && RecoveryStateShown(p.recovery, v, None, None, None, None)
  }

  lemma {:induction false} CountsAloneExactly(p: Posture, v: Tally)
    ensures p == Standalone(v) <==> StandaloneShown(p, v)
  {
    var q := Standalone(v);
    assert p == q <==> && p.regime == q.regime && p.energy == q.energy && p.phase == q.phase
                       && p.topology == q.topology && p.doctrine == q.doctrine && p.inertia == q.inertia
                       && p.recovery == q.recovery;
    RegimeExactly(p.regime, v, None, None);
    EnergyExactly(p.energy, v, None, None);
    PhaseExactly(p.phase, v, None, None, None);
    TopologyExactly(p.topology, v, None, None, None, None);
    DoctrineExactly(p.doctrine, v, None, None, None);
    InertiaExactly(p.inertia, v, None, None, None, None, None);
    RecoveryStateExactly(p.recovery, v, None, None, None, None);
  }

  /** So do the stages called on the insights alone. */
  lemma {:induction false} StandaloneExactly(p: Posture, xs: seq<Insight>)
    ensures p == Standalone(TallyOf(xs)) <==> StandaloneShown(p, PlacesOf(xs))
  {
    PlacesDecide(xs, None, None);
    CountsAloneExactly(p, PlacesOf(xs));
  }

  /** Some insight of the list displays the signal. */
  predicate At(xs: seq<Insight>, s: Signal) {
    exists k :: 0 <= k < |xs| && Displaying(s)(xs[k])
  }

  /** Two insights of the list, at different places, display the signal. */
  predicate AtTwo(xs: seq<Insight>, s: Signal) {
    exists j, k :: 0 <= j < k < |xs| && Displaying(s)(xs[j]) && Displaying(s)(xs[k])
  }

  lemma {:induction false} CountedIsDisplayed(xs: seq<Insight>, s: Signal)
    ensures Once(PlacesOf(xs), s) <==> At(xs, s)
    ensures Twice(PlacesOf(xs), s) <==> AtTwo(xs, s)
  {
    PlacesExactly(xs, Displaying(s));
  }

  /** The two patterns of a list that collapse its topology, the second known by the phase. */
  predicate CollapseStands(xs: seq<Insight>, capacity: Option<CapacityState>, phase: Option<Phase>) {
    || (&& At(xs, LockedPressure) && At(xs, DegradedResilience)
        && (At(xs, ResetView) || AtTwo(xs, DegradedView))
        && (capacity == Some(Overloaded) || AtTwo(xs, FailedOutcomes)))
    || (&& phase == Some(ConstrainedOperation)
        && At(xs, CoupledCascade) && At(xs, DegradingStructure) && At(xs, DegradedResilience))
  }

  lemma {:induction false} CollapseIsShown(xs: seq<Insight>, capacity: Option<CapacityState>, phase: Option<Phase>)
    ensures CollapseShown(PlacesOf(xs), capacity, phase) <==> CollapseStands(xs, capacity, phase)
  {
    CountedIsDisplayed(xs, LockedPressure);
    CountedIsDisplayed(xs, DegradedResilience);
    CountedIsDisplayed(xs, ResetView);
    CountedIsDisplayed(xs, DegradedView);
    CountedIsDisplayed(xs, FailedOutcomes);
    CountedIsDisplayed(xs, CoupledCascade);
    CountedIsDisplayed(xs, DegradingStructure);
  }

  lemma {:induction false} CollapseOnPlaces(v: Tally, capacity: Option<CapacityState>, commitment: Option<Commitment>)
    ensures var p := Assess(v, capacity, commitment);
      p.topology == CollapsingCompensation <==> CollapseShown(v, capacity, Some(p.phase))
    ensures Standalone(v).topology == CollapsingCompensation <==> CollapseShown(v, None, None)
  {
    var p := Assess(v, capacity, commitment);
    TopologyExactly(CollapsingCompensation, v, Some(p.regime), capacity, Some(p.energy), Some(p.phase));
    TopologyExactly(CollapsingCompensation, v, None, None, None, None);
  }

  /**
   The topology of the composed stages collapses exactly when one of the patterns stands in the list,
   and that of the stage called on the insights alone exactly when the first one does.
   */
  lemma {:induction false} CollapsesExactly(xs: seq<Insight>, capacity: Option<CapacityState>,
                                            commitment: Option<Commitment>)
    ensures var p := PostureOf(xs, capacity, commitment);
      p.topology == CollapsingCompensation <==> CollapseStands(xs, capacity, Some(p.phase))
    ensures Standalone(TallyOf(xs)).topology == CollapsingCompensation <==> CollapseStands(xs, None, None)
  {
    PlacesDecide(xs, capacity, commitment);
    CollapseOnPlaces(PlacesOf(xs), capacity, commitment);
    CollapseIsShown(xs, capacity, Some(PostureOf(xs, capacity, commitment).phase));
    CollapseIsShown(xs, None, None);
  }
}
