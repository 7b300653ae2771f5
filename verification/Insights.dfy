/**
 The insight list every posture stage reads, and the signals it counts in it.

 An attribute is an enumeration of the labels some stage compares with; its last
 constructor stands for an unset attribute and for every label no stage compares with.
 */
module Insights {
  import opened Common

  datatype Status = Resolved | Dismissed | Open
  datatype Lifecycle = Recurring | Confirmed | Persistent | OtherLifecycle
  datatype ResilienceTrajectory =
    StructurallyDegrading | Degrading | Recovering | OtherResilienceTrajectory
  datatype Cascade = StructurallyCascading | CoupledInstability | OtherCascade
  datatype Drift =
    CompoundingRepetition | Drifting | FragmentedDrift | OtherDrift
  datatype Resilience =
    Adaptive | Resilient | NarrowingResilience | Brittle | Collapsing | Exhausted | OtherResilience
  datatype Outcome = Failed | Repeated | Improved | Stabilized | OtherOutcome
  datatype Adaptivity = Strengthening | Plateauing | Rigid | Deteriorating | OtherAdaptivity
  datatype Observability = FragmentedObs | ResetRequired | Distorted | OtherObservability
  datatype Reversibility = LockedReversibility | OtherReversibility
  datatype Reversal = LockedReversal | DiminishingReturn | Overextended | OtherReversal
  datatype Counterfactual = LockedCounterfactual | NarrowingCounterfactual | OtherCounterfactual
  datatype Timing = StructurallyLate | NarrowingWindow | OtherTiming
  datatype Direction = Improving | OtherDirection
  datatype Trajectory = StructurallyAccumulating | OtherTrajectory
  datatype Lock = Reopening | Waiting | Locked | OtherLock
  datatype Difficulty = Hard | OtherDifficulty
  datatype RecoveryPath = StructuralPath | UnstablePath | OtherPath
  datatype Decay = Fading | OtherDecay
  datatype Tradeoff = Moderate | Significant | OtherTradeoff
  datatype Tier = Monitor | OtherTier

  datatype Insight = Insight(
    key: string,
    status: Status,
    lifecycle: Lifecycle,
    resilienceTrajectory: ResilienceTrajectory,
    cascade: Cascade,
    drift: Drift,
    resilience: Resilience,
    outcome: Outcome,
    adaptivity: Adaptivity,
    obs: Observability,
    reversibility: Reversibility,
    reversal: Reversal,
    counterfactual: Counterfactual,
    timing: Timing,
    direction: Direction,
    trajectory: Trajectory,
    lock: Lock,
    difficulty: Difficulty,
    recoveryPath: RecoveryPath,
    decay: Decay,
    tradeoff: Tradeoff,
    tier: Tier,
    sequenceStage: Option<int>,
    impactScore: Option<int>)

  /** An insight with no attribute set that any stage reads. */
  const PLAIN: Insight := Insight("", Open, OtherLifecycle, OtherResilienceTrajectory, OtherCascade,
    OtherDrift, OtherResilience, OtherOutcome, OtherAdaptivity, OtherObservability,
    OtherReversibility, OtherReversal, OtherCounterfactual, OtherTiming, OtherDirection,
    OtherTrajectory, OtherLock, OtherDifficulty, OtherPath, OtherDecay, OtherTradeoff, OtherTier,
    None, None)

  predicate IsActive(i: Insight) {
    i.status != Resolved && i.status != Dismissed
  }

  predicate IsRecurring(i: Insight) {
    IsActive(i) && (i.lifecycle.Recurring? || i.lifecycle.Confirmed? || i.lifecycle.Persistent?)
  }

  /** One constructor per distinct count taken by some stage. */
  datatype Signal =
    | Active | RecurringSignal
    | DegradingStructure | DegradingTrajectory | RecoveringTrajectory
    | RecurringCascade | SystemicCascade | CoupledCascade
    | Compounding | ModerateDrift
    | BrittlePlus | DegradedResilience | NarrowResilience | HealthyResilience
    | FailedDeteriorating | FailedOutcomes
    | FragmentedView | DegradedView | ResetView
    | LockedStructure | LockedPressure | NarrowingPressure
    | LateTiming | CompressedTiming
    | RigidAdaptation | StiffAdaptation | DeterioratingAdaptation
    | StrengtheningAdaptation | PlateauingAdaptation
    | AccumulatingTrajectory | ImprovingDirection
    | LockReopening | LockWaiting
    | RecurringReversal

  predicate Shows(i: Insight, s: Signal) {
    match s
    case Active => IsActive(i)
    case RecurringSignal => IsRecurring(i)
    case DegradingStructure => IsRecurring(i) && i.resilienceTrajectory.StructurallyDegrading?
    case DegradingTrajectory =>
      IsRecurring(i) && (i.resilienceTrajectory.StructurallyDegrading? || i.resilienceTrajectory.Degrading?)
    case RecoveringTrajectory => IsRecurring(i) && i.resilienceTrajectory.Recovering?
    case RecurringCascade => IsRecurring(i) && i.cascade.StructurallyCascading?
    case SystemicCascade => IsActive(i) && i.cascade.StructurallyCascading?
    case CoupledCascade =>
      IsActive(i) && (i.cascade.CoupledInstability? || i.cascade.StructurallyCascading?)
    case Compounding => IsActive(i) && i.drift.CompoundingRepetition?
    case ModerateDrift => IsActive(i) && (i.drift.Drifting? || i.drift.FragmentedDrift?)
    case BrittlePlus =>
      IsActive(i) && (i.resilience.Brittle? || i.resilience.Collapsing? || i.resilience.Exhausted?)
    case DegradedResilience => IsActive(i) && (i.resilience.Collapsing? || i.resilience.Exhausted?)
    case NarrowResilience => IsRecurring(i) && (i.resilience.NarrowingResilience? || i.resilience.Brittle?)
    case HealthyResilience => IsActive(i) && (i.resilience.Adaptive? || i.resilience.Resilient?)
    case FailedDeteriorating =>
      IsActive(i) && (i.outcome.Failed? || i.outcome.Repeated?) && i.adaptivity.Deteriorating?
    case FailedOutcomes => IsRecurring(i) && (i.outcome.Failed? || i.outcome.Repeated?)
    case FragmentedView => IsActive(i) && (i.obs.FragmentedObs? || i.obs.ResetRequired?)
    case DegradedView =>
      IsActive(i) && (i.obs.FragmentedObs? || i.obs.ResetRequired? || i.obs.Distorted?)
    case ResetView => IsActive(i) && i.obs.ResetRequired?
    case LockedStructure =>
      IsActive(i) && (i.reversibility.LockedReversibility? || i.reversal.LockedReversal?)
    case LockedPressure =>
      IsActive(i) && (i.counterfactual.LockedCounterfactual? || i.reversibility.LockedReversibility?)
    case NarrowingPressure => IsActive(i) && i.counterfactual.NarrowingCounterfactual?
    case LateTiming => IsRecurring(i) && i.timing.StructurallyLate?
    case CompressedTiming => IsRecurring(i) && (i.timing.NarrowingWindow? || i.timing.StructurallyLate?)
    case RigidAdaptation => IsRecurring(i) && (i.adaptivity.Rigid? || i.adaptivity.Deteriorating?)
    case StiffAdaptation =>
      IsRecurring(i) && (i.adaptivity.Rigid? || i.adaptivity.Deteriorating? || i.adaptivity.Plateauing?)
    case DeterioratingAdaptation => IsRecurring(i) && i.adaptivity.Deteriorating?
    case StrengtheningAdaptation => IsActive(i) && i.adaptivity.Strengthening?
    case PlateauingAdaptation => IsActive(i) && i.adaptivity.Plateauing?
    case AccumulatingTrajectory => IsRecurring(i) && i.trajectory.StructurallyAccumulating?
    case ImprovingDirection => IsActive(i) && i.direction.Improving?
    case LockReopening => IsActive(i) && i.lock.Reopening?
    case LockWaiting => IsActive(i) && (i.lock.Waiting? || i.lock.Locked?)
    case RecurringReversal => IsRecurring(i) && (i.reversal.DiminishingReturn? || i.reversal.Overextended?)
  }

  /** How often each signal occurs; a stage reads the insight list only through this. */
  type Tally = Signal -> nat

  function Mark(s: Signal): Insight -> nat {
    (i: Insight) => if Shows(i, s) then 1 else 0
  }

  function TallyOf(insights: seq<Insight>): Tally {
    (s: Signal) => Total(insights, Mark(s))
  }

  ghost predicate NoMore(few: Tally, many: Tally) {
    forall s :: few(s) <= many(s)
  }

  /** Adding insights, in any positions, lowers no count. */
  lemma CountsOnlyGrow(few: seq<Insight>, many: seq<Insight>)
    requires multiset(few) <= multiset(many)
    ensures NoMore(TallyOf(few), TallyOf(many))
  {
    forall s ensures TallyOf(few)(s) <= TallyOf(many)(s) {
      TotalMonotone(few, many, Mark(s));
    }
  }

  ghost predicate SameCounts(n: Tally, m: Tally) {
    forall s :: n(s) == m(s)
  }

  /** Only the active insights are counted, and how often each occurs, not where. */
  lemma {:induction false} CountsReadActiveOnly(xs: seq<Insight>, ys: seq<Insight>)
    requires multiset(Filter(xs, IsActive)) == multiset(Filter(ys, IsActive))
    ensures SameCounts(TallyOf(xs), TallyOf(ys))
  {
    forall s ensures TallyOf(xs)(s) == TallyOf(ys)(s) {
      TotalOfFilter(xs, IsActive, Mark(s));
      TotalOfFilter(ys, IsActive, Mark(s));
      TotalMonotone(Filter(xs, IsActive), Filter(ys, IsActive), Mark(s));
      TotalMonotone(Filter(ys, IsActive), Filter(xs, IsActive), Mark(s));
    }
  }

  /**
   A relation between counts taken by different stages: a failed outcome is only counted on a
   recurring insight, so failures bound the recurring count from below.
   */
  ghost predicate Coherent(n: Tally) {
    n(FailedOutcomes) <= n(RecurringSignal)
  }

  lemma TalliesAreCoherent(insights: seq<Insight>)
    ensures Coherent(TallyOf(insights))
  {
    TotalPointwise(insights, Mark(FailedOutcomes), Mark(RecurringSignal));
  }
}
