/** What a list shows, said on the fields of its insights and the places they stand at. */
module PostureEvidence {
  import opened Common
  import opened Insights

  predicate Live(i: Insight) {
    i.status == Open
  }

  predicate Lasting(i: Insight) {
    i.status == Open && i.lifecycle in {Recurring, Confirmed, Persistent}
  }

  /** The fields behind each signal a stage counts. */
  predicate Displays(i: Insight, s: Signal) {
    match s
    case Active => Live(i)
    case RecurringSignal => Lasting(i)
    case DegradingStructure => Lasting(i) && i.resilienceTrajectory == StructurallyDegrading
    case DegradingTrajectory => Lasting(i) && i.resilienceTrajectory in {StructurallyDegrading, Degrading}
    case RecoveringTrajectory => Lasting(i) && i.resilienceTrajectory == Recovering
    case RecurringCascade => Lasting(i) && i.cascade == StructurallyCascading
    case SystemicCascade => Live(i) && i.cascade == StructurallyCascading
    case CoupledCascade => Live(i) && i.cascade in {CoupledInstability, StructurallyCascading}
    case Compounding => Live(i) && i.drift == CompoundingRepetition
    case ModerateDrift => Live(i) && i.drift in {Drifting, FragmentedDrift}
    case BrittlePlus => Live(i) && i.resilience in {Brittle, Collapsing, Exhausted}
    case DegradedResilience => Live(i) && i.resilience in {Collapsing, Exhausted}
    case NarrowResilience => Lasting(i) && i.resilience in {NarrowingResilience, Brittle}
    case HealthyResilience => Live(i) && i.resilience in {Adaptive, Resilient}
    case FailedDeteriorating => Live(i) && i.outcome in {Failed, Repeated} && i.adaptivity == Deteriorating
    case FailedOutcomes => Lasting(i) && i.outcome in {Failed, Repeated}
    case FragmentedView => Live(i) && i.obs in {FragmentedObs, ResetRequired}
    case DegradedView => Live(i) && i.obs in {FragmentedObs, ResetRequired, Distorted}
    case ResetView => Live(i) && i.obs == ResetRequired
    case LockedStructure => Live(i) && (i.reversibility == LockedReversibility || i.reversal == LockedReversal)
    case LockedPressure =>
      Live(i) && (i.counterfactual == LockedCounterfactual || i.reversibility == LockedReversibility)
    case NarrowingPressure => Live(i) && i.counterfactual == NarrowingCounterfactual
    case LateTiming => Lasting(i) && i.timing == StructurallyLate
    case CompressedTiming => Lasting(i) && i.timing in {NarrowingWindow, StructurallyLate}
    case RigidAdaptation => Lasting(i) && i.adaptivity in {Rigid, Deteriorating}
    case StiffAdaptation => Lasting(i) && i.adaptivity in {Rigid, Deteriorating, Plateauing}
    case DeterioratingAdaptation => Lasting(i) && i.adaptivity == Deteriorating
    case StrengtheningAdaptation => Live(i) && i.adaptivity == Strengthening
    case PlateauingAdaptation => Live(i) && i.adaptivity == Plateauing
    case AccumulatingTrajectory => Lasting(i) && i.trajectory == StructurallyAccumulating
    case ImprovingDirection => Live(i) && i.direction == Improving
    case LockReopening => Live(i) && i.lock == Reopening
    case LockWaiting => Live(i) && i.lock in {Waiting, Locked}
    case RecurringReversal => Lasting(i) && i.reversal in {DiminishingReturn, Overextended}
  }

  function Displaying(s: Signal): Insight -> bool {
    i => Displays(i, s)
  }

  /** How many places display each signal. */
  function PlacesOf(xs: seq<Insight>): Tally {
    (s: Signal) => |Places(xs, Displaying(s))|
  }

  lemma ShowsExactly(i: Insight, s: Signal)
    ensures Shows(i, s) <==> Displays(i, s)
  {
  }

  /** Each count a stage takes is the number of places that display its signal. */
  lemma {:induction false} CountsArePlaces(xs: seq<Insight>)
    ensures SameCounts(TallyOf(xs), PlacesOf(xs))
  {
    forall s ensures TallyOf(xs)(s) == PlacesOf(xs)(s) {
      forall i: Insight ensures Mark(s)(i) == if Displaying(s)(i) then 1 else 0 {
        ShowsExactly(i, s);
      }
      TotalIsPlaces(xs, Mark(s), Displaying(s));
    }
  }
}
