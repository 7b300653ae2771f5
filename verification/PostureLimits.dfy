/**
 Where monotonicity stops: for three lower ranks, exactly when added insights leave the rank, each
 with a list on which that happens, and a list whose first positive outcome lowers energy.
 */
module PostureLimits {
  import opened Common
  import opened Insights
  import opened OperatorCapacity
  import opened OperationalRegime
  import opened DecisionEnergy
  import opened PhaseTransition
  import opened StabilityTopology
  import opened OperationalDoctrine
  import opened InstitutionalInertia
  import opened StructuralRecoveryCapacity
  import opened PosturePipeline
  import Regimes = OperationalRegime
  import Energies = DecisionEnergy
  import Phases = PhaseTransition
  import Topologies = StabilityTopology
  import Doctrines = OperationalDoctrine
  import Inertias = InstitutionalInertia
  import Recoveries = StructuralRecoveryCapacity

  /** Added insights leave narrowing_support exactly when energy exhausts and no lasting reason holds. */
  lemma {:induction false} NarrowingSupportKeptExactly(few: seq<Insight>, many: seq<Insight>,
                                                       capacity: Option<CapacityState>, commitment: Option<Commitment>)
    requires multiset(few) <= multiset(many)
    requires AtLeastNarrowing(PostureOf(few, capacity, commitment).topology)
    ensures var m, q := TallyOf(many), PostureOf(many, capacity, commitment);
      AtLeastNarrowing(q.topology) <==>
        || q.energy != StructurallyExhausting || IsNarrowing(m) || IsFragmented(m)
        || IsUnbalanced(m, Some(q.regime), Some(q.energy)) || IsCollapsing(m, capacity, Some(q.phase))
  {
    var p, q := PostureOf(few, capacity, commitment), PostureOf(many, capacity, commitment);
    CountsOnlyGrow(few, many);
    PostureNeverImproves(few, many, capacity, commitment);
    NarrowingKeptExactly(TallyOf(few), TallyOf(many), Some(p.regime), Some(q.regime), capacity, capacity,
                         Some(p.energy), Some(q.energy), Some(p.phase), Some(q.phase));
  }

  /** Added insights leave defensive_patterning exactly when containment sets in and no other reason holds. */
  lemma {:induction false} DefensivePatterningKeptExactly(
    few: seq<Insight>, many: seq<Insight>, capacity: Option<CapacityState>, commitment: Option<Commitment>)
    requires multiset(few) <= multiset(many)
    requires AtLeastDefensive(PostureOf(few, capacity, commitment).doctrine)
    ensures var m, q := TallyOf(many), PostureOf(many, capacity, commitment);
      AtLeastDefensive(q.doctrine) <==>
        || q.regime != Containment || (m(RecurringSignal) >= 2 && m(NarrowResilience) >= 1)
        || IsDependent(m) || IsEmbedded(m, Some(q.topology)) || IsRigid(m, Some(q.regime), Some(q.phase))
  {
    var p, q := PostureOf(few, capacity, commitment), PostureOf(many, capacity, commitment);
    CountsOnlyGrow(few, many);
    PostureNeverImproves(few, many, capacity, commitment);
    DefensiveKeptExactly(TallyOf(few), TallyOf(many), Some(p.regime), Some(q.regime), Some(p.phase), Some(q.phase),
                         Some(p.topology), Some(q.topology));
  }

  /** The reasons of a posture for restructuring_dependent or worse. */
  predicate LostForGood(m: Tally, q: Posture) {
    IsLostForGood(m, Some(q.topology), Some(q.energy), Some(q.doctrine), Some(q.inertia))
  }

  predicate Waits(m: Tally, q: Posture) {
    WaitsOnSupport(m, Some(q.topology), Some(q.doctrine))
  }

  /**
   From a locked structure, added insights leave restructuring_dependent exactly when inertia freezes;
   from waiting on support, exactly when doctrine turns rigid or the topology moves on; both only when
   no other reason takes over. There is no third way in that can be left.
   */
  lemma {:induction false} RestructuringDependentKeptExactly(few: seq<Insight>, many: seq<Insight>,
                                                             capacity: Option<CapacityState>,
                                                             commitment: Option<Commitment>)
    requires multiset(few) <= multiset(many)
    requires AtLeastRestructuring(PostureOf(few, capacity, commitment).recovery)
    ensures var n, p := TallyOf(few), PostureOf(few, capacity, commitment);
      LostForGood(n, p) || LocksStructure(n, Some(p.inertia)) || Waits(n, p)
    ensures var n, p := TallyOf(few), PostureOf(few, capacity, commitment);
      LostForGood(n, p) ==> AtLeastRestructuring(PostureOf(many, capacity, commitment).recovery)
    ensures var n, p := TallyOf(few), PostureOf(few, capacity, commitment);
      var m, q := TallyOf(many), PostureOf(many, capacity, commitment);
      LocksStructure(n, Some(p.inertia)) ==>
        (AtLeastRestructuring(q.recovery) <==> q.inertia != InstitutionalFreeze || Waits(m, q) || LostForGood(m, q))
    ensures var n, p := TallyOf(few), PostureOf(few, capacity, commitment);
      var m, q := TallyOf(many), PostureOf(many, capacity, commitment);
      Waits(n, p) ==>
        (AtLeastRestructuring(q.recovery) <==>
          || (q.doctrine != RigidDoctrine && IsUnsupported(Some(q.topology)))
          || LocksStructure(m, Some(q.inertia)) || LostForGood(m, q))
  {
    var p, q := PostureOf(few, capacity, commitment), PostureOf(many, capacity, commitment);
    CountsOnlyGrow(few, many);
    PostureNeverImproves(few, many, capacity, commitment);
    RestructuringKeptExactly(TallyOf(few), TallyOf(many), Some(p.topology), Some(q.topology), Some(p.energy),
                             Some(q.energy), Some(p.doctrine), Some(q.doctrine), Some(p.inertia), Some(q.inertia));
  }

  // ---- lists on which the ranks are left ------------------------------------------------

  lemma TallyOfLast(insights: seq<Insight>, i: Insight, s: Signal)
    ensures TallyOf(insights + [i])(s) == TallyOf(insights)(s) + Mark(s)(i)
  {
    TotalOfConcat(insights, [i], Mark(s));
    assert [i][1..] == [];
  }

  lemma TallyOfTwo(a: Insight, b: Insight, s: Signal)
    ensures TallyOf([a, b])(s) == Mark(s)(a) + Mark(s)(b)
  {
    TallyOfLast([a], b, s);
    TallyOfLast([], a, s);
    assert [] + [a] == [a];
    assert [a] + [b] == [a, b];
  }

  lemma TallyOfThree(a: Insight, b: Insight, c: Insight, s: Signal)
    ensures TallyOf([a, b, c])(s) == Mark(s)(a) + Mark(s)(b) + Mark(s)(c)
  {
    TallyOfTwo(a, b, s);
    TallyOfLast([a, b], c, s);
    assert [a, b] + [c] == [a, b, c];
  }

  lemma TallyOfFour(a: Insight, b: Insight, c: Insight, d: Insight, s: Signal)
    ensures TallyOf([a, b, c, d])(s) == Mark(s)(a) + Mark(s)(b) + Mark(s)(c) + Mark(s)(d)
  {
    TallyOfThree(a, b, c, s);
    TallyOfLast([a, b, c], d, s);
    assert [a, b, c] + [d] == [a, b, c, d];
  }

  // -- restructuring_dependent --

  const CONFIRMED := PLAIN.(lifecycle := Confirmed)
  const FAILING := CONFIRMED.(cascade := StructurallyCascading, drift := CompoundingRepetition,
                              reversibility := LockedReversibility, adaptivity := Rigid, outcome := Failed,
                              trajectory := StructurallyAccumulating)
  const SPENT := PLAIN.(resilience := Exhausted)

  function FailingCounts(s: Signal): nat {
    match s
    case Active | RecurringSignal => 2
    case RecurringCascade | SystemicCascade | CoupledCascade | Compounding | LockedStructure
       | LockedPressure | RigidAdaptation | StiffAdaptation | FailedOutcomes | AccumulatingTrajectory => 1
    case _ => 0
  }

  function SpentCounts(s: Signal): nat {
    FailingCounts(s) + (match s case Active | BrittlePlus | DegradedResilience => 1 case _ => 0)
  }

  lemma MarkOfConfirmed(s: Signal)
    ensures Mark(s)(CONFIRMED)
      == match s case Active | RecurringSignal => 1 case _ => 0
  {
  }

  lemma MarkOfFailing(s: Signal)
    ensures Mark(s)(FAILING)
      == match s
         case Active | RecurringSignal | RecurringCascade | SystemicCascade | CoupledCascade | Compounding
            | LockedStructure | LockedPressure | RigidAdaptation | StiffAdaptation | FailedOutcomes
            | AccumulatingTrajectory => 1
         case _ => 0
  {
  }

  lemma MarkOfSpent(s: Signal)
    ensures Mark(s)(SPENT)
      == match s case Active | BrittlePlus | DegradedResilience => 1 case _ => 0
  {
  }

  lemma FailingTallies(s: Signal)
    ensures TallyOf([FAILING, CONFIRMED])(s) == FailingCounts(s)
    ensures TallyOf([FAILING, CONFIRMED, SPENT])(s) == SpentCounts(s)
  {
    TallyOfTwo(FAILING, CONFIRMED, s);
    TallyOfThree(FAILING, CONFIRMED, SPENT, s);
    MarkOfFailing(s);
    MarkOfConfirmed(s);
    MarkOfSpent(s);
  }

  /**
   restructuring_dependent omits institutional freeze: one more exhausted insight can move
   recovery from restructuring dependent to fully recoverable while inertia freezes.
   */
  lemma {:induction false} RestructuringDependentCanBeLeft()
    ensures PostureOf([FAILING, CONFIRMED], None, None).recovery == RestructuringDependent
    ensures var q := PostureOf([FAILING, CONFIRMED, SPENT], None, None);
      q.inertia == InstitutionalFreeze && q.recovery == StructurallyRecoverable
  {
    forall s { FailingTallies(s); }
    FailingAssessed(TallyOf([FAILING, CONFIRMED]));
    SpentAssessed(TallyOf([FAILING, CONFIRMED, SPENT]));
  }

  /** The exhausted insight changes nothing before the inertia stage. */
  lemma SharedPhases(n: Tally)
    requires forall s :: FailingCounts(s) <= n(s) <= SpentCounts(s)
    ensures Regimes.Classify(n, None, None) == Containment
    ensures Energies.Classify(n, None, Some(Containment)) == StructurallyExhausting
    ensures Phases.Classify(n, Some(Containment), None, Some(StructurallyExhausting)) == ConstrainedOperation
  {
  }

  lemma SharedTopology(n: Tally)
    requires forall s :: FailingCounts(s) <= n(s) <= SpentCounts(s)
    ensures Topologies.Classify(n, Some(Containment), None, Some(StructurallyExhausting), Some(ConstrainedOperation))
      == CompensatingStructure
  {
  }

  lemma SharedDoctrine(n: Tally)
    requires forall s :: FailingCounts(s) <= n(s) <= SpentCounts(s)
    ensures Doctrines.Classify(n, Some(Containment), Some(ConstrainedOperation), Some(CompensatingStructure))
      == EmbeddedDoctrine
  {
  }

  lemma FailingRecovery(n: Tally)
    requires forall s :: n(s) == FailingCounts(s)
    ensures Inertias.Classify(n, Some(Containment), Some(ConstrainedOperation), Some(CompensatingStructure),
      Some(StructurallyExhausting), Some(EmbeddedDoctrine)) == LockedBehavior
    ensures Recoveries.Classify(n, Some(CompensatingStructure), Some(StructurallyExhausting),
      Some(EmbeddedDoctrine), Some(LockedBehavior)) == RestructuringDependent
  {
  }

  lemma SpentRecovery(n: Tally)
    requires forall s :: n(s) == SpentCounts(s)
    ensures Inertias.Classify(n, Some(Containment), Some(ConstrainedOperation), Some(CompensatingStructure),
      Some(StructurallyExhausting), Some(EmbeddedDoctrine)) == InstitutionalFreeze
    ensures Recoveries.Classify(n, Some(CompensatingStructure), Some(StructurallyExhausting),
      Some(EmbeddedDoctrine), Some(InstitutionalFreeze)) == StructurallyRecoverable
  {
  }

  lemma FailingAssessed(n: Tally)
    requires forall s :: n(s) == FailingCounts(s)
    ensures Assess(n, None, None).recovery == RestructuringDependent
  {
    SharedPhases(n);
    SharedTopology(n);
    SharedDoctrine(n);
    FailingRecovery(n);
  }

  lemma SpentAssessed(n: Tally)
    requires forall s :: n(s) == SpentCounts(s)
    ensures Assess(n, None, None).inertia == InstitutionalFreeze
    ensures Assess(n, None, None).recovery == StructurallyRecoverable
  {
    SharedPhases(n);
    SharedTopology(n);
    SharedDoctrine(n);
    SpentRecovery(n);
  }

  // -- narrowing_support --

  const LOCKED := PLAIN.(reversal := LockedReversal)
  const REPEATING := CONFIRMED.(reversal := LockedReversal, drift := CompoundingRepetition)

  function RepeatingCounts(s: Signal): nat {
    match s case Active | RecurringSignal => 3 case Compounding | LockedStructure => 1 case _ => 0
  }

  function LockedCounts(s: Signal): nat {
    RepeatingCounts(s) + (match s case Active | LockedStructure => 1 case _ => 0)
  }

  lemma MarkOfRepeating(s: Signal)
    ensures Mark(s)(REPEATING)
      == match s case Active | RecurringSignal | LockedStructure | Compounding => 1 case _ => 0
  {
  }

  lemma MarkOfLocked(s: Signal)
    ensures Mark(s)(LOCKED)
      == match s case Active | LockedStructure => 1 case _ => 0
  {
  }

  lemma RepeatingTallies(s: Signal)
    ensures TallyOf([REPEATING, CONFIRMED, CONFIRMED])(s) == RepeatingCounts(s)
    ensures TallyOf([REPEATING, CONFIRMED, CONFIRMED, LOCKED])(s) == LockedCounts(s)
  {
    TallyOfThree(REPEATING, CONFIRMED, CONFIRMED, s);
    TallyOfFour(REPEATING, CONFIRMED, CONFIRMED, LOCKED, s);
    MarkOfRepeating(s);
    MarkOfConfirmed(s);
    MarkOfLocked(s);
  }

  /**
   narrowing_support reads energy at draining or disruptive only, so an insight that makes energy
   structurally exhausting can take the topology back to balanced.
   */
  lemma {:induction false} NarrowingSupportCanBeLeft()
    ensures PostureOf([REPEATING, CONFIRMED, CONFIRMED], None, None).topology == NarrowingSupport
    ensures PostureOf([REPEATING, CONFIRMED, CONFIRMED, LOCKED], None, None).topology == BalancedStability
  {
    forall s { RepeatingTallies(s); }
    RepeatingAssessed(TallyOf([REPEATING, CONFIRMED, CONFIRMED]), TallyOf([REPEATING, CONFIRMED, CONFIRMED, LOCKED]));
  }

  lemma RepeatingEnergy(n: Tally)
    requires forall s :: n(s) == RepeatingCounts(s)
    ensures Regimes.Classify(n, None, None) == Stabilization
    ensures Energies.Classify(n, None, Some(Stabilization)) == Draining
  {
  }

  lemma LockedEnergy(n: Tally)
    requires forall s :: n(s) == LockedCounts(s)
    ensures Regimes.Classify(n, None, None) == Constrained
    ensures Energies.Classify(n, None, Some(Constrained)) == StructurallyExhausting
  {
  }

  /** In whatever phase. */
  lemma RepeatingTopology(n: Tally, phase: Option<Phase>)
    requires forall s :: RepeatingCounts(s) <= n(s) <= LockedCounts(s)
    ensures Topologies.Classify(n, Some(Stabilization), None, Some(Draining), phase) == NarrowingSupport
    ensures Topologies.Classify(n, Some(Constrained), None, Some(StructurallyExhausting), phase) == BalancedStability
  {
  }

  lemma RepeatingAssessed(n: Tally, m: Tally)
    requires forall s :: n(s) == RepeatingCounts(s)
    requires forall s :: m(s) == LockedCounts(s)
    ensures Assess(n, None, None).topology == NarrowingSupport
    ensures Assess(m, None, None).topology == BalancedStability
  {
    RepeatingEnergy(n);
    LockedEnergy(m);
    RepeatingTopology(n, Some(Assess(n, None, None).phase));
    RepeatingTopology(m, Some(Assess(m, None, None).phase));
  }

  // -- defensive_patterning --

  const CLOUDED := SPENT.(obs := FragmentedObs)
  const STIFF := CLOUDED.(lifecycle := Confirmed, adaptivity := Rigid)

  function StiffCounts(s: Signal): nat {
    match s
    case Active | BrittlePlus | DegradedResilience | FragmentedView | DegradedView => 2
    case RecurringSignal | RigidAdaptation | StiffAdaptation => 1
    case _ => 0
  }

  function CollapsedCounts(s: Signal): nat {
    StiffCounts(s) + (match s case Active | BrittlePlus | DegradedResilience => 1 case _ => 0)
  }

  lemma MarkOfClouded(s: Signal)
    ensures Mark(s)(CLOUDED)
      == match s case Active | BrittlePlus | DegradedResilience | FragmentedView | DegradedView => 1 case _ => 0
  {
  }

  lemma MarkOfStiff(s: Signal)
    ensures Mark(s)(STIFF)
      == match s case Active | BrittlePlus | DegradedResilience | FragmentedView | DegradedView | RecurringSignal
      | RigidAdaptation | StiffAdaptation => 1 case _ => 0
  {
  }

  lemma StiffTallies(s: Signal)
    ensures TallyOf([STIFF, CLOUDED])(s) == StiffCounts(s)
    ensures TallyOf([STIFF, CLOUDED, SPENT])(s) == CollapsedCounts(s)
  {
    TallyOfTwo(STIFF, CLOUDED, s);
    TallyOfThree(STIFF, CLOUDED, SPENT, s);
    MarkOfStiff(s);
    MarkOfClouded(s);
    MarkOfSpent(s);
  }

  /** defensive_patterning omits containment: a worse regime can dissolve it. */
  lemma {:induction false} DefensivePatterningCanBeLeft()
    ensures PostureOf([STIFF, CLOUDED], None, None).doctrine == DefensivePatterning
    ensures PostureOf([STIFF, CLOUDED, SPENT], None, None).doctrine == AdaptiveExecution
  {
    forall s { StiffTallies(s); }
    StiffAssessed(TallyOf([STIFF, CLOUDED]), TallyOf([STIFF, CLOUDED, SPENT]));
  }

  lemma StiffRegime(n: Tally)
    requires forall s :: n(s) == StiffCounts(s)
    ensures Regimes.Classify(n, None, None) == Constrained
  {
  }

  lemma CollapsedRegime(n: Tally)
    requires forall s :: n(s) == CollapsedCounts(s)
    ensures Regimes.Classify(n, None, None) == Containment
  {
  }

  /** In whatever phase and topology. */
  lemma StiffDoctrine(n: Tally, phase: Option<Phase>, topology: Option<Topology>)
    requires forall s :: StiffCounts(s) <= n(s) <= CollapsedCounts(s)
    ensures Doctrines.Classify(n, Some(Constrained), phase, topology) == DefensivePatterning
    ensures Doctrines.Classify(n, Some(Containment), phase, topology) == AdaptiveExecution
  {
  }

  lemma StiffAssessed(n: Tally, m: Tally)
    requires forall s :: n(s) == StiffCounts(s)
    requires forall s :: m(s) == CollapsedCounts(s)
    ensures Assess(n, None, None).doctrine == DefensivePatterning
    ensures Assess(m, None, None).doctrine == AdaptiveExecution
  {
    StiffRegime(n);
    CollapsedRegime(m);
    StiffDoctrine(n, Some(Assess(n, None, None).phase), Some(Assess(n, None, None).topology));
    StiffDoctrine(m, Some(Assess(m, None, None).phase), Some(Assess(m, None, None).topology));
  }

  // -- the condition on a first positive outcome --

  const HEAVY := PLAIN.(lifecycle := Recurring, difficulty := Hard)
  const LATER := HEAVY.(sequenceStage := Some(2))
  const WON := PLAIN.(status := Resolved, outcome := Improved)

  lemma HeavyCapacity()
    ensures StateFor([HEAVY, LATER], [], 0.0, 0.0) == Saturated
    ensures StateFor([HEAVY, LATER, WON], [], 0.0, 0.0) == Loaded
  {
    var few, many := [HEAVY, LATER], [HEAVY, LATER, WON];
    assert few == [HEAVY] + [LATER] && many == few + [WON] && many[2] == WON;
    TotalOfConcat([HEAVY], [LATER], Penalty);
    TotalOfConcat(few, [WON], Penalty);
    TotalOfConcat([HEAVY], [LATER], HeavyTradeoff);
    TotalOfConcat(few, [WON], HeavyTradeoff);
    assert HasPositiveOutcome(many);
  }

  /** A first improved outcome, even on a resolved insight, can lift capacity and lower energy. */
  lemma {:induction false} FirstPositiveOutcomeCanRelax()
    ensures FullPosture([HEAVY, LATER], [], 0.0, 0.0, None).energy == Draining
    ensures FullPosture([HEAVY, LATER, WON], [], 0.0, 0.0, None).energy == Manageable
  {
    HeavyCapacity();
    forall s { HeavyTallies(s); }
    HeavyEnergy(TallyOf([HEAVY, LATER]));
    HeavyEnergy(TallyOf([HEAVY, LATER, WON]));
    AssessedEnergy(TallyOf([HEAVY, LATER]), Some(Saturated), Stabilization);
    AssessedEnergy(TallyOf([HEAVY, LATER, WON]), Some(Loaded), Stabilization);
  }

  lemma MarkOfHeavy(s: Signal)
    ensures Mark(s)(HEAVY)
      == match s case Active | RecurringSignal => 1 case _ => 0
  {
  }

  lemma MarkOfLater(s: Signal)
    ensures Mark(s)(LATER)
      == match s case Active | RecurringSignal => 1 case _ => 0
  {
  }

  lemma MarkOfWon(s: Signal)
    ensures Mark(s)(WON) == 0
  {
  }

  lemma HeavyTallies(s: Signal)
    ensures TallyOf([HEAVY, LATER])(s) == if s == Active || s == RecurringSignal then 2 else 0
    ensures TallyOf([HEAVY, LATER, WON])(s) == if s == Active || s == RecurringSignal then 2 else 0
  {
    TallyOfTwo(HEAVY, LATER, s);
    TallyOfThree(HEAVY, LATER, WON, s);
    MarkOfHeavy(s);
    MarkOfLater(s);
    MarkOfWon(s);
  }

  lemma HeavyEnergy(n: Tally)
    requires forall s :: n(s) == if s == Active || s == RecurringSignal then 2 else 0
    ensures Regimes.Classify(n, None, Some(Saturated)) == Regimes.Classify(n, None, Some(Loaded)) == Stabilization
    ensures Energies.Classify(n, Some(Saturated), Some(Stabilization)) == Draining
    ensures Energies.Classify(n, Some(Loaded), Some(Stabilization)) == Manageable
  {
  }

  lemma AssessedEnergy(n: Tally, capacity: Option<CapacityState>, regime: Regime)
    requires Regimes.Classify(n, None, capacity) == regime
    ensures Assess(n, capacity, None).energy == Energies.Classify(n, capacity, Some(regime))
  {
  }
}
