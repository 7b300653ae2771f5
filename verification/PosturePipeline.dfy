/**
 The stages composed in their documented order, each fed the results of the earlier ones:
 regime, energy, phase, topology, doctrine, inertia, recovery capacity.
 */
module PosturePipeline {
  import opened Common
  import opened Insights
  import opened OperatorCapacity
  import opened OperationalRegime
  import opened DecisionEnergy
  import opened PhaseTransition
  import opened StabilityTopology
  import opened OperationalDoctrine
  import opened InstitutionalInertia
  import opened StructuralRecoveryCapacity
  import opened RecoveryPathTopology
  import Regimes = OperationalRegime
  import Energies = DecisionEnergy
  import Phases = PhaseTransition
  import Topologies = StabilityTopology
  import Doctrines = OperationalDoctrine
  import Inertias = InstitutionalInertia
  import Recoveries = StructuralRecoveryCapacity

  datatype Posture = Posture(
    regime: Regime, energy: Energy, phase: Phase, topology: Topology,
    doctrine: Doctrine, inertia: Inertia, recovery: RecoveryState)

  function Assess(n: Tally, capacity: Option<CapacityState>, commitment: Option<Commitment>): Posture {
    var regime := Regimes.Classify(n, commitment, capacity);
    var energy := Energies.Classify(n, capacity, Some(regime));
    var phase := Phases.Classify(n, Some(regime), capacity, Some(energy));
    var topology := Topologies.Classify(n, Some(regime), capacity, Some(energy), Some(phase));
    var doctrine := Doctrines.Classify(n, Some(regime), Some(phase), Some(topology));
    var inertia := Inertias.Classify(n, Some(regime), Some(phase), Some(topology), Some(energy), Some(doctrine));
    var recovery := Recoveries.Classify(n, Some(topology), Some(energy), Some(doctrine), Some(inertia));
    Posture(regime, energy, phase, topology, doctrine, inertia, recovery)
  }

  /** Posture of an insight list under a known capacity. */
  function PostureOf(insights: seq<Insight>, capacity: Option<CapacityState>, commitment: Option<Commitment>): Posture {
    Assess(TallyOf(insights), capacity, commitment)
  }

  /** Posture with the capacity computed from the same insights. */
  function FullPosture(insights: seq<Insight>, patterns: seq<Complexity>, fatigue: real, credit: real,
                       commitment: Option<Commitment>): Posture {
    PostureOf(insights, Some(StateFor(insights, patterns, fatigue, credit)), commitment)
  }

  /** No stage of the first posture is more severe than the same stage of the second. */
  predicate NoWorse(p: Posture, q: Posture) {
    && Severity(Some(p.regime)) <= Severity(Some(q.regime))
    && Cost(Some(p.energy)) <= Cost(Some(q.energy))
    && Strain(Some(p.phase)) <= Strain(Some(q.phase))
    && Imbalance(Some(p.topology)) <= Imbalance(Some(q.topology))
    && Hardness(Some(p.doctrine)) <= Hardness(Some(q.doctrine))
    && Resistance(Some(p.inertia)) <= Resistance(Some(q.inertia))
    && Loss(Some(p.recovery)) <= Loss(Some(q.recovery))
  }

  /** The later stages follow the earlier ones. */
  lemma {:induction false} LateStagesFollow(n: Tally, m: Tally, c: Option<CapacityState>, d: Option<CapacityState>,
                                            commitment: Option<Commitment>)
    requires NoMore(n, m) && Coherent(m)
    requires var p, q := Assess(n, c, commitment), Assess(m, d, commitment);
      Severity(Some(p.regime)) <= Severity(Some(q.regime)) && Cost(Some(p.energy)) <= Cost(Some(q.energy))
      && Strain(Some(p.phase)) <= Strain(Some(q.phase)) && Imbalance(Some(p.topology)) <= Imbalance(Some(q.topology))
    ensures NoWorse(Assess(n, c, commitment), Assess(m, d, commitment))
  {
    var p, q := Assess(n, c, commitment), Assess(m, d, commitment);
    HardnessGrows(n, m, Some(p.regime), Some(q.regime), Some(p.phase), Some(q.phase),
                  Some(p.topology), Some(q.topology));
    ResistanceGrows(n, m, Some(p.regime), Some(q.regime), Some(p.phase), Some(q.phase),
                    Some(p.topology), Some(q.topology), Some(p.energy), Some(q.energy),
                    Some(p.doctrine), Some(q.doctrine));
    LossGrows(n, m, Some(p.topology), Some(q.topology), Some(p.energy), Some(q.energy),
              Some(p.doctrine), Some(q.doctrine), Some(p.inertia), Some(q.inertia));
  }

  lemma {:induction false} AssessMonotone(n: Tally, m: Tally, c: Option<CapacityState>, d: Option<CapacityState>,
                       commitment: Option<Commitment>)
    requires NoMore(n, m) && Coherent(m)
    requires CapacityLoad(c) <= CapacityLoad(d)
    ensures NoWorse(Assess(n, c, commitment), Assess(m, d, commitment))
  {
    var p, q := Assess(n, c, commitment), Assess(m, d, commitment);
    SeverityGrows(n, m, commitment, c, d);
    CostGrows(n, m, c, d, Some(p.regime), Some(q.regime));
    StrainGrows(n, m, Some(p.regime), Some(q.regime), c, d, Some(p.energy), Some(q.energy));
    ImbalanceGrows(n, m, Some(p.regime), Some(q.regime), c, d, Some(p.energy), Some(q.energy),
                   Some(p.phase), Some(q.phase));
    LateStagesFollow(n, m, c, d, commitment);
  }

  /**
   With capacity and commitment fixed, adding any insights in any positions never lowers energy
   and never leaves or drops within the severe ranks of any stage.
   */
  lemma {:induction false} PostureNeverImproves(few: seq<Insight>, many: seq<Insight>, capacity: Option<CapacityState>,
                             commitment: Option<Commitment>)
    requires multiset(few) <= multiset(many)
    ensures NoWorse(PostureOf(few, capacity, commitment), PostureOf(many, capacity, commitment))
  {
    CountsOnlyGrow(few, many);
    TalliesAreCoherent(many);
    AssessMonotone(TallyOf(few), TallyOf(many), capacity, capacity, commitment);
  }

  /**
   The same with capacity computed from the insights, unless the addition brings the first
   improved or stabilized outcome.
   */
  lemma {:induction false} FullPostureNeverImproves(few: seq<Insight>, many: seq<Insight>, patterns: seq<Complexity>,
                                 fatigue: real, credit: real, commitment: Option<Commitment>)
    requires multiset(few) <= multiset(many)
    requires HasPositiveOutcome(many) ==> HasPositiveOutcome(few)
    ensures NoWorse(FullPosture(few, patterns, fatigue, credit, commitment),
                    FullPosture(many, patterns, fatigue, credit, commitment))
  {
    CountsOnlyGrow(few, many);
    TalliesAreCoherent(many);
    CapacityLoadGrows(few, many, patterns, fatigue, credit);
    AssessMonotone(TallyOf(few), TallyOf(many),
                   Some(StateFor(few, patterns, fatigue, credit)),
                   Some(StateFor(many, patterns, fatigue, credit)), commitment);
  }

  /**
   Added insights that relieve capacity leave every stage no better exactly when each of the four
   stages that read capacity has a reason for its severe rank besides the lost load.
   */
  predicate LoadWasNotNeeded(p: Posture, m: Tally, d: Option<CapacityState>, q: Posture) {
    && (p.regime != Constrained || CallsForContainment(m) || CallsForConstraint(m))
    && (p.energy != Draining || d == Some(Saturated)
        || IsExhausting(m, Some(q.regime)) || IsDisruptive(m) || IsDraining(m))
    && (p.phase != ConstrainedOperation || IsConstrained(m, Some(q.regime), Some(q.energy)))
    && (p.topology != CollapsingCompensation || IsCollapsing(m, d, Some(q.phase)))
  }

  lemma {:induction false} RelievedStagesKeptExactly(
    n: Tally, m: Tally, c: Option<CapacityState>, d: Option<CapacityState>, commitment: Option<Commitment>)
    requires NoMore(n, m) && CapacityLoad(d) < CapacityLoad(c)
    ensures var p, q := Assess(n, c, commitment), Assess(m, d, commitment);
      (Severity(Some(p.regime)) <= Severity(Some(q.regime)) && Cost(Some(p.energy)) <= Cost(Some(q.energy))
       && Strain(Some(p.phase)) <= Strain(Some(q.phase)) && Imbalance(Some(p.topology)) <= Imbalance(Some(q.topology)))
      <==> LoadWasNotNeeded(p, m, d, q)
  {
    var p, q := Assess(n, c, commitment), Assess(m, d, commitment);
    RegimeKeptExactly(n, m, commitment, c, d);
    if Severity(Some(p.regime)) <= Severity(Some(q.regime)) {
      EnergyKeptExactly(n, m, c, d, Some(p.regime), Some(q.regime));
      if Cost(Some(p.energy)) <= Cost(Some(q.energy)) {
        PhaseKeptExactly(n, m, Some(p.regime), Some(q.regime), c, d, Some(p.energy), Some(q.energy));
        if Strain(Some(p.phase)) <= Strain(Some(q.phase)) {
          TopologyKeptExactly(n, m, Some(p.regime), Some(q.regime), c, d, Some(p.energy), Some(q.energy),
                              Some(p.phase), Some(q.phase));
        }
      }
    }
  }

  /**
   For any additions, with capacity computed from the insights: some stage improves exactly when the
   additions bring a first positive outcome that relieves capacity, and a stage needed the load.
   */
  lemma {:induction false} FullPostureImprovesExactly(few: seq<Insight>, many: seq<Insight>, patterns: seq<Complexity>,
                                                      fatigue: real, credit: real, commitment: Option<Commitment>)
    requires multiset(few) <= multiset(many)
    ensures var p, q := FullPosture(few, patterns, fatigue, credit, commitment),
                        FullPosture(many, patterns, fatigue, credit, commitment);
      !NoWorse(p, q) <==>
        && HasPositiveOutcome(many) && !HasPositiveOutcome(few)
        && Crosses(RawScore(few, patterns, fatigue, credit), 6 - AddedCost(few, many))
        && !LoadWasNotNeeded(p, TallyOf(many), Some(StateFor(many, patterns, fatigue, credit)), q)
  {
    var n, m := TallyOf(few), TallyOf(many);
    var c, d := Some(StateFor(few, patterns, fatigue, credit)), Some(StateFor(many, patterns, fatigue, credit));
    CountsOnlyGrow(few, many);
    TalliesAreCoherent(many);
    CapacityIsRelievedExactly(few, many, patterns, fatigue, credit);
    if CapacityLoad(d) < CapacityLoad(c) {
      RelievedStagesKeptExactly(n, m, c, d, commitment);
      if LoadWasNotNeeded(Assess(n, c, commitment), m, d, Assess(m, d, commitment)) {
        LateStagesFollow(n, m, c, d, commitment);
      }
    } else {
      AssessMonotone(n, m, c, d, commitment);
    }
  }

  lemma RegimeReadsCounts(n: Tally, m: Tally, c: Option<CapacityState>, d: Option<Commitment>)
    requires SameCounts(n, m)
    ensures Regimes.Classify(n, d, c) == Regimes.Classify(m, d, c)
  {
  }

  lemma EnergyReadsCounts(n: Tally, m: Tally, c: Option<CapacityState>, r: Option<Regime>)
    requires SameCounts(n, m)
    ensures Energies.Classify(n, c, r) == Energies.Classify(m, c, r)
  {
  }

  lemma PhaseReadsCounts(n: Tally, m: Tally, c: Option<CapacityState>, r: Option<Regime>, e: Option<Energy>)
    requires SameCounts(n, m)
    ensures Phases.Classify(n, r, c, e) == Phases.Classify(m, r, c, e)
  {
  }

  lemma TopologyReadsCounts(n: Tally, m: Tally, c: Option<CapacityState>, r: Option<Regime>, e: Option<Energy>,
                            p: Option<Phase>)
    requires SameCounts(n, m)
    ensures Topologies.Classify(n, r, c, e, p) == Topologies.Classify(m, r, c, e, p)
  {
  }

  lemma DoctrineReadsCounts(n: Tally, m: Tally, r: Option<Regime>, p: Option<Phase>, t: Option<Topology>)
    requires SameCounts(n, m)
    ensures Doctrines.Classify(n, r, p, t) == Doctrines.Classify(m, r, p, t)
  {
  }

  lemma InertiaReadsCounts(n: Tally, m: Tally, r: Option<Regime>, e: Option<Energy>, p: Option<Phase>,
                           t: Option<Topology>, o: Option<Doctrine>)
    requires SameCounts(n, m)
    ensures Inertias.Classify(n, r, p, t, e, o) == Inertias.Classify(m, r, p, t, e, o)
  {
  }

  lemma RecoveryReadsCounts(n: Tally, m: Tally, e: Option<Energy>, t: Option<Topology>, o: Option<Doctrine>,
                            i: Option<Inertia>)
    requires SameCounts(n, m)
    ensures Recoveries.Classify(n, t, e, o, i) == Recoveries.Classify(m, t, e, o, i)
  {
  }

  lemma {:induction false} AssessReadsCounts(n: Tally, m: Tally, capacity: Option<CapacityState>,
                                             commitment: Option<Commitment>)
    requires SameCounts(n, m)
    ensures Assess(n, capacity, commitment) == Assess(m, capacity, commitment)
  {
    var q := Assess(n, capacity, commitment);
    RegimeReadsCounts(n, m, capacity, commitment);
    EnergyReadsCounts(n, m, capacity, Some(q.regime));
    PhaseReadsCounts(n, m, capacity, Some(q.regime), Some(q.energy));
    TopologyReadsCounts(n, m, capacity, Some(q.regime), Some(q.energy), Some(q.phase));
    DoctrineReadsCounts(n, m, Some(q.regime), Some(q.phase), Some(q.topology));
    InertiaReadsCounts(n, m, Some(q.regime), Some(q.energy), Some(q.phase), Some(q.topology), Some(q.doctrine));
    RecoveryReadsCounts(n, m, Some(q.energy), Some(q.topology), Some(q.doctrine), Some(q.inertia));
  }

  /** Resolved and dismissed insights, and the order of the others, never show in any stage or rank. */
  lemma {:induction false} PostureReadsActiveOnly(xs: seq<Insight>, ys: seq<Insight>, capacity: Option<CapacityState>,
                               commitment: Option<Commitment>)
    requires multiset(Filter(xs, IsActive)) == multiset(Filter(ys, IsActive))
    ensures PostureOf(xs, capacity, commitment) == PostureOf(ys, capacity, commitment)
  {
    CountsReadActiveOnly(xs, ys);
    AssessReadsCounts(TallyOf(xs), TallyOf(ys), capacity, commitment);
  }

  /** Each stage called on the insights alone, without earlier results. */
  function Standalone(n: Tally): Posture {
    Posture(Regimes.Classify(n, None, None), Energies.Classify(n, None, None), Phases.Classify(n, None, None, None),
            Topologies.Classify(n, None, None, None, None), Doctrines.Classify(n, None, None, None),
            Inertias.Classify(n, None, None, None, None, None), Recoveries.Classify(n, None, None, None, None))
  }

  lemma {:induction false} StandaloneReadsCounts(n: Tally, m: Tally)
    requires SameCounts(n, m)
    ensures Standalone(n) == Standalone(m)
  {
    RegimeReadsCounts(n, m, None, None);
    EnergyReadsCounts(n, m, None, None);
    PhaseReadsCounts(n, m, None, None, None);
    TopologyReadsCounts(n, m, None, None, None, None);
    DoctrineReadsCounts(n, m, None, None, None);
    InertiaReadsCounts(n, m, None, None, None, None, None);
    RecoveryReadsCounts(n, m, None, None, None, None);
  }

  /** The stages called alone are monotone too. */
  lemma {:induction false} StandaloneNeverImproves(few: seq<Insight>, many: seq<Insight>)
    requires multiset(few) <= multiset(many)
    ensures NoWorse(Standalone(TallyOf(few)), Standalone(TallyOf(many)))
  {
    var n, m := TallyOf(few), TallyOf(many);
    CountsOnlyGrow(few, many);
    TalliesAreCoherent(many);
    SeverityGrows(n, m, None, None, None);
    CostGrows(n, m, None, None, None, None);
    StrainGrows(n, m, None, None, None, None, None, None);
    ImbalanceGrows(n, m, None, None, None, None, None, None, None, None);
    HardnessGrows(n, m, None, None, None, None, None, None);
    ResistanceGrows(n, m, None, None, None, None, None, None, None, None, None, None);
    LossGrows(n, m, None, None, None, None, None, None, None, None);
  }

  lemma RegimeAloneIsNoWorse(n: Tally, capacity: Option<CapacityState>, commitment: Option<Commitment>)
    ensures Severity(Some(Regimes.Classify(n, None, None))) <= Severity(Some(Regimes.Classify(n, commitment, capacity)))
  {
  }

  lemma {:induction false} AssessedIsNoWorse(n: Tally, q: Posture, capacity: Option<CapacityState>,
                                             commitment: Option<Commitment>)
    requires Coherent(n) && q == Assess(n, capacity, commitment)
    ensures NoWorse(Standalone(n), q)
  {
    RegimeAloneIsNoWorse(n, capacity, commitment);
    CostGrows(n, n, None, capacity, None, Some(q.regime));
    StrainGrows(n, n, None, Some(q.regime), None, capacity, None, Some(q.energy));
    ImbalanceGrows(n, n, None, Some(q.regime), None, capacity, None, Some(q.energy), None, Some(q.phase));
    HardnessGrows(n, n, None, Some(q.regime), None, Some(q.phase), None, Some(q.topology));
    ResistanceGrows(n, n, None, Some(q.regime), None, Some(q.phase), None, Some(q.topology), None, Some(q.energy),
                    None, Some(q.doctrine));
    LossGrows(n, n, None, Some(q.topology), None, Some(q.energy), None, Some(q.doctrine), None, Some(q.inertia));
  }

  /** On the same insights, the composed pipeline finds at least what each stage finds alone. */
  lemma {:induction false} StandaloneIsNoWorse(insights: seq<Insight>, capacity: Option<CapacityState>,
                                               commitment: Option<Commitment>)
    ensures NoWorse(Standalone(TallyOf(insights)), PostureOf(insights, capacity, commitment))
  {
    TalliesAreCoherent(insights);
    AssessedIsNoWorse(TallyOf(insights), PostureOf(insights, capacity, commitment), capacity, commitment);
  }

  /** Rigid doctrine always comes with at least locked behaviour. */
  lemma RigidPostureIsLocked(insights: seq<Insight>, capacity: Option<CapacityState>, commitment: Option<Commitment>)
    requires PostureOf(insights, capacity, commitment).doctrine == RigidDoctrine
    ensures PostureOf(insights, capacity, commitment).inertia in {LockedBehavior, InstitutionalFreeze}
  {
    TalliesAreCoherent(insights);
    var p := PostureOf(insights, capacity, commitment);
    RigidDoctrineLocksBehavior(TallyOf(insights), Some(p.regime), Some(p.phase), Some(p.topology),
                               Some(p.regime), Some(p.phase), Some(p.topology), Some(p.energy));
  }

  /** One recurring structurally degrading insight anywhere decides three stages. */
  lemma DegradingInsightForcesContainment(insights: seq<Insight>, bad: Insight,
                                          capacity: Option<CapacityState>, commitment: Option<Commitment>)
    requires bad in insights && Shows(bad, DegradingStructure)
    ensures var p := PostureOf(insights, capacity, commitment);
      && p.regime == Containment
      && p.energy == StructurallyExhausting
      && p.topology in {StructurallyUnbalanced, CollapsingCompensation}
  {
    TotalPositive(insights, bad, Mark(DegradingStructure));
  }

  /** What the last stage is given. */
  function PathInputs(p: Posture): Inputs {
    Inputs(Some(p.doctrine), Some(p.inertia), Some(p.recovery), FromStage(p.energy))
  }

  /** Once the dominant path is irreversible, no added insight reopens it. */
  lemma {:induction false} IrreversiblePathIsAbsorbing(
    few: seq<Insight>, many: seq<Insight>, capacity: Option<CapacityState>, commitment: Option<Commitment>)
    requires multiset(few) <= multiset(many)
    requires Report(PathInputs(PostureOf(few, capacity, commitment))).dominant == IrreversiblePath
    ensures Report(PathInputs(PostureOf(many, capacity, commitment))).dominant == IrreversiblePath
  {
    var p, q := PostureOf(few, capacity, commitment), PostureOf(many, capacity, commitment);
    PostureNeverImproves(few, many, capacity, commitment);
    IrreversibleExactly(PathInputs(p));
    IrreversibleExactly(PathInputs(q));
    LossAtLeastOneAbsorbs(p.recovery, q.recovery);
  }

  lemma LossAtLeastOneAbsorbs(r: RecoveryState, s: RecoveryState)
    requires r == ContinuityWithoutRecovery || r == StructurallyExhausted
    requires Loss(Some(r)) <= Loss(Some(s))
    ensures s == ContinuityWithoutRecovery || s == StructurallyExhausted
  {
  }
}
