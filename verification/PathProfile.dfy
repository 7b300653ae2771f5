/**
 The recovery path report decided by the labels that go in: the accessibility of each state, the
 edge counts and the dominant path type.
 */
module PathProfile {
  import opened Common
  import opened DecisionEnergy
  import opened OperationalDoctrine
  import opened InstitutionalInertia
  import opened StructuralRecoveryCapacity
  import opened RecoveryPathTopology
  import opened PosturePipeline

  // ---- accessibility --------------------------------------------------------------------

  /** From recoverable to exhausted. */
  const BASES: seq<real> := [1.00, 0.85, 0.65, 0.40, 0.20, 0.05]

  function DoctrineRow(d: Option<Doctrine>): (row: seq<real>)
    ensures |row| == 6
  {
    if d == Some(RigidDoctrine) then [0.70, 0.78, 0.85, 1.0, 1.0, 1.0]
    else if d == Some(EmbeddedDoctrine) then [0.80, 0.87, 1.0, 1.0, 1.0, 1.0]
    else if d == Some(StabilizationDependency) then [0.90, 1.0, 1.0, 1.0, 1.0, 1.0]
    else [1.0, 1.0, 1.0, 1.0, 1.0, 1.0]
  }

  function InertiaRow(i: Option<Inertia>): (row: seq<real>)
    ensures |row| == 6
  {
    if i == Some(InstitutionalFreeze) then [1.0, 1.0, 1.0, 0.72, 0.60, 0.50]
    else if i == Some(LockedBehavior) then [1.0, 1.0, 1.0, 0.82, 0.72, 0.65]
    else if i == Some(StructuralInertia) then [1.0, 1.0, 1.0, 0.88, 0.82, 1.0]
    else [1.0, 1.0, 1.0, 1.0, 1.0, 1.0]
  }

  function RecoveryRow(r: Option<RecoveryState>): (row: seq<real>)
    ensures |row| == 6
  {
    if r == Some(StructurallyExhausted) then [1.0, 1.0, 1.0, 1.0, 0.80, 0.70]
    else if r == Some(ContinuityWithoutRecovery) then [1.0, 1.0, 1.0, 0.88, 0.80, 1.0]
    else if r == Some(RestructuringDependent) then [1.0, 1.0, 1.0, 0.88, 1.0, 1.0]
    else [1.0, 1.0, 1.0, 1.0, 1.0, 1.0]
  }

  predicate IsSpent(e: EnergySignal) {
    e == Depleted || e == Critical || e == FromStage(StructurallyExhausting)
  }

  function EnergyFactor(e: EnergySignal): real {
    if IsSpent(e) then 0.90 else if e == Declining then 0.96 else 1.0
  }

  lemma DoctrineScales(d: Option<Doctrine>, k: nat, v: real)
    requires k < 6
    ensures AfterDoctrine(d, STATE_ORDER[k], v) == v * DoctrineRow(d)[k]
  {
  }

  lemma InertiaScales(i: Option<Inertia>, k: nat, v: real)
    requires k < 6
    ensures AfterInertia(i, STATE_ORDER[k], v) == v * InertiaRow(i)[k]
  {
  }

  lemma RecoveryScales(r: Option<RecoveryState>, k: nat, v: real)
    requires k < 6
    ensures AfterRecovery(r, STATE_ORDER[k], v) == v * RecoveryRow(r)[k]
  {
  }

  lemma EnergyScales(e: EnergySignal, v: real)
    ensures AfterEnergy(e, v) == v * EnergyFactor(e)
  {
  }

  lemma BaseExactly(k: nat)
    requires k < 6
    ensures Base(STATE_ORDER[k]) == BASES[k]
  {
  }

  /** Doctrine, inertia, recovery state and energy scale the base of a state in turn, within 0.01 and 1. */
  lemma AccessibilityExactly(x: Inputs, k: nat, v: real, w: real, u: real, t: real)
    requires k < 6 && AfterDoctrine(x.doctrine, STATE_ORDER[k], BASES[k]) == v
    requires AfterInertia(x.inertia, STATE_ORDER[k], v) == w
    requires AfterRecovery(x.recovery, STATE_ORDER[k], w) == u
    requires AfterEnergy(x.energy, u) == t
    ensures Score(x, k) == if t < 0.01 then 0.01 else if t > 1.0 then 1.0 else t
  {
    BaseExactly(k);
  }

  // ---- edges ----------------------------------------------------------------------------

  predicate IsHeld(x: Inputs) {
    x.inertia == Some(InstitutionalFreeze) || x.inertia == Some(LockedBehavior)
  }

  lemma ReachableScores(x: Inputs)
    ensures Score(x, 0) >= 0.25 && Score(x, 1) >= 0.25 && Score(x, 2) >= 0.48 && Score(x, 4) < 0.25
    ensures !IsHeld(x) ==> Score(x, 3) >= 0.25
  {
  }

  lemma {:induction false} TotalOfTwelve(mark: Edge -> nat)
    ensures var g := GRAPH_EDGES;
      Common.Total(g, mark) == mark(g[0]) + mark(g[1]) + mark(g[2]) + mark(g[3]) + mark(g[4]) + mark(g[5])
        + mark(g[6]) + mark(g[7]) + mark(g[8]) + mark(g[9]) + mark(g[10]) + mark(g[11])
  {
    TotalFrom(GRAPH_EDGES, 0, mark);
    TotalFrom(GRAPH_EDGES, 6, mark);
    assert GRAPH_EDGES[0..] == GRAPH_EDGES;
    assert GRAPH_EDGES[12..] == [];
  }

  lemma {:induction false} TotalFrom(g: seq<Edge>, k: nat, mark: Edge -> nat)
    requires k + 6 <= |g|
    ensures Common.Total(g[k..], mark) == mark(g[k]) + mark(g[k + 1]) + mark(g[k + 2]) + mark(g[k + 3])
      + mark(g[k + 4]) + mark(g[k + 5]) + Common.Total(g[k + 6..], mark)
  {
    assert g[k..][1..] == g[k + 1..] && g[k + 1..][1..] == g[k + 2..] && g[k + 2..][1..] == g[k + 3..];
    assert g[k + 3..][1..] == g[k + 4..] && g[k + 4..][1..] == g[k + 5..] && g[k + 5..][1..] == g[k + 6..];
    assert Common.Total(g[k..], mark) == mark(g[k]) + Common.Total(g[k + 1..], mark);
    assert Common.Total(g[k + 1..], mark) == mark(g[k + 1]) + Common.Total(g[k + 2..], mark);
    assert Common.Total(g[k + 2..], mark) == mark(g[k + 2]) + Common.Total(g[k + 3..], mark);
    assert Common.Total(g[k + 3..], mark) == mark(g[k + 3]) + Common.Total(g[k + 4..], mark);
    assert Common.Total(g[k + 4..], mark) == mark(g[k + 4]) + Common.Total(g[k + 5..], mark);
  }

  lemma {:induction false} DirectEdges(x: Inputs)
    ensures Common.Total(GRAPH_EDGES, DirectMark(x)) == 2
  {
    ReachableScores(x);
    TotalOfTwelve(DirectMark(x));
  }

  lemma {:induction false} AdaptiveEdges(x: Inputs)
    ensures Common.Total(GRAPH_EDGES, AdaptiveMark(x)) ==
      if x.inertia == Some(InstitutionalFreeze) then 0 else if x.inertia == Some(LockedBehavior) then 1 else 2
  {
    ReachableScores(x);
    TotalOfTwelve(AdaptiveMark(x));
  }

  lemma {:induction false} IrreversibleEdges(x: Inputs)
    ensures Common.Total(GRAPH_EDGES, IrreversibleMark(x)) ==
      if IsHeld(x) || x.doctrine == Some(RigidDoctrine) || x.doctrine == Some(EmbeddedDoctrine) then 3 else 0
  {
    TotalOfTwelve(IrreversibleMark(x));
  }

  /**
   Of the five steps up two are always direct and the last is always blocked; the two between are
   adaptive unless inertia blocks them. The three rigid steps down are irreversible all together or not at all.
   */
  lemma {:induction false} EdgesExactly(x: Inputs)
    ensures var r := Report(x);
      && r.direct == 2
      && r.adaptive == (if x.inertia == Some(InstitutionalFreeze) then 0
                        else if x.inertia == Some(LockedBehavior) then 1 else 2)
      && r.blocked == 3 - r.adaptive
      && r.irreversible == (if IsHeld(x) || x.doctrine == Some(RigidDoctrine) || x.doctrine == Some(EmbeddedDoctrine)
                            then 3 else 0)
  {
    DirectEdges(x);
    AdaptiveEdges(x);
    IrreversibleEdges(x);
    RecoveryEdgesAreConserved(x);
  }

  // ---- bottleneck -----------------------------------------------------------------------

  /** How far down the path the system stands; unknown counts as constrained recovery. */
  function Depth(recovery: Option<RecoveryState>): nat {
    if recovery == Some(StructurallyExhausted) then 5
    else if recovery == Some(ContinuityWithoutRecovery) then 4
    else if recovery == Some(RestructuringDependent) then 3
    else if recovery == Some(RecoverableWithAdaptation) then 1
    else if recovery == Some(StructurallyRecoverable) then 0
    else 2
  }

  /** The first least accessible state of the path. */
  predicate IsBottleneck(x: Inputs, k: nat) {
    && k <= Depth(x.recovery)
    && (forall j :: 0 <= j <= Depth(x.recovery) ==> Score(x, k) <= Score(x, j))
    && forall j :: 0 <= j < k ==> Score(x, k) < Score(x, j)
  }

  predicate IsInThousandths(v: real) {
    v * 1000.0 == (v * 1000.0).Floor as real
  }

  lemma RoundedIsThousandths(v: real)
    ensures IsInThousandths(Rounded(v))
  {
    var low := (v * 1000.0).Floor;
    WholeIsThousandths(low);
    WholeIsThousandths(low + 1);
  }

  lemma WholeIsThousandths(n: int)
    ensures IsInThousandths(n as real / 1000.0)
  {
  }

  lemma {:induction false} WeakestIsBottleneck(x: Inputs)
    ensures IsBottleneck(x, Weakest(x, Position(x.recovery)))
  {
    PositionIsDepth(x.recovery);
  }

  lemma PositionIsDepth(r: Option<RecoveryState>)
    ensures Position(r) == Depth(r)
  {
  }

  lemma {:induction false} BottleneckIsOne(x: Inputs, j: nat, k: nat)
    requires IsBottleneck(x, j) && IsBottleneck(x, k)
    ensures j == k
  {
    assert Score(x, j) <= Score(x, k) <= Score(x, j);
  }

  /** The density is the score of the bottleneck, rounded to thousandths. */
  lemma {:induction false} DensityExactly(x: Inputs, k: nat)
    requires IsBottleneck(x, k)
    ensures Score(x, k) - 0.0005 <= Density(x) <= Score(x, k) + 0.0005 && IsInThousandths(Density(x))
  {
    WeakestIsBottleneck(x);
    BottleneckIsOne(x, k, Weakest(x, Position(x.recovery)));
    RoundedIsNear(Score(x, k));
    RoundedIsThousandths(Score(x, k));
  }

  lemma {:induction false} WeakestIsOne(x: Inputs, k: nat)
    requires IsBottleneck(x, k)
    ensures k == Weakest(x, Position(x.recovery))
  {
    WeakestIsBottleneck(x);
    BottleneckIsOne(x, k, Weakest(x, Position(x.recovery)));
  }

  /** The report names the bottleneck and carries the density. */
  lemma {:induction false} BottleneckExactly(x: Inputs, k: nat)
    requires IsBottleneck(x, k)
    ensures k < 6 && Report(x).bottleneck == STATE_ORDER[k] && Report(x).density == Density(x)
  {
    WeakestIsOne(x, k);
  }

  // ---- density and dominant type --------------------------------------------------------

  lemma {:induction false} OpenDensity(x: Inputs)
    requires Position(x.recovery) <= 2
    ensures Density(x) >= 0.48
  {
    var w := Weakest(x, Position(x.recovery));
    ReachableScores(x);
    BetterScores(x);
    RoundedAtLeast(Score(x, w));
  }

  lemma BetterScores(x: Inputs)
    ensures Score(x, 0) >= 0.49 && Score(x, 1) >= 0.49 && Score(x, 2) >= 0.49
  {
  }

  lemma RoundedAtLeast(v: real)
    requires v >= 0.49
    ensures Rounded(v) >= 0.48
  {
    RoundedIsNear(v);
  }

  /** Inertia or spent energy narrows the path of a restructuring system. */
  predicate IsNarrowed(x: Inputs) {
    IsHeld(x) || x.inertia == Some(StructuralInertia) || IsSpent(x.energy)
  }

  lemma RestructuringScores(x: Inputs)
    requires x.recovery == Some(RestructuringDependent)
    ensures Score(x, 3) < 0.36
    ensures if IsNarrowed(x) then 0.20 < Score(x, 3) < 0.318 else 0.33 < Score(x, 3)
  {
  }

  lemma {:induction false} RestructuringDensity(x: Inputs)
    requires x.recovery == Some(RestructuringDependent)
    ensures if IsNarrowed(x) then 0.18 <= Density(x) < 0.32 else 0.32 <= Density(x) < 0.48
  {
    var w := Weakest(x, 3);
    BetterScores(x);
    RestructuringScores(x);
    assert w == 3;
    RoundedIsNear(Score(x, 3));
  }

  /** The dominant type, from the labels alone. */
  function DominantBy(recovery: Option<RecoveryState>, inertia: Option<Inertia>, narrowed: bool): PathType {
    if recovery in {Some(ContinuityWithoutRecovery), Some(StructurallyExhausted)} then IrreversiblePath
    else if recovery == Some(RestructuringDependent)
    then if narrowed then CollapseProximityPath else RestructuringRequiredPath
    else if inertia == Some(InstitutionalFreeze) then CollapseProximityPath
    else DirectRecoveryPath
  }

  function DominantAt(density: real, inertia: Option<Inertia>): PathType {
    if density < 0.18 then IrreversiblePath
    else if density < 0.32 then CollapseProximityPath
    else if density < 0.48 then RestructuringRequiredPath
    else if inertia == Some(InstitutionalFreeze) then CollapseProximityPath
    else DirectRecoveryPath
  }

  lemma PickExactly(adaptive: nat, density: real)
    requires adaptive <= 2
    ensures PickDominant(2, adaptive, 3 - adaptive, density) ==
      if density < 0.18 then IrreversiblePath
      else if density < 0.32 then CollapseProximityPath
      else if density < 0.48 then RestructuringRequiredPath
      else if adaptive == 0 then CollapseProximityPath
      else DirectRecoveryPath
  {
  }

  lemma {:induction false} DominantByDensity(x: Inputs)
    ensures Report(x).dominant == DominantAt(Density(x), x.inertia)
  {
    EdgesExactly(x);
    PickExactly(Report(x).adaptive, Density(x));
  }

  lemma DensityDecides(density: real, recovery: Option<RecoveryState>, inertia: Option<Inertia>, narrowed: bool)
    requires density < 0.18 <==> recovery in {Some(ContinuityWithoutRecovery), Some(StructurallyExhausted)}
    requires recovery == Some(RestructuringDependent) ==>
      if narrowed then density < 0.32 else 0.32 <= density < 0.48
    requires Position(recovery) <= 2 ==> density >= 0.48
    ensures DominantAt(density, inertia) == DominantBy(recovery, inertia, narrowed)
  {
  }

  /** An adaptive path never dominates: the direct steps are never outnumbered. */
  lemma {:induction false} DominantExactly(x: Inputs)
    ensures Report(x).dominant == DominantBy(x.recovery, x.inertia, IsNarrowed(x))
    ensures Report(x).dominant != AdaptiveRecoveryPath
  {
    DominantByDensity(x);
    ThinPathExactly(x);
    if x.recovery == Some(RestructuringDependent) { RestructuringDensity(x); }
    if Position(x.recovery) <= 2 { OpenDensity(x); }
    DensityDecides(Density(x), x.recovery, x.inertia, IsNarrowed(x));
  }

  lemma PostureNarrows(p: Posture)
    ensures IsNarrowed(PathInputs(p)) <==>
      p.inertia in {InstitutionalFreeze, LockedBehavior, StructuralInertia} || p.energy == StructurallyExhausting
  {
  }

  lemma PostureGoesIn(p: Posture)
    ensures PathInputs(p).recovery == Some(p.recovery) && PathInputs(p).inertia == Some(p.inertia)
    ensures PathInputs(p).doctrine == Some(p.doctrine)
  {
  }

  /** The path of a posture, from its ranks. */
  lemma {:induction false} PosturePathExactly(p: Posture, path: PathType)
    requires path == Report(PathInputs(p)).dominant
    ensures path == DominantBy(Some(p.recovery), Some(p.inertia),
      p.inertia in {InstitutionalFreeze, LockedBehavior, StructuralInertia} || p.energy == StructurallyExhausting)
  {
    DominantExactly(PathInputs(p));
    PostureNarrows(p);
    PostureGoesIn(p);
  }
}
