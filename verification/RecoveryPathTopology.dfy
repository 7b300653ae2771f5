/** backend/logic/recovery_path_topology.py: accessibility of the recovery path. */
module RecoveryPathTopology {
  import opened Common
  import opened DecisionEnergy
  import opened OperationalDoctrine
  import opened InstitutionalInertia
  import opened StructuralRecoveryCapacity

  /** The energy labels this stage reacts to: those of the energy stage and three more. */
  datatype EnergySignal = FromStage(energy: Energy) | Depleted | Critical | Declining | NoEnergy

  datatype EdgeSignal = RecoverySignal | DegradationSignal | RigiditySignal
  datatype PathType =
    | DirectRecoveryPath | AdaptiveRecoveryPath | RestructuringRequiredPath
    | CollapseProximityPath | IrreversiblePath
  datatype Edge = Edge(from: nat, to: nat, signal: EdgeSignal, path: PathType)

  datatype PathReport = PathReport(
    density: real, bottleneck: RecoveryState, dominant: PathType,
    direct: nat, adaptive: nat, blocked: nat, irreversible: nat)

  const STATE_ORDER: seq<RecoveryState> := [
    StructurallyRecoverable, RecoverableWithAdaptation, ConstrainedRecovery,
    RestructuringDependent, ContinuityWithoutRecovery, StructurallyExhausted]

  const GRAPH_EDGES: seq<Edge> := [
    Edge(5, 4, RecoverySignal, RestructuringRequiredPath),
    Edge(4, 3, RecoverySignal, AdaptiveRecoveryPath),
    Edge(3, 2, RecoverySignal, AdaptiveRecoveryPath),
    Edge(2, 1, RecoverySignal, DirectRecoveryPath),
    Edge(1, 0, RecoverySignal, DirectRecoveryPath),
    Edge(0, 1, DegradationSignal, AdaptiveRecoveryPath),
    Edge(1, 2, DegradationSignal, CollapseProximityPath),
    Edge(2, 3, DegradationSignal, CollapseProximityPath),
    Edge(3, 4, RigiditySignal, CollapseProximityPath),
    Edge(4, 5, RigiditySignal, IrreversiblePath),
    Edge(2, 4, DegradationSignal, CollapseProximityPath),
    Edge(3, 5, RigiditySignal, IrreversiblePath)]

  function Index(r: RecoveryState): (k: nat)
    ensures k < 6 && STATE_ORDER[k] == r
  {
    match r
    case StructurallyRecoverable => 0
    case RecoverableWithAdaptation => 1
    case ConstrainedRecovery => 2
    case RestructuringDependent => 3
    case ContinuityWithoutRecovery => 4
    case StructurallyExhausted => 5
  }

  /** The known position on the path; an unknown one counts as constrained recovery. */
  function Position(recovery: Option<RecoveryState>): nat {
    match recovery
    case None => 2
    case Some(r) => Index(r)
  }

  function Base(r: RecoveryState): real {
    match r
    case StructurallyRecoverable => 1.00
    case RecoverableWithAdaptation => 0.85
    case ConstrainedRecovery => 0.65
    case RestructuringDependent => 0.40
    case ContinuityWithoutRecovery => 0.20
    case StructurallyExhausted => 0.05
  }

  function AfterDoctrine(d: Option<Doctrine>, r: RecoveryState, v: real): real {
    match (d, r)
    case (Some(RigidDoctrine), StructurallyRecoverable) => v * 0.70
    case (Some(RigidDoctrine), RecoverableWithAdaptation) => v * 0.78
    case (Some(RigidDoctrine), ConstrainedRecovery) => v * 0.85
    case (Some(EmbeddedDoctrine), StructurallyRecoverable) => v * 0.80
    case (Some(EmbeddedDoctrine), RecoverableWithAdaptation) => v * 0.87
    case (Some(StabilizationDependency), StructurallyRecoverable) => v * 0.90
    case _ => v
  }

  function AfterInertia(i: Option<Inertia>, r: RecoveryState, v: real): real {
    match (i, r)
    case (Some(InstitutionalFreeze), StructurallyExhausted) => v * 0.50
    case (Some(InstitutionalFreeze), ContinuityWithoutRecovery) => v * 0.60
    case (Some(InstitutionalFreeze), RestructuringDependent) => v * 0.72
    case (Some(LockedBehavior), StructurallyExhausted) => v * 0.65
    case (Some(LockedBehavior), ContinuityWithoutRecovery) => v * 0.72
    case (Some(LockedBehavior), RestructuringDependent) => v * 0.82
    case (Some(StructuralInertia), ContinuityWithoutRecovery) => v * 0.82
    case (Some(StructuralInertia), RestructuringDependent) => v * 0.88
    case _ => v
  }

  function AfterRecovery(current: Option<RecoveryState>, r: RecoveryState, v: real): real {
    match (current, r)
    case (Some(StructurallyExhausted), StructurallyExhausted) => v * 0.70
    case (Some(StructurallyExhausted), ContinuityWithoutRecovery) => v * 0.80
    case (Some(ContinuityWithoutRecovery), ContinuityWithoutRecovery) => v * 0.80
    case (Some(ContinuityWithoutRecovery), RestructuringDependent) => v * 0.88
    case (Some(RestructuringDependent), RestructuringDependent) => v * 0.88
    case _ => v
  }

  function AfterEnergy(e: EnergySignal, v: real): real {
    match e
    case Depleted => v * 0.90
    case Critical => v * 0.90
    case FromStage(StructurallyExhausting) => v * 0.90
    case Declining => v * 0.96
    case _ => v
  }

  /** What the in-place modulation leaves for one state. */
  function Accessibility(d: Option<Doctrine>, i: Option<Inertia>, current: Option<RecoveryState>,
                         e: EnergySignal, r: RecoveryState): real {
    Bounded(AfterEnergy(e, AfterRecovery(current, r, AfterInertia(i, r, AfterDoctrine(d, r, Base(r))))))
  }

  function Bounded(v: real): real {
    if v < 0.01 then 0.01 else if v > 1.00 then 1.00 else v
  }

  /** round(x, 3): to the nearest thousandth, ties to even. */
  function Rounded(x: real): real {
    var low := (x * 1000.0).Floor;
    var rest := x * 1000.0 - low as real;
    (if rest < 0.5 || (rest == 0.5 && low % 2 == 0) then low else low + 1) as real / 1000.0
  }

  predicate IsBlocked(edge: Edge, target: real, d: Option<Doctrine>, i: Option<Inertia>) {
    || target < 0.25
    || (i == Some(InstitutionalFreeze) && edge.from >= 3)
    || (i == Some(LockedBehavior) && edge.from >= 4)
    || (d == Some(RigidDoctrine) && edge.from >= 3 && edge.to <= 1)
  }

  predicate IsIrreversible(edge: Edge, d: Option<Doctrine>, i: Option<Inertia>) {
    || (&& edge.signal.RigiditySignal? && edge.from >= 3
        && (i == Some(InstitutionalFreeze) || i == Some(LockedBehavior)
            || d == Some(RigidDoctrine) || d == Some(EmbeddedDoctrine)))
    || (edge.to == 5 && (i == Some(InstitutionalFreeze) || i == Some(LockedBehavior)))
  }

  function PickDominant(direct: nat, adaptive: nat, blocked: nat, density: real): PathType {
    if density < 0.18 then IrreversiblePath
    else if density < 0.32 then CollapseProximityPath
    else if density < 0.48 then RestructuringRequiredPath
    else if blocked > direct + adaptive then CollapseProximityPath
    else if adaptive > direct then AdaptiveRecoveryPath
    else DirectRecoveryPath
  }

  ghost predicate Full(scores: map<RecoveryState, real>) {
    forall r :: r in scores
  }

  function Scale(scores: map<RecoveryState, real>, r: RecoveryState, factor: real): map<RecoveryState, real>
    requires r in scores
  {
    scores[r := scores[r] * factor]
  }

  /** Doctrine rigidity compresses the upper states. */
  method CompressByDoctrine(scores: map<RecoveryState, real>, d: Option<Doctrine>)
    returns (out: map<RecoveryState, real>)
    requires Full(scores)
    ensures Full(out) && forall r :: out[r] == AfterDoctrine(d, r, scores[r])
  {
    out := scores;
    match d {
      case Some(RigidDoctrine) =>
        out := Scale(out, StructurallyRecoverable, 0.70);
        out := Scale(out, RecoverableWithAdaptation, 0.78);
        out := Scale(out, ConstrainedRecovery, 0.85);
      case Some(EmbeddedDoctrine) =>
        out := Scale(out, StructurallyRecoverable, 0.80);
        out := Scale(out, RecoverableWithAdaptation, 0.87);
      case Some(StabilizationDependency) =>
        out := Scale(out, StructurallyRecoverable, 0.90);
      case _ =>
    }
  }

  /** Inertia compresses the lower states. */
  method CompressByInertia(scores: map<RecoveryState, real>, i: Option<Inertia>)
    returns (out: map<RecoveryState, real>)
    requires Full(scores)
    ensures Full(out) && forall r :: out[r] == AfterInertia(i, r, scores[r])
  {
    out := scores;
    match i {
      case Some(InstitutionalFreeze) =>
        out := Scale(out, StructurallyExhausted, 0.50);
        out := Scale(out, ContinuityWithoutRecovery, 0.60);
        out := Scale(out, RestructuringDependent, 0.72);
      case Some(LockedBehavior) =>
        out := Scale(out, StructurallyExhausted, 0.65);
        out := Scale(out, ContinuityWithoutRecovery, 0.72);
        out := Scale(out, RestructuringDependent, 0.82);
      case Some(StructuralInertia) =>
        out := Scale(out, ContinuityWithoutRecovery, 0.82);
        out := Scale(out, RestructuringDependent, 0.88);
      case _ =>
    }
  }

  method CompressByRecovery(scores: map<RecoveryState, real>, current: Option<RecoveryState>)
    returns (out: map<RecoveryState, real>)
    requires Full(scores)
    ensures Full(out) && forall r :: out[r] == AfterRecovery(current, r, scores[r])
  {
    out := scores;
    match current {
      case Some(StructurallyExhausted) =>
        out := Scale(out, StructurallyExhausted, 0.70);
        out := Scale(out, ContinuityWithoutRecovery, 0.80);
      case Some(ContinuityWithoutRecovery) =>
        out := Scale(out, ContinuityWithoutRecovery, 0.80);
        out := Scale(out, RestructuringDependent, 0.88);
      case Some(RestructuringDependent) =>
        out := Scale(out, RestructuringDependent, 0.88);
      case _ =>
    }
  }

  method CompressByEnergy(scores: map<RecoveryState, real>, e: EnergySignal)
    returns (out: map<RecoveryState, real>)
    requires Full(scores)
    ensures Full(out) && forall r :: out[r] == AfterEnergy(e, scores[r])
  {
    out := scores;
    for k := 0 to |STATE_ORDER|
      invariant Full(out)
      invariant forall r :: out[r] == if Index(r) < k then AfterEnergy(e, scores[r]) else scores[r]
    {
      assert Index(STATE_ORDER[k]) == k;
      match e {
        case Depleted => out := Scale(out, STATE_ORDER[k], 0.90);
        case Critical => out := Scale(out, STATE_ORDER[k], 0.90);
        case FromStage(StructurallyExhausting) => out := Scale(out, STATE_ORDER[k], 0.90);
        case Declining => out := Scale(out, STATE_ORDER[k], 0.96);
        case _ =>
      }
    }
  }

  function BaseScores(): (scores: map<RecoveryState, real>)
    ensures Full(scores) && forall r :: scores[r] == Base(r)
  {
    var scores: map<RecoveryState, real> := map[
      StructurallyRecoverable := 1.00, RecoverableWithAdaptation := 0.85, ConstrainedRecovery := 0.65,
      RestructuringDependent := 0.40, ContinuityWithoutRecovery := 0.20, StructurallyExhausted := 0.05];
    assert forall r :: r in scores && scores[r] == Base(r) by {
      forall r ensures r in scores && scores[r] == Base(r) {
        assert r == STATE_ORDER[Index(r)];
      }
    }
    scores
  }

  function Clamped(scores: map<RecoveryState, real>): (out: map<RecoveryState, real>)
    requires Full(scores)
    ensures Full(out) && forall r :: out[r] == Bounded(scores[r])
  {
    map r | r in scores :: Bounded(scores[r])
  }

  method ModulateAccessibility(d: Option<Doctrine>, i: Option<Inertia>, current: Option<RecoveryState>, e: EnergySignal)
    returns (scores: map<RecoveryState, real>)
    ensures Full(scores) && forall r :: scores[r] == Accessibility(d, i, current, e, r)
  {
    scores := BaseScores();
    var byDoctrine := CompressByDoctrine(scores, d);
    var byInertia := CompressByInertia(byDoctrine, i);
    var byRecovery := CompressByRecovery(byInertia, current);
    scores := CompressByEnergy(byRecovery, e);
    scores := Clamped(scores);
  }

  /** What a run of the stage is about. */
  datatype Inputs = Inputs(
    doctrine: Option<Doctrine>, inertia: Option<Inertia>, recovery: Option<RecoveryState>, energy: EnergySignal)

  function Score(x: Inputs, k: nat): real
    requires k < 6
  {
    Accessibility(x.doctrine, x.inertia, x.recovery, x.energy, STATE_ORDER[k])
  }

  /** The least accessible of the first k + 1 states, the earliest one on ties. */
  function Weakest(x: Inputs, k: nat): (w: nat)
    requires k < 6
    ensures w <= k
    ensures forall j :: 0 <= j <= k ==> Score(x, w) <= Score(x, j)
    ensures forall j :: 0 <= j < w ==> Score(x, w) < Score(x, j)
  {
    if k == 0 then 0
    else
      var w := Weakest(x, k - 1);
      if Score(x, k) < Score(x, w) then k else w
  }

  predicate Open(x: Inputs, edge: Edge)
    requires edge.to < 6
  {
    edge.to < edge.from && !IsBlocked(edge, Score(x, edge.to), x.doctrine, x.inertia)
  }

  function DirectMark(x: Inputs): Edge -> nat {
    (edge: Edge) => if edge.to < 6 && Open(x, edge) && edge.path.DirectRecoveryPath? then 1 else 0
  }

  function AdaptiveMark(x: Inputs): Edge -> nat {
    (edge: Edge) =>
      if edge.to < 6 && Open(x, edge)
         && (edge.path.AdaptiveRecoveryPath? || edge.path.RestructuringRequiredPath?) then 1 else 0
  }

  function BlockedMark(x: Inputs): Edge -> nat {
    (edge: Edge) => if edge.to < 6 && edge.to < edge.from && !Open(x, edge) then 1 else 0
  }

  function IrreversibleMark(x: Inputs): Edge -> nat {
    (edge: Edge) => if edge.to > edge.from && IsIrreversible(edge, x.doctrine, x.inertia) then 1 else 0
  }

  datatype EdgeCounts = EdgeCounts(direct: nat, adaptive: nat, blocked: nat, irreversible: nat)

  function Counts(x: Inputs, edges: seq<Edge>): EdgeCounts {
    EdgeCounts(Common.Total(edges, DirectMark(x)), Common.Total(edges, AdaptiveMark(x)),
               Common.Total(edges, BlockedMark(x)), Common.Total(edges, IrreversibleMark(x)))
  }

  function Density(x: Inputs): real {
    Rounded(Score(x, Weakest(x, Position(x.recovery))))
  }

  function ReportOver(x: Inputs, edges: seq<Edge>): PathReport {
    var c := Counts(x, edges);
    PathReport(Density(x), STATE_ORDER[Weakest(x, Position(x.recovery))],
               PickDominant(c.direct, c.adaptive, c.blocked, Density(x)),
               c.direct, c.adaptive, c.blocked, c.irreversible)
  }

  function Report(x: Inputs): PathReport {
    ReportOver(x, GRAPH_EDGES)
  }

  method CountEdges(x: Inputs, scores: map<RecoveryState, real>, edges: seq<Edge>) returns (c: EdgeCounts)
    requires Full(scores) && forall r :: scores[r] == Score(x, Index(r))
    requires forall edge :: edge in edges ==> edge.to < 6
    ensures c == Counts(x, edges)
  {
    var direct, adaptive, blocked, irreversible := 0, 0, 0, 0;
    for k := 0 to |edges|
      invariant direct == Common.Total(edges[..k], DirectMark(x))
      invariant adaptive == Common.Total(edges[..k], AdaptiveMark(x))
      invariant blocked == Common.Total(edges[..k], BlockedMark(x))
      invariant irreversible == Common.Total(edges[..k], IrreversibleMark(x))
    {
      var edge := edges[k];
      TotalOfNext(edges, k, DirectMark(x));
      TotalOfNext(edges, k, AdaptiveMark(x));
      TotalOfNext(edges, k, BlockedMark(x));
      TotalOfNext(edges, k, IrreversibleMark(x));
      if edge.to < edge.from {
        if IsBlocked(edge, scores[STATE_ORDER[edge.to]], x.doctrine, x.inertia) {
          blocked := blocked + 1;
        } else if edge.path.DirectRecoveryPath? {
          direct := direct + 1;
        } else if edge.path.AdaptiveRecoveryPath? || edge.path.RestructuringRequiredPath? {
          adaptive := adaptive + 1;
        }
      }
      if edge.to > edge.from && IsIrreversible(edge, x.doctrine, x.inertia) {
        irreversible := irreversible + 1;
      }
    }
    assert edges[..|edges|] == edges;
    c := EdgeCounts(direct, adaptive, blocked, irreversible);
  }

  lemma EdgesLeadToStates()
    ensures forall edge :: edge in GRAPH_EDGES ==> edge.to < 6
  {
  }

  method FindBottleneck(x: Inputs, scores: map<RecoveryState, real>) returns (bottleneck: nat)
    requires Full(scores) && forall r :: scores[r] == Score(x, Index(r))
    ensures bottleneck == Weakest(x, Position(x.recovery))
  {
    bottleneck := 0;
    for k := 1 to Position(x.recovery) + 1
      invariant bottleneck == Weakest(x, k - 1)
    {
      if scores[STATE_ORDER[k]] < scores[STATE_ORDER[bottleneck]] { bottleneck := k; }
    }
  }

  method ComputeOver(x: Inputs, edges: seq<Edge>) returns (r: PathReport)
    requires forall edge :: edge in edges ==> edge.to < 6
    ensures r == ReportOver(x, edges)
  {
    var scores := ModulateAccessibility(x.doctrine, x.inertia, x.recovery, x.energy);
    var bottleneck := FindBottleneck(x, scores);
    var c := CountEdges(x, scores, edges);
    var density := Rounded(scores[STATE_ORDER[bottleneck]]);
    r := PathReport(density, STATE_ORDER[bottleneck], PickDominant(c.direct, c.adaptive, c.blocked, density),
                    c.direct, c.adaptive, c.blocked, c.irreversible);
  }

  method Compute(x: Inputs) returns (r: PathReport)
    ensures r == Report(x)
  {
    EdgesLeadToStates();
    r := ComputeOver(x, GRAPH_EDGES);
  }

  lemma RoundedIsNear(v: real)
    ensures v - 0.0005 <= Rounded(v) <= v + 0.0005
  {
  }

  /** The four better states keep an accessibility well above the irreversible threshold. */
  lemma BetterStatesStayOpen(x: Inputs, k: nat)
    requires k <= 3
    ensures Score(x, k) >= 0.2
  {
  }

  lemma ThinPathExactly(x: Inputs)
    ensures Density(x) < 0.18
      <==> x.recovery == Some(ContinuityWithoutRecovery) || x.recovery == Some(StructurallyExhausted)
  {
    var w := Weakest(x, Position(x.recovery));
    RoundedIsNear(Score(x, w));
    if Position(x.recovery) <= 3 {
      BetterStatesStayOpen(x, w);
    } else if x.recovery == Some(ContinuityWithoutRecovery) {
      assert Score(x, 4) <= 0.16;
    } else {
      assert Score(x, 5) <= 0.05;
    }
  }

  lemma ThinIsIrreversible(r: PathReport)
    requires r.dominant == PickDominant(r.direct, r.adaptive, r.blocked, r.density)
    ensures r.dominant == IrreversiblePath <==> r.density < 0.18
  {
  }

  /** The path is irreversible exactly from the two worst recovery states. */
  lemma {:induction false} IrreversibleExactly(x: Inputs)
    ensures Report(x).dominant == IrreversiblePath
      <==> x.recovery == Some(ContinuityWithoutRecovery) || x.recovery == Some(StructurallyExhausted)
  {
    ThinPathExactly(x);
    ThinIsIrreversible(Report(x));
  }

  /** Every recovery edge is counted once: direct, adaptive or blocked. */
  lemma {:induction false} RecoveryEdgesAreConserved(x: Inputs)
    ensures var r := Report(x); r.direct + r.adaptive + r.blocked == 5
  {
    RecoveryEdgesSplit(x, GRAPH_EDGES);
    RecoveryEdgesFrom(0);
    assert GRAPH_EDGES[0..] == GRAPH_EDGES;
  }

  lemma {:induction false} RecoveryEdgesFrom(k: nat)
    requires k <= |GRAPH_EDGES|
    ensures Common.Total(GRAPH_EDGES[k..], RecoveryMark()) == if k < 5 then 5 - k else 0
    decreases |GRAPH_EDGES| - k
  {
    if k < |GRAPH_EDGES| {
      RecoveryEdgesFrom(k + 1);
      assert GRAPH_EDGES[k..][1..] == GRAPH_EDGES[k + 1..];
    }
  }

  function RecoveryMark(): Edge -> nat {
    (edge: Edge) => if edge.to < edge.from then 1 else 0
  }

  lemma {:induction false} RecoveryEdgesSplit(x: Inputs, edges: seq<Edge>)
    requires forall edge :: edge in edges ==>
      edge.to < 6 && (edge.to < edge.from ==> !edge.path.CollapseProximityPath? && !edge.path.IrreversiblePath?)
    ensures Common.Total(edges, DirectMark(x)) + Common.Total(edges, AdaptiveMark(x))
            + Common.Total(edges, BlockedMark(x))
      == Common.Total(edges, RecoveryMark())
  {
    if edges != [] {
      RecoveryEdgesSplit(x, edges[1..]);
    }
  }
}
