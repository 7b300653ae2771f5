/**
 Selection of the one operational focus: a chain of signals when one is fully covered, otherwise the
 strongest single signal. Display texts and links to scenarios and chains are left out.
 */
module FocusEngine {
  import opened Common
  import opened Strings

  datatype Category = LowStock | HighAdSpend | MarginCrisis | SeoOpportunity | SalesGrowth | OtherCategory
  datatype Status = Resolved | Dismissed | Open
  datatype Decay = Persistent | Fresh | Aging | Fading | Stale | OtherDecay
  datatype Lifecycle = Recurring | Confirmed | Stabilized | Emerging | ResolvedStage | OtherStage
  datatype Momentum = PersistentFocus | ActiveFocus | Slowing | Historical

  datatype Insight = Insight(
    key: string, status: Status, secondary: bool, confidence: Option<int>, weight: Option<real>,
    decay: Option<Decay>, lifecycle: Option<Lifecycle>)

  function CategoryOf(i: Insight): Category {
    var name := CategoryName(i.key);
    if name == "low_stock" then LowStock
    else if name == "high_ad_spend" then HighAdSpend
    else if name == "margin_crisis" then MarginCrisis
    else if name == "seo_opportunity" then SeoOpportunity
    else if name == "sales_growth" then SalesGrowth
    else OtherCategory
  }

  function Tier(c: Category): nat {
    match c
    case LowStock => 1
    case HighAdSpend | MarginCrisis => 2
    case SeoOpportunity => 3
    case SalesGrowth => 4
    case OtherCategory => 9
  }

  // ---- eligibility and weight -----------------------------------------------------------

  function MomentumOf(i: Insight): Momentum {
    if i.decay == Some(Persistent) || i.lifecycle == Some(Recurring) then PersistentFocus
    else match i.decay
      case None => ActiveFocus
      case Some(Fresh) | Some(Aging) => ActiveFocus
      case Some(Fading) => Slowing
      case _ => Historical
  }

  function AfterDecay(w: real, decay: Option<Decay>): real {
    match decay
    case Some(Fading) => w * 0.72
    case Some(Stale) => 0.0
    case _ => w
  }

  function AfterLifecycle(w: real, stage: Option<Lifecycle>): real {
    match stage
    case Some(Recurring) => w * 1.15
    case Some(Stabilized) => w * 0.9
    case Some(Emerging) => w * 0.85
    case Some(ResolvedStage) => w * 0.5
    case _ => w
  }

  /** A missing weight counts as zero here, but passes the eligibility threshold below. */
  function EffectiveWeight(i: Insight): real {
    AfterLifecycle(AfterDecay(if i.weight.Some? then i.weight.value else 0.0, i.decay), i.lifecycle)
  }

  function MinWeight(stabilityCredit: real): real {
    if stabilityCredit >= 0.7 then 65.0 else 50.0
  }

  predicate IsEligible(i: Insight, minWeight: real) {
    && i.status.Open? && !i.secondary
    && i.confidence.Some? && i.confidence.value >= 50
    && (i.weight.None? || i.weight.value == 0.0 || i.weight.value >= minWeight)
    && MomentumOf(i) != Historical
  }

  /** An eligible insight with its category and effective weight. */
  datatype Signal = Signal(insight: Insight, category: Category, weight: real)

  function Signals(insights: seq<Insight>): (r: seq<Signal>)
    ensures |r| == |insights|
    ensures forall k :: 0 <= k < |r| ==>
      r[k] == Signal(insights[k], CategoryOf(insights[k]), EffectiveWeight(insights[k]))
  {
    seq(|insights|, k requires 0 <= k < |insights| =>
      Signal(insights[k], CategoryOf(insights[k]), EffectiveWeight(insights[k])))
  }

  function Eligible(stabilityCredit: real): Insight -> bool {
    i => IsEligible(i, MinWeight(stabilityCredit))
  }

  function ActiveSignals(insights: seq<Insight>, stabilityCredit: real): seq<Signal> {
    Signals(Filter(insights, Eligible(stabilityCredit)))
  }

  // ---- chains ---------------------------------------------------------------------------

  datatype Chain = AdsAndMargin | SearchAndAds | StockAndGrowth | StockAndAds | MarginAndSearch

  /** In the order the source lists them. */
  const CHAINS: seq<Chain> := [AdsAndMargin, SearchAndAds, StockAndGrowth, StockAndAds, MarginAndSearch]

  predicate Contains(chain: Chain, c: Category) {
    match chain
    case AdsAndMargin => c.HighAdSpend? || c.MarginCrisis?
    case SearchAndAds => c.SeoOpportunity? || c.HighAdSpend?
    case StockAndGrowth => c.LowStock? || c.SalesGrowth?
    case StockAndAds => c.LowStock? || c.HighAdSpend?
    case MarginAndSearch => c.MarginCrisis? || c.SeoOpportunity?
  }

  function ChainTier(chain: Chain): nat {
    match chain
    case StockAndGrowth | StockAndAds => 1
    case AdsAndMargin | SearchAndAds | MarginAndSearch => 2
  }

  predicate IsPresent(active: seq<Signal>, c: Category) {
    exists i :: 0 <= i < |active| && active[i].category == c
  }

  predicate IsCovered(active: seq<Signal>, chain: Chain) {
    forall c: Category :: Contains(chain, c) ==> IsPresent(active, c)
  }

  /** The signals of a chain, in input order. */
  function Linked(active: seq<Signal>, chain: Chain): seq<Signal> {
    Filter(active, (s: Signal) => Contains(chain, s.category))
  }

  /** The strongest weight in a list, 0 when it is empty. */
  function Strongest(signals: seq<Signal>): (w: real)
    ensures signals == [] ==> w == 0.0
    ensures signals != [] ==> exists i :: 0 <= i < |signals| && signals[i].weight == w
    ensures forall i :: 0 <= i < |signals| ==> signals[i].weight <= w
  {
    if signals == [] then 0.0
    else
      var rest := signals[..|signals| - 1];
      var last := signals[|signals| - 1].weight;
      if rest == [] || last > Strongest(rest) then last else Strongest(rest)
  }

  function Evidence(active: seq<Signal>, chain: Chain): real {
    Strongest(Linked(active, chain))
  }

  predicate IsCandidate(active: seq<Signal>, chain: Chain) {
    IsCovered(active, chain) && Evidence(active, chain) >= 40.0
  }

  /** Lower tier, then stronger evidence. */
  predicate Beats(active: seq<Signal>, a: Chain, b: Chain) {
    ChainTier(a) < ChainTier(b) || (ChainTier(a) == ChainTier(b) && Evidence(active, a) > Evidence(active, b))
  }

  /** The k-th chain is a candidate that no other beats, nor any earlier one equals. */
  predicate IsBestChain(active: seq<Signal>, k: nat, n: nat)
    requires k < n <= |CHAINS|
  {
    && IsCandidate(active, CHAINS[k])
    && (forall j :: 0 <= j < k && IsCandidate(active, CHAINS[j]) ==> Beats(active, CHAINS[k], CHAINS[j]))
    && forall j :: k < j < n && IsCandidate(active, CHAINS[j]) ==> !Beats(active, CHAINS[j], CHAINS[k])
  }

  method SelectChain(active: seq<Signal>) returns (best: Option<nat>)
    ensures best.None? ==> forall j :: 0 <= j < |CHAINS| ==> !IsCandidate(active, CHAINS[j])
    ensures best.Some? ==> best.value < |CHAINS| && IsBestChain(active, best.value, |CHAINS|)
  {
    best := None;
    var bestTier, bestWeight := 99, 0.0;
    for n := 0 to |CHAINS|
      invariant best.None? ==> bestTier == 99 && forall j :: 0 <= j < n ==> !IsCandidate(active, CHAINS[j])
      invariant best.Some? ==> best.value < n && IsBestChain(active, best.value, n)
      invariant best.Some? ==>
        bestTier == ChainTier(CHAINS[best.value]) && bestWeight == Evidence(active, CHAINS[best.value])
    {
      var chain := CHAINS[n];
      if IsCovered(active, chain) {
        var weight := Evidence(active, chain);
        if weight < 40.0 { continue; }
        var tier := ChainTier(chain);
        if tier < bestTier || (tier == bestTier && weight > bestWeight) {
          best, bestTier, bestWeight := Some(n), tier, weight;
        }
      }
    }
  }

  /** The tier a chain competes with is the lowest tier of its signals. */
  lemma ChainTierIsLowest(chain: Chain)
    ensures exists c: Category :: IsRootCause(chain, c)
    ensures forall c: Category :: Contains(chain, c) ==> ChainTier(chain) <= Tier(c)
  {
    var c := match chain
      case StockAndGrowth | StockAndAds => LowStock
      case AdsAndMargin | SearchAndAds => HighAdSpend
      case MarginAndSearch => MarginCrisis;
    assert IsRootCause(chain, c);
  }

  /** A signal of the chain's tier; which one is reported when two share it is left to hash order. */
  predicate IsRootCause(chain: Chain, c: Category) {
    Contains(chain, c) && Tier(c) == ChainTier(chain)
  }

  /** The root cause is determined exactly for the chains whose two signals differ in tier. */
  lemma RootCauseIsDeterminedExactly(chain: Chain)
    ensures (forall a: Category, b: Category :: IsRootCause(chain, a) && IsRootCause(chain, b) ==> a == b)
      <==> chain != AdsAndMargin
  {
    if chain == AdsAndMargin {
      assert IsRootCause(chain, HighAdSpend) && IsRootCause(chain, MarginCrisis);
    }
  }

  // ---- the single strongest signal ------------------------------------------------------

  function ConfidenceOf(s: Signal): int {
    if s.insight.confidence.Some? then s.insight.confidence.value else 0
  }

  /** The order of the fallback: weight, then lower tier, then confidence. */
  predicate Exceeds(a: Signal, b: Signal) {
    || a.weight > b.weight
    || (a.weight == b.weight && (Tier(a.category) < Tier(b.category)
                                 || (Tier(a.category) == Tier(b.category) && ConfidenceOf(a) > ConfidenceOf(b))))
  }

  /** The first of the signals none exceeds. */
  predicate IsStrongestSignal(active: seq<Signal>, k: nat, n: nat)
    requires k < n <= |active|
  {
    && (forall j :: 0 <= j < k ==> Exceeds(active[k], active[j]))
    && forall j :: k < j < n ==> !Exceeds(active[j], active[k])
  }

  method SelectSignal(active: seq<Signal>) returns (best: nat)
    requires active != []
    ensures best < |active| && IsStrongestSignal(active, best, |active|)
  {
    best := 0;
    for n := 1 to |active|
      invariant best < n && IsStrongestSignal(active, best, n)
    {
      if Exceeds(active[n], active[best]) { best := n; }
    }
  }

  // ---- the focus ------------------------------------------------------------------------

  datatype Focus = Focus(chain: Option<Chain>, rootCause: Category, linked: seq<string>, confidence: int,
                         momentum: Momentum, effectiveWeight: int)

  function Keys(signals: seq<Signal>): (r: seq<string>)
    ensures |r| == |signals| && forall k :: 0 <= k < |r| ==> r[k] == signals[k].insight.key
  {
    seq(|signals|, k requires 0 <= k < |signals| => signals[k].insight.key)
  }

  function TotalConfidence(signals: seq<Signal>): int {
    if signals == [] then 0 else ConfidenceOf(signals[0]) + TotalConfidence(signals[1..])
  }

  /** Confidences of eligible signals are at least 50, so truncation rounds down. */
  function AverageConfidence(signals: seq<Signal>): int {
    if signals == [] then 70 else TotalConfidence(signals) / |signals|
  }

  predicate ShowsMomentum(signals: seq<Signal>, m: Momentum) {
    exists i :: 0 <= i < |signals| && MomentumOf(signals[i].insight) == m
  }

  function DominantMomentum(signals: seq<Signal>): Momentum {
    if ShowsMomentum(signals, PersistentFocus) then PersistentFocus
    else if ShowsMomentum(signals, ActiveFocus) then ActiveFocus
    else if ShowsMomentum(signals, Slowing) then Slowing
    else if ShowsMomentum(signals, Historical) then Historical
    else ActiveFocus
  }

  predicate ReportsChain(active: seq<Signal>, chain: Chain, f: Focus) {
    var linked := Linked(active, chain);
    && f.chain == Some(chain) && IsRootCause(chain, f.rootCause)
    && f.linked == Keys(linked) && f.confidence == AverageConfidence(linked)
    && f.momentum == DominantMomentum(linked) && f.effectiveWeight == Evidence(active, chain).Floor
  }

  predicate ReportsSignal(s: Signal, f: Focus) {
    && f.chain == None && f.rootCause == s.category && s.category != OtherCategory
    && f.linked == [s.insight.key] && f.confidence == (if ConfidenceOf(s) == 0 then 70 else ConfidenceOf(s))
    && f.momentum == MomentumOf(s.insight) && f.effectiveWeight == s.weight.Floor
  }

  predicate HasCandidate(active: seq<Signal>) {
    exists j :: 0 <= j < |CHAINS| && IsCandidate(active, CHAINS[j])
  }

  /** Everything the result has to be, but for the choice among tied root causes. */
  ghost predicate IsFocus(active: seq<Signal>, focus: Option<Focus>) {
    if HasCandidate(active) then
      focus.Some? && exists k :: 0 <= k < |CHAINS| && IsBestChain(active, k, |CHAINS|)
                                 && ReportsChain(active, CHAINS[k], focus.value)
    else if active == [] then focus == None
    else exists k :: 0 <= k < |active| && IsStrongestSignal(active, k, |active|)
                     && (if active[k].category == OtherCategory then focus == None
                         else focus.Some? && ReportsSignal(active[k], focus.value))
  }

  method ComputeFocus(insights: seq<Insight>, stabilityCredit: real) returns (focus: Option<Focus>)
    ensures IsFocus(ActiveSignals(insights, stabilityCredit), focus)
  {
    var active := ActiveSignals(insights, stabilityCredit);
    if active == [] { return None; }
    var best := SelectChain(active);
    if best.Some? {
      var chain := CHAINS[best.value];
      var linked := Linked(active, chain);
      ChainTierIsLowest(chain);
      var root: Category :| IsRootCause(chain, root);
      return Some(Focus(Some(chain), root, Keys(linked), AverageConfidence(linked), DominantMomentum(linked),
                        Evidence(active, chain).Floor));
    }
    var k := SelectSignal(active);
    var s := active[k];
    if s.category == OtherCategory { return None; }
    return Some(Focus(None, s.category, [s.insight.key], if ConfidenceOf(s) == 0 then 70 else ConfidenceOf(s),
                      MomentumOf(s.insight), s.weight.Floor));
  }

  // ---- what selection promises ----------------------------------------------------------

  lemma BestChainIsUnique(active: seq<Signal>, j: nat, k: nat)
    requires j < |CHAINS| && k < |CHAINS|
    requires IsBestChain(active, j, |CHAINS|) && IsBestChain(active, k, |CHAINS|)
    ensures j == k
  {
    var kBeatsJ, jBeatsK := Beats(active, CHAINS[k], CHAINS[j]), Beats(active, CHAINS[j], CHAINS[k]);
    assert j < k ==> kBeatsJ && !kBeatsJ;
    assert k < j ==> jBeatsK && !jBeatsK;
  }

  lemma StrongestSignalIsUnique(active: seq<Signal>, j: nat, k: nat)
    requires j < |active| && k < |active|
    requires IsStrongestSignal(active, j, |active|) && IsStrongestSignal(active, k, |active|)
    ensures j == k
  {
    var kExceedsJ, jExceedsK := Exceeds(active[k], active[j]), Exceeds(active[j], active[k]);
    assert j < k ==> kExceedsJ && !kExceedsJ;
    assert k < j ==> jExceedsK && !jExceedsK;
  }

  /** Two runs on the same input agree on everything but the root cause of a tied chain. */
  lemma {:induction false} FocusIsDeterminedExceptForTies(active: seq<Signal>, a: Option<Focus>, b: Option<Focus>)
    requires IsFocus(active, a) && IsFocus(active, b)
    ensures a.Some? <==> b.Some?
    ensures a.Some? ==> a.value == b.value.(rootCause := a.value.rootCause)
    ensures a.Some? && a.value.chain != Some(AdsAndMargin) ==> a == b
  {
    if HasCandidate(active) {
      var j :| 0 <= j < |CHAINS| && IsBestChain(active, j, |CHAINS|) && ReportsChain(active, CHAINS[j], a.value);
      var k :| 0 <= k < |CHAINS| && IsBestChain(active, k, |CHAINS|) && ReportsChain(active, CHAINS[k], b.value);
      BestChainIsUnique(active, j, k);
      RootCauseIsDeterminedExactly(CHAINS[j]);
    } else if active != [] {
      var j :| 0 <= j < |active| && IsStrongestSignal(active, j, |active|)
        && (if active[j].category == OtherCategory then a == None else a.Some? && ReportsSignal(active[j], a.value));
      var k :| 0 <= k < |active| && IsStrongestSignal(active, k, |active|)
        && (if active[k].category == OtherCategory then b == None else b.Some? && ReportsSignal(active[k], b.value));
      StrongestSignalIsUnique(active, j, k);
    }
  }

  lemma FilterDropsRejected<T(!new)>(a: seq<T>, x: T, b: seq<T>, keep: T -> bool)
    requires !keep(x)
    ensures Filter(a + [x] + b, keep) == Filter(a + b, keep)
  {
    FilterOfConcat(a + [x], b, keep);
    FilterOfConcat(a, [x], keep);
    FilterOfConcat(a, b, keep);
    assert Filter([x], keep) == [];
  }

  /**
   A resolved, dismissed, secondary, historical, low-confidence or low-weight insight changes
   nothing, wherever it stands in the input.
   */
  lemma {:induction false} IneligibleNeverMatters(
    a: seq<Insight>, x: Insight, b: seq<Insight>, stabilityCredit: real, focus: Option<Focus>)
    requires !IsEligible(x, MinWeight(stabilityCredit))
    ensures IsFocus(ActiveSignals(a + [x] + b, stabilityCredit), focus) <==>
      IsFocus(ActiveSignals(a + b, stabilityCredit), focus)
  {
    FilterDropsRejected(a, x, b, Eligible(stabilityCredit));
    var with, without := ActiveSignals(a + [x] + b, stabilityCredit), ActiveSignals(a + b, stabilityCredit);
    assert with == without;
  }

  /**
   A missing or zero weight passes the eligibility threshold but is no evidence: a chain whose
   signals all lack one is never selected.
   */
  lemma WeightlessChainIsNoCandidate(active: seq<Signal>, chain: Chain)
    requires forall s :: s in active && Contains(chain, s.category) ==>
      s.weight == EffectiveWeight(s.insight) && (s.insight.weight.None? || s.insight.weight.value == 0.0)
    ensures !IsCandidate(active, chain)
  {
    var linked := Linked(active, chain);
    forall i | 0 <= i < |linked| ensures linked[i].weight == 0.0 {
      assert linked[i] in linked;
    }
  }

  // ---- scenario compression -------------------------------------------------------------

  datatype Path = Conservative | Balanced | Aggressive | OtherPath(name: string)
  datatype Scenario = Scenario(path: Path, confidence: int, id: string)

  /** The first of the most confident scenarios of a path: earlier ones have less, later ones no more. */
  predicate IsFirstBest(scenarios: seq<Scenario>, path: Path, k: nat)
    requires k < |scenarios|
  {
    && scenarios[k].path == path
    && (forall j :: 0 <= j < k && scenarios[j].path == path ==> scenarios[j].confidence < scenarios[k].confidence)
    && forall j :: k < j < |scenarios| && scenarios[j].path == path
         ==> scenarios[j].confidence <= scenarios[k].confidence
  }

  function BestOf(scenarios: seq<Scenario>, path: Path): (r: Option<Scenario>)
    ensures r.Some? <==> exists s :: s in scenarios && s.path == path
    ensures r.Some? ==> r.value in scenarios && r.value.path == path
    ensures r.Some? ==> forall s :: s in scenarios && s.path == path ==> s.confidence <= r.value.confidence
  {
    if scenarios == [] then None
    else
      var best, last := BestOf(scenarios[..|scenarios| - 1], path), scenarios[|scenarios| - 1];
      if last.path == path && (best.None? || last.confidence > best.value.confidence) then Some(last) else best
  }

  /** On ties the first one given wins. */
  lemma {:induction false} BestOfIsFirst(scenarios: seq<Scenario>, path: Path) returns (k: nat)
    requires BestOf(scenarios, path).Some?
    ensures k < |scenarios| && IsFirstBest(scenarios, path, k) && BestOf(scenarios, path) == Some(scenarios[k])
  {
    var front, last := scenarios[..|scenarios| - 1], scenarios[|scenarios| - 1];
    var best := BestOf(front, path);
    if last.path == path && (best.None? || last.confidence > best.value.confidence) {
      k := |scenarios| - 1;
      forall j | 0 <= j < k && scenarios[j].path == path ensures scenarios[j].confidence < last.confidence {
        assert front[j] in front;
      }
    } else {
      k := BestOfIsFirst(front, path);
    }
  }

  function ListOf<T>(x: Option<T>): seq<T> {
    if x.Some? then [x.value] else []
  }

  function Lookup(byPath: map<Path, Scenario>, p: Path): Option<Scenario> {
    if p in byPath then Some(byPath[p]) else None
  }

  ghost predicate Holds(byPath: map<Path, Scenario>, scenarios: seq<Scenario>) {
    forall p :: Lookup(byPath, p) == BestOf(scenarios, p)
  }

  function Improved(byPath: map<Path, Scenario>, s: Scenario): map<Path, Scenario> {
    if s.path !in byPath || s.confidence > byPath[s.path].confidence then byPath[s.path := s] else byPath
  }

  lemma BestOfAppend(scenarios: seq<Scenario>, s: Scenario, p: Path)
    ensures var best := BestOf(scenarios, p);
      BestOf(scenarios + [s], p) ==
        if s.path == p && (best.None? || s.confidence > best.value.confidence) then Some(s) else best
  {
    assert (scenarios + [s])[..|scenarios|] == scenarios;
  }

  lemma ImprovingKeepsBest(byPath: map<Path, Scenario>, scenarios: seq<Scenario>, s: Scenario)
    requires Holds(byPath, scenarios)
    ensures Holds(Improved(byPath, s), scenarios + [s])
  {
    var next := Improved(byPath, s);
    forall p ensures Lookup(next, p) == BestOf(scenarios + [s], p) {
      assert Lookup(byPath, p) == BestOf(scenarios, p);
      BestOfAppend(scenarios, s, p);
    }
  }

  lemma {:induction false} FirstBestIsTheBest(scenarios: seq<Scenario>, path: Path, k: nat)
    requires k < |scenarios| && IsFirstBest(scenarios, path, k)
    ensures BestOf(scenarios, path) == Some(scenarios[k])
  {
    assert scenarios[k] in scenarios;
    var j := BestOfIsFirst(scenarios, path);
    assert j == k;
  }

  /** The places of the scenarios that survive compression. */
  ghost predicate Survives(scenarios: seq<Scenario>, k: int) {
    0 <= k < |scenarios| && !scenarios[k].path.OtherPath? && IsFirstBest(scenarios, scenarios[k].path, k)
  }

  method CompressScenarios(scenarios: seq<Scenario>) returns (r: seq<Scenario>)
    ensures r == ListOf(BestOf(scenarios, Conservative)) + ListOf(BestOf(scenarios, Balanced))
                 + ListOf(BestOf(scenarios, Aggressive))
    ensures forall k :: Survives(scenarios, k) ==> scenarios[k] in r
    ensures forall s :: s in r ==> exists k :: Survives(scenarios, k) && scenarios[k] == s
  {
    var byPath: map<Path, Scenario> := map[];
    for n := 0 to |scenarios|
      invariant Holds(byPath, scenarios[..n])
    {
      var s := scenarios[n];
      assert scenarios[..n + 1] == scenarios[..n] + [s];
      ImprovingKeepsBest(byPath, scenarios[..n], s);
      if s.path !in byPath || s.confidence > byPath[s.path].confidence {
        byPath := byPath[s.path := s];
      }
    }
    assert scenarios[..|scenarios|] == scenarios;
    r := ListOf(Lookup(byPath, Conservative)) + ListOf(Lookup(byPath, Balanced)) + ListOf(Lookup(byPath, Aggressive));
    forall k | Survives(scenarios, k) ensures scenarios[k] in r {
      FirstBestIsTheBest(scenarios, scenarios[k].path, k);
    }
    forall s | s in r ensures exists k :: Survives(scenarios, k) && scenarios[k] == s {
      var k := BestOfIsFirst(scenarios, s.path);
      assert Survives(scenarios, k);
    }
  }
}
