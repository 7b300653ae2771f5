/** backend/logic/operator_capacity.py: how much simultaneous pressure the operator can handle. */
module OperatorCapacity {
  import opened Common
  import opened Insights

  datatype CapacityState = Stable | Loaded | Saturated | Overloaded
  datatype Complexity = Systemic | OtherComplexity
  datatype Capacity = Capacity(state: CapacityState, score: int, defer: seq<string>)

  const NEVER_DEFER := {"low_stock", "margin_crisis"}
  const DEFERRABLE := ["seo_opportunity", "sales_growth"]

  function Category(key: string): string {
    Before(key, ':')
  }

  /** stable < loaded < saturated < overloaded; no known capacity counts as stable. */
  function CapacityLoad(c: Option<CapacityState>): nat {
    match c
    case Some(Overloaded) => 3
    case Some(Saturated) => 2
    case Some(Loaded) => 1
    case _ => 0
  }

  /** What one insight takes off the bandwidth score. */
  function Penalty(i: Insight): nat {
    if !IsActive(i) then 0 else
      (if i.difficulty.Hard? then 12 else 0)
      + (if i.lifecycle.Recurring? then 8 else 0)
      + (if i.recoveryPath.StructuralPath? then 15 else 0)
      + (if i.decay.Fading? then 4 else 0)
      + (if i.sequenceStage.Some? && i.sequenceStage.value >= 2 then 6 else 0)
  }

  function HeavyTradeoff(i: Insight): nat {
    if IsActive(i) && (i.tradeoff.Moderate? || i.tradeoff.Significant?) then 1 else 0
  }

  function SystemicPattern(c: Complexity): nat {
    if c.Systemic? then 1 else 0
  }

  /** Any insight counts here, resolved ones too. */
  predicate HasPositiveOutcome(insights: seq<Insight>) {
    exists i :: i in insights && (i.outcome.Improved? || i.outcome.Stabilized?)
  }

  /** Python's int(): towards zero. */
  function Truncated(x: real): int {
    if x >= 0.0 then x.Floor else -((-x).Floor)
  }

  function Clamp(x: int, low: int, high: int): int
    requires low <= high
  {
    if x < low then low else if x > high then high else x
  }

  /** The score before it is clamped. */
  function RawScore(insights: seq<Insight>, patterns: seq<Complexity>, fatigue: real, credit: real): int {
    100 - Total(insights, Penalty) - 14 * Total(patterns, SystemicPattern)
    - (if Total(insights, HeavyTradeoff) >= 2 then 8 else 0)
    + (if credit > 0.7 then 8 else 0)
    + (if HasPositiveOutcome(insights) then 6 else 0)
    - Truncated(fatigue * 15.0)
  }

  function BandwidthScore(insights: seq<Insight>, patterns: seq<Complexity>, fatigue: real, credit: real): int {
    Clamp(RawScore(insights, patterns, fatigue, credit), 0, 100)
  }

  function StateOf(score: int): CapacityState {
    if score >= 75 then Stable else if score >= 55 then Loaded else if score >= 35 then Saturated else Overloaded
  }

  function StateFor(insights: seq<Insight>, patterns: seq<Complexity>, fatigue: real, credit: real): CapacityState {
    StateOf(BandwidthScore(insights, patterns, fatigue, credit))
  }

  /** An impact score of zero is falsy in the source and read as 100. */
  predicate LowImpact(i: Insight) {
    i.impactScore.Some? && i.impactScore.value != 0 && i.impactScore.value < 40
  }

  predicate LowValue(i: Insight) {
    i.tier.Monitor? || (i.decay.Fading? && LowImpact(i)) || (i.recoveryPath.UnstablePath? && LowImpact(i))
  }

  predicate HasCategory(insights: seq<Insight>, cat: string) {
    exists i :: i in insights && IsActive(i) && Category(i.key) == cat
  }

  /** What the deferral of one category means, independently of how the list is built. */
  predicate ShouldDefer(insights: seq<Insight>, cat: string) {
    && cat !in NEVER_DEFER
    && exists i :: i in insights && IsActive(i) && Category(i.key) == cat && (cat in DEFERRABLE || LowValue(i))
  }

  /** The place of the first low-value insight of a category. */
  function FirstLowValue(insights: seq<Insight>, cat: string): (k: nat)
    ensures k <= |insights|
    ensures forall j :: 0 <= j < k ==> !(Category(insights[j].key) == cat && LowValue(insights[j]))
    ensures k < |insights| ==> Category(insights[k].key) == cat && LowValue(insights[k])
  {
    if insights == [] then 0
    else if Category(insights[0].key) == cat && LowValue(insights[0]) then 0
    else 1 + FirstLowValue(insights[1..], cat)
  }

  /** The deferrable categories in their order, then the others as their first low-value insight comes. */
  function DeferRank(active: seq<Insight>, cat: string): nat {
    if cat == DEFERRABLE[0] then 0 else if cat == DEFERRABLE[1] then 1 else 2 + FirstLowValue(active, cat)
  }

  ghost predicate InDeferOrder(active: seq<Insight>, defer: seq<string>) {
    forall i, j :: 0 <= i < j < |defer| ==> DeferRank(active, defer[i]) < DeferRank(active, defer[j])
  }

  /** The score after the per-insight penalties. */
  method Penalized(active: seq<Insight>) returns (score: int)
    requires forall i :: i in active ==> IsActive(i)
    ensures score == 100 - Total(active, Penalty)
  {
    score := 100;
    for k := 0 to |active|
      invariant score == 100 - Total(active[..k], Penalty)
    {
      var i := active[k];
      TotalOfNext(active, k, Penalty);
      if i.difficulty.Hard? { score := score - 12; }
      if i.lifecycle.Recurring? { score := score - 8; }
      if i.recoveryPath.StructuralPath? { score := score - 15; }
      if i.decay.Fading? { score := score - 4; }
      if i.sequenceStage.Some? && i.sequenceStage.value >= 2 { score := score - 6; }
    }
    assert active[..|active|] == active;
  }

  lemma DeferralReadsActive(insights: seq<Insight>, cat: string)
    ensures ShouldDefer(Filter(insights, IsActive), cat) <==> ShouldDefer(insights, cat)
  {
  }

  /** The first pass: deferrable categories that occur. */
  method DeferByCategory(active: seq<Insight>) returns (defer: seq<string>)
    ensures InDeferOrder(active, defer)
    ensures forall j :: 0 <= j < |defer| ==> DeferRank(active, defer[j]) < 2
    ensures forall cat :: cat in defer <==> cat in DEFERRABLE && cat !in NEVER_DEFER && HasCategory(active, cat)
  {
    defer := [];
    for k := 0 to |DEFERRABLE|
      invariant InDeferOrder(active, defer)
      invariant forall j :: 0 <= j < |defer| ==> DeferRank(active, defer[j]) < k
      invariant forall cat ::
        cat in defer <==> cat in DEFERRABLE[..k] && cat !in NEVER_DEFER && HasCategory(active, cat)
    {
      var cat := DEFERRABLE[k];
      assert |DEFERRABLE[0]| != |DEFERRABLE[1]|;
      if cat !in NEVER_DEFER && HasCategory(active, cat) {
        defer := defer + [cat];
      }
    }
  }

  lemma RankOfFirst(active: seq<Insight>, k: nat)
    requires k < |active| && LowValue(active[k]) && Category(active[k].key) !in DEFERRABLE
    requires forall j :: 0 <= j < k ==> !(Category(active[j].key) == Category(active[k].key) && LowValue(active[j]))
    ensures DeferRank(active, Category(active[k].key)) == 2 + k
  {
    assert FirstLowValue(active, Category(active[k].key)) == k;
  }

  lemma NextInOrder(active: seq<Insight>, defer: seq<string>, cat: string, bound: nat)
    requires InDeferOrder(active, defer)
    requires forall j :: 0 <= j < |defer| ==> DeferRank(active, defer[j]) < bound
    requires DeferRank(active, cat) == bound
    ensures InDeferOrder(active, defer + [cat])
    ensures forall j :: 0 <= j < |defer + [cat]| ==> DeferRank(active, (defer + [cat])[j]) <= bound
  {
  }

  /** Both passes: the second adds the categories of low-value insights. */
  method Deferred(active: seq<Insight>) returns (defer: seq<string>)
    requires forall i :: i in active ==> IsActive(i)
    ensures InDeferOrder(active, defer)
    ensures forall cat :: cat in defer <==> ShouldDefer(active, cat)
  {
    defer := DeferByCategory(active);
    for k := 0 to |active|
      invariant InDeferOrder(active, defer)
      invariant forall j :: 0 <= j < |defer| ==> DeferRank(active, defer[j]) < 2 + k
      invariant forall cat :: cat in defer ==> ShouldDefer(active, cat)
      invariant forall cat :: cat in DEFERRABLE && ShouldDefer(active, cat) ==> cat in defer
      invariant forall j :: 0 <= j < k && Category(active[j].key) !in NEVER_DEFER && LowValue(active[j])
                  ==> Category(active[j].key) in defer
    {
      var cat := Category(active[k].key);
      if cat !in NEVER_DEFER && cat !in defer && LowValue(active[k]) {
        assert cat !in DEFERRABLE;
        RankOfFirst(active, k);
        NextInOrder(active, defer, cat, 2 + k);
        defer := defer + [cat];
      }
    }
  }

  method Compute(insights: seq<Insight>, patterns: seq<Complexity>, fatigue: real, credit: real)
    returns (r: Capacity)
    ensures r.score == BandwidthScore(insights, patterns, fatigue, credit)
    ensures r.state == StateFor(insights, patterns, fatigue, credit)
    ensures InDeferOrder(Filter(insights, IsActive), r.defer)
    ensures forall cat :: cat in r.defer <==>
      (r.state == Saturated || r.state == Overloaded) && ShouldDefer(insights, cat)
  {
    var active := Filter(insights, IsActive);
    var score := Penalized(active);
    TotalOfFilter(insights, IsActive, Penalty);
    TotalOfFilter(insights, IsActive, HeavyTradeoff);
    score := score - Total(patterns, SystemicPattern) * 14;
    if Total(active, HeavyTradeoff) >= 2 { score := score - 8; }
    if credit > 0.7 { score := score + 8; }
    if HasPositiveOutcome(insights) { score := score + 6; }
    score := Clamp(score - Truncated(fatigue * 15.0), 0, 100);

    var defer := [];
    if StateOf(score) == Saturated || StateOf(score) == Overloaded {
      defer := Deferred(active);
      forall cat { DeferralReadsActive(insights, cat); }
    }
    r := Capacity(StateOf(score), score, defer);
  }

  /**
   The score only falls as insights are added, as long as the addition does not bring the first
   improved or stabilized outcome.
   */
  lemma CapacityLoadGrows(few: seq<Insight>, many: seq<Insight>, patterns: seq<Complexity>, fatigue: real, credit: real)
    requires multiset(few) <= multiset(many)
    requires HasPositiveOutcome(many) ==> HasPositiveOutcome(few)
    ensures CapacityLoad(Some(StateFor(few, patterns, fatigue, credit)))
         <= CapacityLoad(Some(StateFor(many, patterns, fatigue, credit)))
  {
    TotalMonotone(few, many, Penalty);
    TotalMonotone(few, many, HeavyTradeoff);
    if HasPositiveOutcome(few) {
      var i :| i in few && (i.outcome.Improved? || i.outcome.Stabilized?);
      assert i in multiset(few);
      assert i in multiset(many);
    }
  }

  /** What the added insights cost, apart from the credit for a positive outcome. */
  function AddedCost(few: seq<Insight>, many: seq<Insight>): int {
    Total(many, Penalty) - Total(few, Penalty)
    + (if Total(many, HeavyTradeoff) >= 2 > Total(few, HeavyTradeoff) then 8 else 0)
  }

  /** The score is short of a threshold by no more than the gain. */
  predicate Crosses(score: int, gain: int) {
    (score < 35 <= score + gain) || (score < 55 <= score + gain) || (score < 75 <= score + gain)
  }

  /**
   Added insights relieve capacity exactly when they bring the first positive outcome and cost so
   little that its six points carry the old score over a threshold.
   */
  lemma {:induction false} CapacityIsRelievedExactly(few: seq<Insight>, many: seq<Insight>, patterns: seq<Complexity>,
                                                     fatigue: real, credit: real)
    requires multiset(few) <= multiset(many)
    ensures CapacityLoad(Some(StateFor(many, patterns, fatigue, credit)))
          < CapacityLoad(Some(StateFor(few, patterns, fatigue, credit)))
      <==> && HasPositiveOutcome(many) && !HasPositiveOutcome(few)
           && Crosses(RawScore(few, patterns, fatigue, credit), 6 - AddedCost(few, many))
  {
    TotalMonotone(few, many, Penalty);
    TotalMonotone(few, many, HeavyTradeoff);
    if HasPositiveOutcome(few) {
      var i :| i in few && (i.outcome.Improved? || i.outcome.Stabilized?);
      assert i in multiset(few);
      assert i in multiset(many);
    }
  }
}
