/** Operator capacity decided by the columns of the insights and the places they stand at. */
module CapacityProfile {
  import opened Common
  import opened Insights
  import opened OperatorCapacity
  import opened Strings

  predicate IsLive(i: Insight) {
    i.status !in {Resolved, Dismissed}
  }

  predicate IsHard(i: Insight) {
    IsLive(i) && i.difficulty == Hard
  }

  predicate Recurs(i: Insight) {
    IsLive(i) && i.lifecycle == Recurring
  }

  predicate IsStructural(i: Insight) {
    IsLive(i) && i.recoveryPath == StructuralPath
  }

  predicate Fades(i: Insight) {
    IsLive(i) && i.decay == Fading
  }

  predicate ComesLater(i: Insight) {
    IsLive(i) && i.sequenceStage.Some? && i.sequenceStage.value > 1
  }

  predicate IsTraded(i: Insight) {
    IsLive(i) && i.tradeoff in {Moderate, Significant}
  }

  predicate WentWell(i: Insight) {
    i.outcome in {Improved, Stabilized}
  }

  predicate IsSystemic(c: Complexity) {
    c == Systemic
  }

  // ---- the score ------------------------------------------------------------------------

  lemma PenaltyExactly(i: Insight)
    ensures Penalty(i) == (if IsHard(i) then 12 else 0) + (if Recurs(i) then 8 else 0)
      + (if IsStructural(i) then 15 else 0) + (if Fades(i) then 4 else 0) + (if ComesLater(i) then 6 else 0)
  {
  }

  function Cost(xs: seq<Insight>): int {
    12 * |Places(xs, IsHard)| + 8 * |Places(xs, Recurs)| + 15 * |Places(xs, IsStructural)|
    + 4 * |Places(xs, Fades)| + 6 * |Places(xs, ComesLater)|
  }

  /** Each penalty is taken once for every place it stands at. */
  lemma {:induction false} PenaltiesAreCost(xs: seq<Insight>)
    ensures Total(xs, Penalty) == Cost(xs)
  {
    if xs != [] {
      var last := |xs| - 1;
      PenaltiesAreCost(xs[..last]);
      TotalOfNext(xs, last, Penalty);
      assert xs[..last + 1] == xs;
      PenaltyExactly(xs[last]);
      PlacesOfNext(xs, IsHard);
      PlacesOfNext(xs, Recurs);
      PlacesOfNext(xs, IsStructural);
      PlacesOfNext(xs, Fades);
      PlacesOfNext(xs, ComesLater);
    }
  }

  /** The whole part of a number, towards zero. */
  predicate IsWholePart(n: int, x: real) {
    if x >= 0.0 then n as real <= x < n as real + 1.0 else n as real - 1.0 < x <= n as real
  }

  lemma TruncatedExactly(x: real, n: int)
    ensures n == Truncated(x) <==> IsWholePart(n, x)
  {
  }

  /** The score before it is clamped. */
  predicate IsScore(insights: seq<Insight>, patterns: seq<Complexity>, fatigue: real, credit: real, score: int) {
    IsWholePart(
      100 - Cost(insights) - 14 * |Places(patterns, IsSystemic)|
      - (if |Places(insights, IsTraded)| >= 2 then 8 else 0)
      + (if credit > 0.7 then 8 else 0) + (if Places(insights, WentWell) != {} then 6 else 0) - score,
      fatigue * 15.0)
  }

  lemma {:induction false} ScoreExactly(insights: seq<Insight>, patterns: seq<Complexity>, fatigue: real, credit: real,
                                        score: int)
    ensures score == RawScore(insights, patterns, fatigue, credit) <==>
      IsScore(insights, patterns, fatigue, credit, score)
  {
    PenaltiesAreCost(insights);
    TotalIsPlaces(patterns, SystemicPattern, IsSystemic);
    TotalIsPlaces(insights, HeavyTradeoff, IsTraded);
    assert HasPositiveOutcome(insights) <==> Places(insights, WentWell) != {} by {
      if i :| i in insights && (i.outcome.Improved? || i.outcome.Stabilized?) {
        var k :| 0 <= k < |insights| && insights[k] == i;
        assert k in Places(insights, WentWell);
      }
      if k :| k in Places(insights, WentWell) {
        assert insights[k] in insights;
      }
    }
    TruncatedExactly(fatigue * 15.0, RawScore(insights, patterns, fatigue, credit) + Truncated(fatigue * 15.0) - score);
  }

  /** The state by the score, whatever the clamping. */
  lemma {:induction false} StateExactly(insights: seq<Insight>, patterns: seq<Complexity>, fatigue: real, credit: real,
                                        score: int)
    requires IsScore(insights, patterns, fatigue, credit, score)
    ensures StateFor(insights, patterns, fatigue, credit) ==
      if score < 35 then Overloaded else if score < 55 then Saturated else if score < 75 then Loaded else Stable
    ensures BandwidthScore(insights, patterns, fatigue, credit) ==
      if score < 0 then 0 else if score > 100 then 100 else score
  {
    ScoreExactly(insights, patterns, fatigue, credit, score);
  }

  // ---- what is deferred -----------------------------------------------------------------

  predicate IsMinor(i: Insight) {
    || i.tier == Monitor
    || (&& (i.decay == Fading || i.recoveryPath == UnstablePath)
        && i.impactScore.Some? && i.impactScore.value < 40 && i.impactScore.value != 0)
  }

  /** The insight is live, has this name and may wait. */
  predicate MayWaitAs(i: Insight, name: string) {
    && IsLive(i) && IsKeyOf(i.key, name)
    && (name == "seo_opportunity" || name == "sales_growth" || IsMinor(i))
  }

  /** Some insight of this name may wait, and the name is none of those that never wait. */
  predicate MayWait(insights: seq<Insight>, name: string) {
    && name != "low_stock" && name != "margin_crisis"
    && exists k :: 0 <= k < |insights| && MayWaitAs(insights[k], name)
  }

  lemma {:induction false} WaitsExactly(i: Insight, name: string)
    requires ':' !in name
    ensures IsActive(i) && Category(i.key) == name && (name in DEFERRABLE || LowValue(i)) <==> MayWaitAs(i, name)
  {
    BeforeExactly(i.key, name);
  }

  lemma {:induction false} DeferredWaits(insights: seq<Insight>, name: string)
    requires ':' !in name && ShouldDefer(insights, name)
    ensures exists k :: 0 <= k < |insights| && MayWaitAs(insights[k], name)
  {
    var i :| i in insights && IsActive(i) && Category(i.key) == name && (name in DEFERRABLE || LowValue(i));
    var k :| 0 <= k < |insights| && insights[k] == i;
    WaitsExactly(i, name);
  }

  lemma {:induction false} WaitingIsDeferred(insights: seq<Insight>, name: string, i: Insight)
    requires ':' !in name && name !in NEVER_DEFER && i in insights && MayWaitAs(i, name)
    ensures ShouldDefer(insights, name)
  {
    WaitsExactly(i, name);
  }

  lemma {:induction false} DeferralExactly(insights: seq<Insight>, name: string)
    requires ':' !in name
    ensures ShouldDefer(insights, name) <==> MayWait(insights, name)
  {
    if ShouldDefer(insights, name) {
      DeferredWaits(insights, name);
    }
    if MayWait(insights, name) {
      var k :| 0 <= k < |insights| && MayWaitAs(insights[k], name);
      WaitingIsDeferred(insights, name, insights[k]);
    }
  }

  /** Search and growth come first, in this order; every other name in turn of its first minor insight. */
  lemma {:induction false} TurnExactly(active: seq<Insight>, name: string, k: nat)
    requires ':' !in name
    ensures name == "seo_opportunity" ==> DeferRank(active, name) == 0
    ensures name == "sales_growth" ==> DeferRank(active, name) == 1
    ensures
      && name != "seo_opportunity" && name != "sales_growth" && k < |active|
      && IsKeyOf(active[k].key, name) && IsMinor(active[k])
      && (forall j :: 0 <= j < k ==> !(IsKeyOf(active[j].key, name) && IsMinor(active[j])))
      ==> DeferRank(active, name) == 2 + k
  {
    assert |DEFERRABLE[0]| != |DEFERRABLE[1]|;
    forall j | 0 <= j < |active| ensures Category(active[j].key) == name <==> IsKeyOf(active[j].key, name) {
      BeforeExactly(active[j].key, name);
    }
  }

  /** A name with a colon is nobody's. */
  lemma NoNameHasAColon(insights: seq<Insight>, name: string)
    requires ShouldDefer(insights, name)
    ensures ':' !in name
  {
  }
}
