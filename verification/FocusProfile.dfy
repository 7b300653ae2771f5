/**
 The operational focus decided by the columns of the insights: their names, statuses, weights,
 confidences, decays and lifecycles, without the categories and signals selection works on.
 */
module FocusProfile {
  import opened Common
  import opened FocusEngine
  import opened Strings

  // ---- names ----------------------------------------------------------------------------

  /** The name, with or without the demo prefix. */
  predicate IsNamed(i: Insight, name: string) {
    IsKeyOf(i.key, name) || IsKeyOf(i.key, "demo_" + name)
  }

  function NameOf(c: Category): string {
    match c
    case LowStock => "low_stock"
    case HighAdSpend => "high_ad_spend"
    case MarginCrisis => "margin_crisis"
    case SeoOpportunity => "seo_opportunity"
    case SalesGrowth => "sales_growth"
    case OtherCategory => "?"
  }

  lemma NamesDiffer(c: Category, d: Category)
    requires c != OtherCategory
    ensures ':' !in NameOf(c) && !("demo_" <= NameOf(c)) && (NameOf(c) == NameOf(d) ==> c == d)
  {
    var a, b := NameOf(c), NameOf(d);
    assert a[0] != 'd' && 'd' == "demo_"[0];
    assert c == d || |a| != |b| || a[0] != b[0];
  }

  lemma {:induction false} CategoryNameExactly(key: string, name: string)
    requires ':' !in name && !("demo_" <= name)
    ensures CategoryName(key) == name <==> IsKeyOf(key, name) || IsKeyOf(key, "demo_" + name)
  {
    BeforeExactly(key, name);
    BeforeExactly(key, "demo_" + name);
    var base := Before(key, ':');
    if "demo_" <= base {
      assert base == "demo_" + base[5..];
    }
  }

  lemma {:induction false} CategoryByName(i: Insight, c: Category)
    requires c != OtherCategory
    ensures CategoryOf(i) == c <==> CategoryName(i.key) == NameOf(c)
  {
    if CategoryOf(i) != OtherCategory {
      assert CategoryName(i.key) == NameOf(CategoryOf(i));
      NamesDiffer(c, CategoryOf(i));
    }
  }

  lemma {:induction false} CategoryIsItsName(i: Insight, c: Category)
    requires c != OtherCategory
    ensures CategoryOf(i) == c <==> IsNamed(i, NameOf(c))
  {
    NamesDiffer(c, c);
    CategoryNameExactly(i.key, NameOf(c));
    CategoryByName(i, c);
  }

  /** Irreversible damage first, growth last, everything unnamed after that. */
  function Urgency(i: Insight): nat {
    if IsNamed(i, "low_stock") then 1
    else if IsNamed(i, "high_ad_spend") || IsNamed(i, "margin_crisis") then 2
    else if IsNamed(i, "seo_opportunity") then 3
    else if IsNamed(i, "sales_growth") then 4
    else 9
  }

  lemma {:induction false} UrgencyIsTier(i: Insight)
    ensures Urgency(i) == Tier(CategoryOf(i))
  {
    CategoryIsItsName(i, LowStock);
    CategoryIsItsName(i, HighAdSpend);
    CategoryIsItsName(i, MarginCrisis);
    CategoryIsItsName(i, SeoOpportunity);
    CategoryIsItsName(i, SalesGrowth);
  }

  // ---- which insights count, and how much -----------------------------------------------

  predicate Persists(i: Insight) {
    i.decay == Some(Persistent) || i.lifecycle == Some(Recurring)
  }

  predicate IsCurrent(i: Insight) {
    !Persists(i) && i.decay in {None, Some(Fresh), Some(Aging)}
  }

  predicate IsFading(i: Insight) {
    !Persists(i) && i.decay == Some(Fading)
  }

  /** Open, primary, confident, heavy enough or without a weight, and not past. */
  predicate Matters(i: Insight, stabilityCredit: real) {
    && i.status !in {Resolved, Dismissed} && !i.secondary
    && i.confidence != None && i.confidence.value >= 50
    && (i.weight == None || i.weight.value == 0.0 || i.weight.value >= if stabilityCredit < 0.7 then 50.0 else 65.0)
    && (Persists(i) || IsCurrent(i) || IsFading(i))
  }

  /** The weight after its decay and lifecycle; none counts as zero. */
  function Pull(i: Insight): real {
    (if i.weight == None then 0.0 else i.weight.value)
    * (if i.decay == Some(Stale) then 0.0 else if i.decay == Some(Fading) then 0.72 else 1.0)
    * (if i.lifecycle == Some(Recurring) then 1.15 else if i.lifecycle == Some(Stabilized) then 0.9
       else if i.lifecycle == Some(Emerging) then 0.85 else if i.lifecycle == Some(ResolvedStage) then 0.5 else 1.0)
  }

  lemma PullIsWeight(i: Insight)
    ensures Pull(i) == EffectiveWeight(i)
  {
  }

  lemma MattersExactly(i: Insight, stabilityCredit: real)
    ensures Matters(i, stabilityCredit) <==> IsEligible(i, MinWeight(stabilityCredit))
  {
  }

  lemma MomentumExactly(i: Insight)
    ensures MomentumOf(i) == PersistentFocus <==> Persists(i)
    ensures MomentumOf(i) == ActiveFocus <==> IsCurrent(i)
    ensures MomentumOf(i) == Slowing <==> IsFading(i)
  {
  }

  function Mattering(stabilityCredit: real): Insight -> bool {
    i => Matters(i, stabilityCredit)
  }

  lemma {:induction false} FilterAgrees<T(!new)>(xs: seq<T>, keep: T -> bool, also: T -> bool)
    requires forall x :: x in xs ==> keep(x) == also(x)
    ensures Filter(xs, keep) == Filter(xs, also)
  {
    if xs != [] {
      FilterAgrees(xs[1..], keep, also);
    }
  }

  /** The signals are those of the insights that matter, in order. */
  lemma {:induction false} SignalsOfMattering(insights: seq<Insight>, stabilityCredit: real)
    ensures ActiveSignals(insights, stabilityCredit) == Signals(Filter(insights, Mattering(stabilityCredit)))
  {
    forall i: Insight ensures Eligible(stabilityCredit)(i) == Mattering(stabilityCredit)(i) {
      MattersExactly(i, stabilityCredit);
    }
    FilterAgrees(insights, Eligible(stabilityCredit), Mattering(stabilityCredit));
  }

  // ---- chains ---------------------------------------------------------------------------

  /** The two names of a chain. */
  function NamesOf(chain: Chain): (string, string) {
    match chain
    case AdsAndMargin => ("high_ad_spend", "margin_crisis")
    case SearchAndAds => ("seo_opportunity", "high_ad_spend")
    case StockAndGrowth => ("low_stock", "sales_growth")
    case StockAndAds => ("low_stock", "high_ad_spend")
    case MarginAndSearch => ("margin_crisis", "seo_opportunity")
  }

  predicate IsMember(i: Insight, chain: Chain) {
    IsNamed(i, NamesOf(chain).0) || IsNamed(i, NamesOf(chain).1)
  }

  function MemberOf(chain: Chain): Insight -> bool {
    i => IsMember(i, chain)
  }

  function Members(xs: seq<Insight>, chain: Chain): seq<Insight> {
    Filter(xs, MemberOf(chain))
  }

  lemma {:induction false} MemberExactly(i: Insight, chain: Chain)
    ensures IsMember(i, chain) <==> Contains(chain, CategoryOf(i))
  {
    CategoryIsItsName(i, LowStock);
    CategoryIsItsName(i, HighAdSpend);
    CategoryIsItsName(i, MarginCrisis);
    CategoryIsItsName(i, SeoOpportunity);
    CategoryIsItsName(i, SalesGrowth);
  }

  lemma {:induction false} LinkedAreMembers(xs: seq<Insight>, chain: Chain)
    ensures Linked(Signals(xs), chain) == Signals(Members(xs, chain))
  {
    if xs == [] {
      assert Signals(xs) == [];
    } else {
      LinkedAreMembers(xs[1..], chain);
      MemberExactly(xs[0], chain);
      assert Signals(xs)[1..] == Signals(xs[1..]);
      var ms := Members(xs[1..], chain);
      assert Signals([xs[0]] + ms) == [Signals(xs)[0]] + Signals(ms);
    }
  }

  predicate IsSomewhere(xs: seq<Insight>, name: string) {
    exists k :: 0 <= k < |xs| && IsNamed(xs[k], name)
  }

  lemma {:induction false} PresentExactly(xs: seq<Insight>, c: Category)
    requires c != OtherCategory
    ensures IsPresent(Signals(xs), c) <==> IsSomewhere(xs, NameOf(c))
  {
    forall k | 0 <= k < |xs| ensures Signals(xs)[k].category == c <==> IsNamed(xs[k], NameOf(c)) {
      CategoryIsItsName(xs[k], c);
    }
    if IsPresent(Signals(xs), c) {
      var k :| 0 <= k < |xs| && Signals(xs)[k].category == c;
      assert IsNamed(xs[k], NameOf(c));
    }
    if k :| 0 <= k < |xs| && IsNamed(xs[k], NameOf(c)) {
      assert Signals(xs)[k].category == c;
    }
  }

  /** The categories behind the two names. */
  function PairOf(chain: Chain): (Category, Category) {
    match chain
    case AdsAndMargin => (HighAdSpend, MarginCrisis)
    case SearchAndAds => (SeoOpportunity, HighAdSpend)
    case StockAndGrowth => (LowStock, SalesGrowth)
    case StockAndAds => (LowStock, HighAdSpend)
    case MarginAndSearch => (MarginCrisis, SeoOpportunity)
  }

  lemma PairIsNamed(chain: Chain)
    ensures NamesOf(chain) == (NameOf(PairOf(chain).0), NameOf(PairOf(chain).1))
    ensures PairOf(chain).0 != OtherCategory && PairOf(chain).1 != OtherCategory
  {
  }

  lemma PairCovers(active: seq<Signal>, chain: Chain)
    ensures IsCovered(active, chain) <==> IsPresent(active, PairOf(chain).0) && IsPresent(active, PairOf(chain).1)
  {
  }

  /** Both names are there. */
  lemma {:induction false} CoveredExactly(xs: seq<Insight>, chain: Chain)
    ensures IsCovered(Signals(xs), chain) <==> IsSomewhere(xs, NamesOf(chain).0) && IsSomewhere(xs, NamesOf(chain).1)
  {
    PairCovers(Signals(xs), chain);
    PairIsNamed(chain);
    PresentExactly(xs, PairOf(chain).0);
    PresentExactly(xs, PairOf(chain).1);
  }

  /** The strongest pull in a list, and zero in an empty one. */
  function Top(xs: seq<Insight>): (w: real)
    ensures forall k :: 0 <= k < |xs| ==> Pull(xs[k]) <= w
    ensures if xs == [] then w == 0.0 else exists k :: 0 <= k < |xs| && Pull(xs[k]) == w
  {
    if xs == [] then 0.0
    else if |xs| == 1 || Pull(xs[0]) > Top(xs[1..]) then Pull(xs[0]) else Top(xs[1..])
  }

  lemma {:induction false} TopIsStrongest(xs: seq<Insight>)
    ensures Top(xs) == Strongest(Signals(xs))
  {
    var signals := Signals(xs);
    forall k | 0 <= k < |xs| ensures signals[k].weight == Pull(xs[k]) { PullIsWeight(xs[k]); }
    if xs != [] {
      var j :| 0 <= j < |signals| && signals[j].weight == Strongest(signals);
      assert Pull(xs[j]) == Strongest(signals);
      var k :| 0 <= k < |xs| && Pull(xs[k]) == Top(xs);
      assert signals[k].weight == Top(xs);
    }
  }

  // ---- the focus ------------------------------------------------------------------------

  lemma {:induction false} TopOfFilter(xs: seq<Insight>, keep: Insight -> bool, bound: real)
    requires bound > 0.0
    ensures Top(Filter(xs, keep)) >= bound <==> exists k :: 0 <= k < |xs| && keep(xs[k]) && Pull(xs[k]) >= bound
  {
    var kept := Filter(xs, keep);
    if Top(kept) >= bound {
      var j :| 0 <= j < |kept| && Pull(kept[j]) == Top(kept);
      assert kept[j] in kept;
      var k :| 0 <= k < |xs| && xs[k] == kept[j];
    }
    if k :| 0 <= k < |xs| && keep(xs[k]) && Pull(xs[k]) >= bound {
      assert xs[k] in kept;
      var j :| 0 <= j < |kept| && kept[j] == xs[k];
    }
  }

  /** The names are both there, and one of their insights pulls with 40 or more. */
  predicate Stands(xs: seq<Insight>, chain: Chain) {
    && IsSomewhere(xs, NamesOf(chain).0) && IsSomewhere(xs, NamesOf(chain).1)
    && exists k :: 0 <= k < |xs| && MemberOf(chain)(xs[k]) && Pull(xs[k]) >= 40.0
  }

  lemma {:induction false} EvidenceIsTop(xs: seq<Insight>, chain: Chain)
    ensures Evidence(Signals(xs), chain) == Top(Members(xs, chain))
  {
    LinkedAreMembers(xs, chain);
    TopIsStrongest(Members(xs, chain));
  }

  lemma {:induction false} StandsExactly(xs: seq<Insight>, chain: Chain)
    ensures IsCandidate(Signals(xs), chain) <==> Stands(xs, chain)
  {
    CoveredExactly(xs, chain);
    EvidenceIsTop(xs, chain);
    TopOfFilter(xs, MemberOf(chain), 40.0);
  }

  /** Chains that start at a stock shortage come before the others; the chains stand in this order. */
  function Rank(chain: Chain): nat {
    match chain
    case StockAndGrowth | StockAndAds => 1
    case AdsAndMargin | SearchAndAds | MarginAndSearch => 2
  }

  function Turn(chain: Chain): nat {
    match chain
    case AdsAndMargin => 0
    case SearchAndAds => 1
    case StockAndGrowth => 2
    case StockAndAds => 3
    case MarginAndSearch => 4
  }

  /** Lower rank, then stronger pull, then earlier turn. */
  predicate IsBefore(a: Chain, v: real, b: Chain, w: real) {
    Rank(a) < Rank(b) || (Rank(a) == Rank(b) && (v > w || (v == w && Turn(a) < Turn(b))))
  }

  predicate IsChosen(xs: seq<Insight>, chain: Chain) {
    && Stands(xs, chain)
    && forall other: Chain :: other != chain && Stands(xs, other) ==>
         IsBefore(chain, Top(Members(xs, chain)), other, Top(Members(xs, other)))
  }

  lemma {:induction false} TurnIsPlace(k: nat)
    requires k < |CHAINS|
    ensures Turn(CHAINS[k]) == k && Rank(CHAINS[k]) == ChainTier(CHAINS[k])
  {
  }

  lemma {:induction false} BeatenExactly(xs: seq<Insight>, a: Chain, b: Chain)
    ensures Beats(Signals(xs), a, b) <==>
      Rank(a) < Rank(b) || (Rank(a) == Rank(b) && Top(Members(xs, a)) > Top(Members(xs, b)))
  {
    EvidenceIsTop(xs, a);
    EvidenceIsTop(xs, b);
  }

  lemma {:induction false} BestIsBefore(xs: seq<Insight>, k: nat, other: Chain)
    requires k < |CHAINS| && IsBestChain(Signals(xs), k, |CHAINS|)
    requires other != CHAINS[k] && IsCandidate(Signals(xs), other)
    ensures IsBefore(CHAINS[k], Top(Members(xs, CHAINS[k])), other, Top(Members(xs, other)))
  {
    assert CHAINS[Turn(other)] == other;
    TurnIsPlace(Turn(other));
    TurnIsPlace(k);
    BeatenExactly(xs, CHAINS[k], other);
    BeatenExactly(xs, other, CHAINS[k]);
  }

  lemma {:induction false} StandingIsBehind(xs: seq<Insight>, k: nat, other: Chain)
    requires k < |CHAINS| && IsBestChain(Signals(xs), k, |CHAINS|)
    requires other != CHAINS[k] && Stands(xs, other)
    ensures IsBefore(CHAINS[k], Top(Members(xs, CHAINS[k])), other, Top(Members(xs, other)))
  {
    StandsExactly(xs, other);
    BestIsBefore(xs, k, other);
  }

  lemma {:induction false} BestIsChosen(xs: seq<Insight>, k: nat)
    requires k < |CHAINS| && IsBestChain(Signals(xs), k, |CHAINS|)
    ensures IsChosen(xs, CHAINS[k])
  {
    StandsExactly(xs, CHAINS[k]);
    forall other: Chain | other != CHAINS[k] && Stands(xs, other)
      ensures IsBefore(CHAINS[k], Top(Members(xs, CHAINS[k])), other, Top(Members(xs, other)))
    {
      StandingIsBehind(xs, k, other);
    }
  }

  lemma {:induction false} OnlyOneIsChosen(xs: seq<Insight>, a: Chain, b: Chain)
    requires IsChosen(xs, a) && IsChosen(xs, b)
    ensures a == b
  {
    var v, w := Top(Members(xs, a)), Top(Members(xs, b));
    assert a != b ==> IsBefore(a, v, b, w) && IsBefore(b, w, a, v);
  }

  function Confidences(xs: seq<Insight>): int {
    if xs == [] then 0
    else (if xs[0].confidence == None then 0 else xs[0].confidence.value) + Confidences(xs[1..])
  }

  predicate IsAnywhere(xs: seq<Insight>, what: Insight -> bool) {
    exists k :: 0 <= k < |xs| && what(xs[k])
  }

  /** The strongest momentum of a list: persistent, then active, then slowing. */
  function MomentumSaid(xs: seq<Insight>): Momentum {
    if IsAnywhere(xs, Persists) then PersistentFocus
    else if IsAnywhere(xs, IsCurrent) then ActiveFocus
    else if IsAnywhere(xs, IsFading) then Slowing
    else if xs != [] then Historical
    else ActiveFocus
  }

  lemma {:induction false} ConfidencesAreTotal(xs: seq<Insight>)
    ensures TotalConfidence(Signals(xs)) == Confidences(xs)
  {
    if xs != [] {
      ConfidencesAreTotal(xs[1..]);
      assert Signals(xs)[1..] == Signals(xs[1..]);
    }
  }

  lemma {:induction false} MomentumIsSaid(xs: seq<Insight>)
    ensures DominantMomentum(Signals(xs)) == MomentumSaid(xs)
  {
    var signals := Signals(xs);
    forall k | 0 <= k < |xs|
      ensures MomentumOf(signals[k].insight) == PersistentFocus <==> Persists(xs[k])
      ensures MomentumOf(signals[k].insight) == ActiveFocus <==> IsCurrent(xs[k])
      ensures MomentumOf(signals[k].insight) == Slowing <==> IsFading(xs[k])
    {
      MomentumExactly(xs[k]);
    }
    assert ShowsMomentum(signals, PersistentFocus) <==> IsAnywhere(xs, Persists);
    assert ShowsMomentum(signals, ActiveFocus) <==> IsAnywhere(xs, IsCurrent);
    assert ShowsMomentum(signals, Slowing) <==> IsAnywhere(xs, IsFading);
    if xs != [] { assert MomentumOf(signals[0].insight) == MomentumOf(xs[0]); }
  }

  /** The name a chain is blamed on; between advertising and margin the choice is left open. */
  predicate MayBeBlamed(chain: Chain, c: Category) {
    match chain
    case AdsAndMargin => NameOf(c) in {"high_ad_spend", "margin_crisis"}
    case SearchAndAds => NameOf(c) == "high_ad_spend"
    case StockAndGrowth | StockAndAds => NameOf(c) == "low_stock"
    case MarginAndSearch => NameOf(c) == "margin_crisis"
  }

  lemma BlameExactly(chain: Chain, c: Category)
    ensures IsRootCause(chain, c) <==> MayBeBlamed(chain, c)
  {
    if c != OtherCategory {
      NamesDiffer(c, LowStock);
      NamesDiffer(c, HighAdSpend);
      NamesDiffer(c, MarginCrisis);
    }
  }

  /** What an insight brings: its pull, its urgency and its confidence. */
  datatype Force = Force(pull: real, urgency: nat, confidence: int)

  function ForceOf(i: Insight): Force {
    Force(Pull(i), Urgency(i), if i.confidence == None then 0 else i.confidence.value)
  }

  /** More pull, then more urgency, then more confidence. */
  predicate IsMore(a: Force, b: Force) {
    || a.pull > b.pull
    || (a.pull == b.pull && a.urgency < b.urgency)
    || (a.pull == b.pull && a.urgency == b.urgency && a.confidence > b.confidence)
  }

  predicate Outpulls(a: Insight, b: Insight) {
    IsMore(ForceOf(a), ForceOf(b))
  }

  /** The first of the insights none outpulls. */
  predicate PullsFirst(xs: seq<Insight>, k: int) {
    && 0 <= k < |xs|
    && (forall j :: 0 <= j < k ==> Outpulls(xs[k], xs[j]))
    && forall j :: k < j < |xs| ==> !Outpulls(xs[j], xs[k])
  }

  lemma ExceedsIsMore(a: Signal, b: Signal, f: Force, g: Force)
    requires f == Force(a.weight, Tier(a.category), ConfidenceOf(a))
    requires g == Force(b.weight, Tier(b.category), ConfidenceOf(b))
    ensures Exceeds(a, b) <==> IsMore(f, g)
  {
  }

  lemma {:induction false} ForceOfSignal(i: Insight, s: Signal)
    requires s == Signal(i, CategoryOf(i), EffectiveWeight(i))
    ensures ForceOf(i) == Force(s.weight, Tier(s.category), ConfidenceOf(s))
  {
    PullIsWeight(i);
    UrgencyIsTier(i);
  }

  lemma {:induction false} OutpullsExactly(xs: seq<Insight>, j: nat, k: nat)
    requires j < |xs| && k < |xs|
    ensures Exceeds(Signals(xs)[j], Signals(xs)[k]) <==> Outpulls(xs[j], xs[k])
  {
    ForceOfSignal(xs[j], Signals(xs)[j]);
    ForceOfSignal(xs[k], Signals(xs)[k]);
    ExceedsIsMore(Signals(xs)[j], Signals(xs)[k], ForceOf(xs[j]), ForceOf(xs[k]));
  }

  lemma {:induction false} StrongestPullsFirst(xs: seq<Insight>, k: nat)
    requires k < |xs| && IsStrongestSignal(Signals(xs), k, |xs|)
    ensures PullsFirst(xs, k)
  {
    forall j: nat | j < |xs|
      ensures Exceeds(Signals(xs)[j], Signals(xs)[k]) <==> Outpulls(xs[j], xs[k])
      ensures Exceeds(Signals(xs)[k], Signals(xs)[j]) <==> Outpulls(xs[k], xs[j])
    {
      OutpullsExactly(xs, j, k);
      OutpullsExactly(xs, k, j);
    }
  }

  function KeyOf(i: Insight): string {
    i.key
  }

  /** The focus of a chain, on its members among the insights that matter. */
  predicate TellsChain(xs: seq<Insight>, chain: Chain, f: Focus) {
    var members := Members(xs, chain);
    && f.chain == Some(chain) && MayBeBlamed(chain, f.rootCause) && f.linked == Map(members, KeyOf)
    && members != [] && f.confidence == Confidences(members) / |members|
    && f.momentum == MomentumSaid(members) && f.effectiveWeight == Top(members).Floor
  }

  /** The focus of one insight. */
  predicate TellsOne(i: Insight, f: Focus) {
    && f.chain == None && IsNamed(i, NameOf(f.rootCause)) && f.linked == [i.key]
    && i.confidence.Some? && f.confidence == i.confidence.value
    && f.momentum == MomentumSaid([i]) && f.effectiveWeight == Pull(i).Floor
  }

  /** The focus when no chain stands: none when the first insight has no known name. */
  predicate TellsFirst(xs: seq<Insight>, k: int, focus: Option<Focus>)
    requires 0 <= k < |xs|
  {
    if Urgency(xs[k]) == 9 then focus == None else focus.Some? && TellsOne(xs[k], focus.value)
  }

  predicate SomeChainStands(xs: seq<Insight>) {
    exists chain: Chain :: Stands(xs, chain)
  }

  /** What the focus of the insights that matter has to be. */
  ghost predicate FocusSaid(xs: seq<Insight>, focus: Option<Focus>) {
    if SomeChainStands(xs) then
      focus.Some? && focus.value.chain.Some? && IsChosen(xs, focus.value.chain.value)
      && TellsChain(xs, focus.value.chain.value, focus.value)
    else if xs == [] then focus == None
    else exists k :: PullsFirst(xs, k) && TellsFirst(xs, k, focus)
  }

  lemma {:induction false} StandingHasMembers(xs: seq<Insight>, chain: Chain)
    requires Stands(xs, chain)
    ensures Members(xs, chain) != []
  {
    TopOfFilter(xs, MemberOf(chain), 40.0);
  }

  lemma {:induction false} ChainIsTold(xs: seq<Insight>, chain: Chain, f: Focus)
    requires ReportsChain(Signals(xs), chain, f) && Members(xs, chain) != []
    ensures TellsChain(xs, chain, f)
  {
    var members := Members(xs, chain);
    LinkedAreMembers(xs, chain);
    BlameExactly(chain, f.rootCause);
    ConfidencesAreTotal(members);
    MomentumIsSaid(members);
    TopIsStrongest(members);
    assert Keys(Signals(members)) == Map(members, KeyOf);
  }

  lemma {:induction false} OneIsTold(i: Insight, s: Signal, f: Focus, stabilityCredit: real)
    requires Matters(i, stabilityCredit) && s == Signal(i, CategoryOf(i), EffectiveWeight(i)) && ReportsSignal(s, f)
    ensures TellsOne(i, f)
  {
    CategoryIsItsName(i, f.rootCause);
    PullIsWeight(i);
    MomentumExactly(i);
    assert [i][0] == i;
    assert IsAnywhere([i], Persists) <==> Persists(i);
    assert IsAnywhere([i], IsCurrent) <==> IsCurrent(i);
    assert IsAnywhere([i], IsFading) <==> IsFading(i);
  }

  lemma {:induction false} CandidateStands(xs: seq<Insight>, j: nat)
    requires j < |CHAINS| && IsCandidate(Signals(xs), CHAINS[j])
    ensures SomeChainStands(xs)
  {
    StandsExactly(xs, CHAINS[j]);
  }

  lemma {:induction false} StandingIsCandidate(xs: seq<Insight>, j: nat)
    requires j < |CHAINS| && Stands(xs, CHAINS[j])
    ensures HasCandidate(Signals(xs))
  {
    StandsExactly(xs, CHAINS[j]);
    assert IsCandidate(Signals(xs), CHAINS[j]);
  }

  lemma {:induction false} SomeStandsExactly(xs: seq<Insight>)
    ensures HasCandidate(Signals(xs)) <==> SomeChainStands(xs)
  {
    if HasCandidate(Signals(xs)) {
      var j :| 0 <= j < |CHAINS| && IsCandidate(Signals(xs), CHAINS[j]);
      CandidateStands(xs, j);
    }
    if chain: Chain :| Stands(xs, chain) {
      assert CHAINS[Turn(chain)] == chain;
      StandingIsCandidate(xs, Turn(chain));
    }
  }

  lemma {:induction false} ChosenIsTold(xs: seq<Insight>, k: nat, f: Focus)
    requires k < |CHAINS| && IsBestChain(Signals(xs), k, |CHAINS|) && ReportsChain(Signals(xs), CHAINS[k], f)
    ensures f.chain.Some? && IsChosen(xs, f.chain.value) && TellsChain(xs, f.chain.value, f)
  {
    BestIsChosen(xs, k);
    StandingHasMembers(xs, CHAINS[k]);
    ChainIsTold(xs, CHAINS[k], f);
  }

  lemma {:induction false} FirstIsTold(xs: seq<Insight>, k: nat, focus: Option<Focus>, stabilityCredit: real)
    requires k < |xs| && Matters(xs[k], stabilityCredit)
    requires if Signals(xs)[k].category == OtherCategory then focus == None
             else focus.Some? && ReportsSignal(Signals(xs)[k], focus.value)
    ensures TellsFirst(xs, k, focus)
  {
    UrgencyIsTier(xs[k]);
    if Signals(xs)[k].category != OtherCategory {
      OneIsTold(xs[k], Signals(xs)[k], focus.value, stabilityCredit);
    }
  }

  /** Whatever focus is computed is the one the columns of the insights call for. */
  lemma {:induction false} FocusIsSaid(insights: seq<Insight>, stabilityCredit: real, focus: Option<Focus>)
    requires IsFocus(ActiveSignals(insights, stabilityCredit), focus)
    ensures FocusSaid(Filter(insights, Mattering(stabilityCredit)), focus)
  {
    var xs := Filter(insights, Mattering(stabilityCredit));
    SignalsOfMattering(insights, stabilityCredit);
    SomeStandsExactly(xs);
    if HasCandidate(Signals(xs)) {
      var k :| 0 <= k < |CHAINS| && IsBestChain(Signals(xs), k, |CHAINS|)
               && ReportsChain(Signals(xs), CHAINS[k], focus.value);
      ChosenIsTold(xs, k, focus.value);
    } else if xs != [] {
      var k :| 0 <= k < |xs| && IsStrongestSignal(Signals(xs), k, |xs|)
               && (if Signals(xs)[k].category == OtherCategory then focus == None
                   else focus.Some? && ReportsSignal(Signals(xs)[k], focus.value));
      assert xs[k] in xs;
      StrongestPullsFirst(xs, k);
      FirstIsTold(xs, k, focus, stabilityCredit);
    }
  }
}
