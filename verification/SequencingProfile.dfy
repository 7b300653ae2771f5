/**
 What the stabilization order looks like to its reader: decided by the key names, kinds and statuses
 of the insights themselves.
 */
module SequencingProfile {
  import opened Common
  import opened ExecutionSequencing
  import opened Strings

  // ---- names and open warnings ----------------------------------------------------------

  predicate IsOpenWarning(i: Insight) {
    i.kind in {Warning, Info} && i.status !in {Resolved, Dismissed}
  }

  predicate WarnsAt(insights: seq<Insight>, k: int, name: string) {
    0 <= k < |insights| && IsOpenWarning(insights[k]) && IsKeyOf(insights[k].key, name)
  }

  predicate Warns(insights: seq<Insight>, name: string) {
    exists k :: 0 <= k < |insights| && WarnsAt(insights, k, name)
  }

  function NameOf(c: Category): string {
    match c
    case HighAdSpend => "high_ad_spend"
    case LowStock => "low_stock"
    case MarginCrisis => "margin_crisis"
    case SeoOpportunity => "seo_opportunity"
    case HighRating => "high_rating"
  }

  lemma NamesAreDistinct(c: Category, d: Category)
    ensures ':' !in NameOf(c) && (NameOf(c) == NameOf(d) ==> c == d)
  {
    var a, b := NameOf(c), NameOf(d);
    assert a[0] != b[0] || a[1] != b[1] || |a| != |b| || c == d;
  }

  lemma {:induction false} CategoryIsItsName(key: string, c: Category)
    ensures CategoryOf(key) == Some(c) <==> IsKeyOf(key, NameOf(c))
  {
    NamesAreDistinct(c, c);
    BeforeExactly(key, NameOf(c));
    forall d, e ensures NameOf(d) == NameOf(e) ==> d == e { NamesAreDistinct(d, e); }
    if CategoryOf(key).Some? {
      assert Before(key, ':') == NameOf(CategoryOf(key).value);
    }
  }

  // ---- the active items of a list -------------------------------------------------------

  lemma ActiveExactly(i: Insight)
    ensures IsActiveWarning(i) <==> IsOpenWarning(i)
  {
  }

  /** Where a kept element stands in the whole list. */
  lemma {:induction false} PlaceOfKept<T(!new)>(xs: seq<T>, keep: T -> bool, i: nat) returns (m: nat)
    requires i < |Filter(xs, keep)|
    ensures m < |xs| && keep(xs[m]) && xs[m] == Filter(xs, keep)[i]
    ensures Filter(xs[..m], keep) == Filter(xs, keep)[..i]
  {
    if keep(xs[0]) && i == 0 {
      m := 0;
    } else {
      var l := PlaceOfKept(xs[1..], keep, if keep(xs[0]) then i - 1 else i);
      m := l + 1;
      assert xs[..m][1..] == xs[1..][..l];
    }
  }

  lemma {:induction false} HasExactly(insights: seq<Insight>, c: Category)
    ensures Has(ActiveItems(insights), c) <==> Warns(insights, NameOf(c))
  {
    var active := Filter(insights, IsActiveWarning);
    if Has(ActiveItems(insights), c) {
      var i :| 0 <= i < |active| && ActiveItems(insights)[i].category == Some(c);
      var m := PlaceOfKept(insights, IsActiveWarning, i);
      ActiveExactly(insights[m]);
      CategoryIsItsName(insights[m].key, c);
      assert WarnsAt(insights, m, NameOf(c));
    }
    if k :| 0 <= k < |insights| && WarnsAt(insights, k, NameOf(c)) {
      ActiveExactly(insights[k]);
      CategoryIsItsName(insights[k].key, c);
      assert insights[k] in active;
      var i :| 0 <= i < |active| && active[i] == insights[k];
      assert ActiveItems(insights)[i].category == Some(c);
    }
  }

  /** Insights that are resolved, dismissed or of another kind never show, wherever they stand. */
  lemma {:induction false} OthersNeverMatter(a: seq<Insight>, x: Insight, b: seq<Insight>, fatigue: real)
    requires !IsOpenWarning(x)
    ensures Sequence(a + [x] + b, fatigue) == Sequence(a + b, fatigue)
  {
    ActiveExactly(x);
    FilterOfConcat(a + [x], b, IsActiveWarning);
    FilterOfConcat(a, [x], IsActiveWarning);
    FilterOfNone([x], IsActiveWarning);
    FilterOfConcat(a, b, IsActiveWarning);
    var active := Filter(a, IsActiveWarning);
    assert active + [] == active;
  }

  // ---- which actions there are ----------------------------------------------------------

  /** Action k is made for the first open warning of its name. */
  predicate IsMadeFor(insights: seq<Insight>, a: Action, name: string, m: int) {
    && WarnsAt(insights, m, name) && (forall j :: 0 <= j < m ==> !WarnsAt(insights, j, name))
    && a.key == insights[m].key && a.title == insights[m].title && a.product == insights[m].product
  }

  lemma {:induction false} EarlierWarning(insights: seq<Insight>, m: nat, i: nat, j: nat, c: Category) returns (l: nat)
    requires j < m <= |insights| && i <= |ActiveItems(insights)| && WarnsAt(insights, j, NameOf(c))
    requires Filter(insights[..m], IsActiveWarning) == Filter(insights, IsActiveWarning)[..i]
    ensures l < i && ActiveItems(insights)[l].category == Some(c)
  {
    ActiveExactly(insights[j]);
    CategoryIsItsName(insights[j].key, c);
    assert insights[j] == insights[..m][j];
    assert insights[j] in Filter(insights, IsActiveWarning)[..i];
    l :| 0 <= l < i && Filter(insights, IsActiveWarning)[l] == insights[j];
  }

  lemma {:induction false} MadeForFirst(insights: seq<Insight>, fatigue: real, k: nat) returns (c: Category, m: nat)
    requires k < |Sequence(insights, fatigue)|
    ensures CategoryOf(Sequence(insights, fatigue)[k].key) == Some(c)
    ensures IsMadeFor(insights, Sequence(insights, fatigue)[k], NameOf(c), m)
  {
    var i := ActionAt(insights, fatigue, k);
    c := ActiveItems(insights)[i].category.value;
    m := PlaceOfKept(insights, IsActiveWarning, i);
    ActiveExactly(insights[m]);
    CategoryIsItsName(insights[m].key, c);
    forall j | 0 <= j < m ensures !WarnsAt(insights, j, NameOf(c)) {
      if WarnsAt(insights, j, NameOf(c)) {
        var l := EarlierWarning(insights, m, i, j, c);
        assert false;
      }
    }
  }

  /** Some action has a key of this name. */
  predicate IsListed(r: seq<Action>, name: string) {
    exists k :: 0 <= k < |r| && IsKeyOf(r[k].key, name)
  }

  /** A name is in the order exactly when an open warning has it. */
  lemma {:induction false} ListedExactly(insights: seq<Insight>, fatigue: real, c: Category)
    ensures IsListed(Sequence(insights, fatigue), NameOf(c)) <==> Warns(insights, NameOf(c))
  {
    var r := Sequence(insights, fatigue);
    if k :| 0 <= k < |r| && IsKeyOf(r[k].key, NameOf(c)) {
      CategoryIsItsName(r[k].key, c);
      var d, m := MadeForFirst(insights, fatigue, k);
      assert d == c;
      assert WarnsAt(insights, m, NameOf(c));
    }
    if Warns(insights, NameOf(c)) {
      HasExactly(insights, c);
      var n :| 0 <= n < |ActiveItems(insights)| && ActiveItems(insights)[n].category == Some(c);
      var i, k := KnownCategoryAppears(insights, fatigue, n);
      CategoryIsItsName(r[k].key, c);
    }
  }

  // ---- what each action says ------------------------------------------------------------

  predicate MarginWarning(i: Insight) {
    IsOpenWarning(i) && IsKeyOf(i.key, "margin_crisis")
  }

  /** Three open warnings of margin_crisis, at different places, under fatigue. */
  predicate IsParalyzed(insights: seq<Insight>, fatigue: real) {
    fatigue > 0.6 && |Places(insights, MarginWarning)| >= 3
  }

  predicate SomeoneRecurs(insights: seq<Insight>) {
    exists k :: 0 <= k < |insights| && IsOpenWarning(insights[k]) && insights[k].recurring
  }

  predicate Says(a: Action, stage: nat, role: Role, windowDays: nat, unlocks: bool, note: Note) {
    a.stage == stage && a.role == role && a.windowDays == windowDays && a.unlocksNext == unlocks && a.note == note
  }

  /** Stage, role, window, whether it unlocks the next stage, and note, by name. */
  predicate IsProfiled(insights: seq<Insight>, a: Action) {
    && (IsKeyOf(a.key, "high_ad_spend") ==> Says(a, 1, FastStabilization, 14, true, Unlocks))
    && (IsKeyOf(a.key, "low_stock") ==> Says(a, 1, FastStabilization, 7, true, Unlocks))
    && (IsKeyOf(a.key, "margin_crisis") ==>
          if Warns(insights, "high_ad_spend") then Says(a, 2, StructuralFix, 21, false, AfterAdvertising)
          else Says(a, 1, StructuralFix, 21, false, EarlyStage))
    && (IsKeyOf(a.key, "seo_opportunity") ==>
          if Warns(insights, "low_stock") || Warns(insights, "margin_crisis")
          then Says(a, 2, ParallelTrack, 21, false, InParallel)
          else Says(a, 1, ParallelTrack, 21, false, EarlyStage))
    && (IsKeyOf(a.key, "high_rating") ==> Says(a, 2, ParallelTrack, 21, false, InParallel))
  }

  /** Of the five names a key has at most the one of its category. */
  lemma {:induction false} KeyHasOneName(key: string, c: Category)
    requires CategoryOf(key) == Some(c)
    ensures IsKeyOf(key, "high_ad_spend") <==> c == HighAdSpend
    ensures IsKeyOf(key, "low_stock") <==> c == LowStock
    ensures IsKeyOf(key, "margin_crisis") <==> c == MarginCrisis
    ensures IsKeyOf(key, "seo_opportunity") <==> c == SeoOpportunity
    ensures IsKeyOf(key, "high_rating") <==> c == HighRating
  {
    CategoryIsItsName(key, HighAdSpend);
    CategoryIsItsName(key, LowStock);
    CategoryIsItsName(key, MarginCrisis);
    CategoryIsItsName(key, SeoOpportunity);
    CategoryIsItsName(key, HighRating);
  }

  lemma {:induction false} PresentExactly(insights: seq<Insight>, fatigue: real)
    ensures var present := ContextOf(ActiveItems(insights), fatigue).present;
      && (HighAdSpend in present <==> Warns(insights, "high_ad_spend"))
      && (LowStock in present <==> Warns(insights, "low_stock"))
      && (MarginCrisis in present <==> Warns(insights, "margin_crisis"))
  {
    var items := ActiveItems(insights);
    PresentIsHas(items, fatigue, HighAdSpend);
    PresentIsHas(items, fatigue, LowStock);
    PresentIsHas(items, fatigue, MarginCrisis);
    HasExactly(insights, HighAdSpend);
    HasExactly(insights, LowStock);
    HasExactly(insights, MarginCrisis);
  }

  /** The same by category, on what the context holds. */
  lemma SaysByCategory(item: Item, x: Context, priority: nat)
    requires item.category.Some?
    ensures var a := ActionOf(item, x, priority);
      match item.category.value
      case HighAdSpend => Says(a, 1, FastStabilization, 14, true, Unlocks)
      case LowStock => Says(a, 1, FastStabilization, 7, true, Unlocks)
      case MarginCrisis =>
        if HighAdSpend in x.present then Says(a, 2, StructuralFix, 21, false, AfterAdvertising)
        else Says(a, 1, StructuralFix, 21, false, EarlyStage)
      case SeoOpportunity =>
        if LowStock in x.present || MarginCrisis in x.present then Says(a, 2, ParallelTrack, 21, false, InParallel)
        else Says(a, 1, ParallelTrack, 21, false, EarlyStage)
      case HighRating => Says(a, 2, ParallelTrack, 21, false, InParallel)
  {
  }

  lemma {:induction false} ActionIsProfiled(insights: seq<Insight>, fatigue: real, k: nat)
    requires k < |Sequence(insights, fatigue)|
    ensures IsProfiled(insights, Sequence(insights, fatigue)[k])
  {
    var i := ActionAt(insights, fatigue, k);
    var item, x := ActiveItems(insights)[i], ContextOf(ActiveItems(insights), fatigue);
    KeyHasOneName(Sequence(insights, fatigue)[k].key, item.category.value);
    PresentExactly(insights, fatigue);
    SaysByCategory(item, x, k + 1);
  }

  // ---- causes before effects ------------------------------------------------------------

  lemma {:induction false} ListedInStage(insights: seq<Insight>, fatigue: real, c: Category) returns (k: nat)
    requires Warns(insights, NameOf(c))
    ensures var r := Sequence(insights, fatigue);
      && k < |r| && IsKeyOf(r[k].key, NameOf(c)) && CategoryOf(r[k].key) == Some(c)
      && (c == HighAdSpend || c == LowStock ==> r[k].stage == 1)
      && (c == MarginCrisis && Warns(insights, NameOf(HighAdSpend)) ==> r[k].stage == 2)
      && (c == SeoOpportunity && Warns(insights, NameOf(LowStock)) ==> r[k].stage == 2)
  {
    HasExactly(insights, c);
    k := PresentIsShown(insights, fatigue, c);
    CategoryIsItsName(Sequence(insights, fatigue)[k].key, c);
    HasExactly(insights, HighAdSpend);
    HasExactly(insights, LowStock);
    SecondStageExactly(ActiveItems(insights), fatigue, c);
  }

  predicate IsCause(c: Category, d: Category) {
    (c == HighAdSpend && d == MarginCrisis) || (c == LowStock && d == SeoOpportunity)
  }

  lemma {:induction false} CauseStandsFirst(insights: seq<Insight>, fatigue: real, c: Category, d: Category)
    returns (j: nat, k: nat)
    requires IsCause(c, d) && Warns(insights, NameOf(c)) && Warns(insights, NameOf(d))
    ensures var r := Sequence(insights, fatigue);
      && j < k < |r| && IsKeyOf(r[j].key, NameOf(c)) && r[j].stage == 1
      && IsKeyOf(r[k].key, NameOf(d)) && r[k].stage == 2
  {
    j := ListedInStage(insights, fatigue, c);
    k := ListedInStage(insights, fatigue, d);
    CausesComeFirst(insights, fatigue, j, k);
  }

  /** Whatever the input order: advertising is listed in stage one, margin after it and in stage two. */
  lemma {:induction false} AdvertisingStandsFirst(insights: seq<Insight>, fatigue: real) returns (j: nat, k: nat)
    requires Warns(insights, "high_ad_spend") && Warns(insights, "margin_crisis")
    ensures var r := Sequence(insights, fatigue);
      && j < k < |r| && IsKeyOf(r[j].key, "high_ad_spend") && r[j].stage == 1
      && IsKeyOf(r[k].key, "margin_crisis") && r[k].stage == 2
  {
    j, k := CauseStandsFirst(insights, fatigue, HighAdSpend, MarginCrisis);
  }

  /** And stock in stage one, search after it and in stage two. */
  lemma {:induction false} StockStandsFirst(insights: seq<Insight>, fatigue: real) returns (j: nat, k: nat)
    requires Warns(insights, "low_stock") && Warns(insights, "seo_opportunity")
    ensures var r := Sequence(insights, fatigue);
      && j < k < |r| && IsKeyOf(r[j].key, "low_stock") && r[j].stage == 1
      && IsKeyOf(r[k].key, "seo_opportunity") && r[k].stage == 2
  {
    j, k := CauseStandsFirst(insights, fatigue, LowStock, SeoOpportunity);
  }

  // ---- confidence -----------------------------------------------------------------------

  function MarginMark(i: Insight): nat {
    if MarginWarning(i) then 1 else 0
  }

  lemma {:induction false} FrictionOfActive(active: seq<Insight>)
    requires forall i :: i in active ==> IsOpenWarning(i)
    ensures Total(Tagged(active), Friction) == Total(active, MarginMark)
  {
    if active != [] {
      FrictionOfActive(active[1..]);
      assert Tagged(active)[1..] == Tagged(active[1..]);
      CategoryIsItsName(active[0].key, MarginCrisis);
    }
  }

  lemma {:induction false} FrictionIsPlaces(insights: seq<Insight>)
    ensures Total(ActiveItems(insights), Friction) == |Places(insights, MarginWarning)|
  {
    forall i: Insight ensures IsActiveWarning(i) <==> IsOpenWarning(i) { ActiveExactly(i); }
    FrictionOfActive(Filter(insights, IsActiveWarning));
    TotalOfFilter(insights, IsActiveWarning, MarginMark);
    TotalIsPlaces(insights, MarginMark, MarginWarning);
  }

  lemma {:induction false} RecurringExactly(insights: seq<Insight>, fatigue: real)
    ensures ContextOf(ActiveItems(insights), fatigue).recurring <==> SomeoneRecurs(insights)
  {
    var active := Filter(insights, IsActiveWarning);
    forall i: Insight ensures IsActiveWarning(i) <==> IsOpenWarning(i) { ActiveExactly(i); }
    if k :| 0 <= k < |insights| && IsOpenWarning(insights[k]) && insights[k].recurring {
      assert insights[k] in active;
      var i :| 0 <= i < |active| && active[i] == insights[k];
      assert ActiveItems(insights)[i].insight.recurring;
    }
    if i :| 0 <= i < |active| && ActiveItems(insights)[i].insight.recurring {
      var m := PlaceOfKept(insights, IsActiveWarning, i);
    }
  }

  /** Paralysis lowers every confidence; otherwise recurrence anywhere raises advertising and margin. */
  function ConfidenceSaid(insights: seq<Insight>, fatigue: real, key: string): Confidence {
    if IsParalyzed(insights, fatigue) then Moderate
    else if IsKeyOf(key, "high_ad_spend") || IsKeyOf(key, "low_stock") then Stable
    else if IsKeyOf(key, "margin_crisis") then if SomeoneRecurs(insights) then Stable else Moderate
    else if IsKeyOf(key, "seo_opportunity") then Moderate
    else Low
  }

  lemma {:induction false} ConfidenceIsSaid(insights: seq<Insight>, fatigue: real, k: nat)
    requires k < |Sequence(insights, fatigue)|
    ensures var a := Sequence(insights, fatigue)[k]; a.confidence == ConfidenceSaid(insights, fatigue, a.key)
  {
    var i := ActionAt(insights, fatigue, k);
    KeyHasOneName(Sequence(insights, fatigue)[k].key, ActiveItems(insights)[i].category.value);
    FrictionIsPlaces(insights);
    RecurringExactly(insights, fatigue);
  }

  lemma {:induction false} UnlockingByNames(insights: seq<Insight>)
    ensures HasUnlocking(ActiveItems(insights)) <==> Warns(insights, "high_ad_spend") || Warns(insights, "low_stock")
  {
    HasExactly(insights, HighAdSpend);
    HasExactly(insights, LowStock);
  }

  lemma {:induction false} WaitingByNames(insights: seq<Insight>)
    ensures HasWaiting(ActiveItems(insights)) <==>
      || (Warns(insights, "margin_crisis") && Warns(insights, "high_ad_spend"))
      || (Warns(insights, "seo_opportunity") && (Warns(insights, "low_stock") || Warns(insights, "margin_crisis")))
      || Warns(insights, "high_rating")
  {
    HasExactly(insights, HighAdSpend);
    HasExactly(insights, LowStock);
    HasExactly(insights, MarginCrisis);
    HasExactly(insights, SeoOpportunity);
    HasExactly(insights, HighRating);
  }

  /** The summary line, by the names of the open warnings. */
  lemma {:induction false} SummaryLineByNames(insights: seq<Insight>, fatigue: real)
    ensures HasSummaryLine(Sequence(insights, fatigue)) <==>
      && (Warns(insights, "high_ad_spend") || Warns(insights, "low_stock"))
      && (|| (Warns(insights, "margin_crisis") && Warns(insights, "high_ad_spend"))
          || (Warns(insights, "seo_opportunity") && (Warns(insights, "low_stock") || Warns(insights, "margin_crisis")))
          || Warns(insights, "high_rating"))
  {
    SummaryLineExactly(insights, fatigue);
    UnlockingByNames(insights);
    WaitingByNames(insights);
  }
}
