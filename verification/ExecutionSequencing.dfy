/**
 The stabilization order: one action per known category of active warning, staged and numbered.
 Display texts are left out.
 */
module ExecutionSequencing {
  import opened Common

  datatype Kind = Warning | Info | OtherKind
  datatype Status = Resolved | Dismissed | Open

  datatype Insight = Insight(key: string, kind: Kind, status: Status, recurring: bool, title: string,
                             product: Option<string>)

  datatype Category = HighAdSpend | LowStock | MarginCrisis | SeoOpportunity | HighRating
  datatype Role = FastStabilization | StructuralFix | ParallelTrack
  datatype Confidence = Low | Moderate | Stable
  datatype Note = Unlocks | EarlyStage | AfterAdvertising | Structural | InParallel

  datatype Action = Action(key: string, stage: nat, priority: nat, role: Role, windowDays: nat, unlocksNext: bool,
                           confidence: Confidence, note: Note, title: string, product: Option<string>)

  function CategoryNamed(name: string): Option<Category> {
    if name == "high_ad_spend" then Some(HighAdSpend)
    else if name == "low_stock" then Some(LowStock)
    else if name == "margin_crisis" then Some(MarginCrisis)
    else if name == "seo_opportunity" then Some(SeoOpportunity)
    else if name == "high_rating" then Some(HighRating)
    else None
  }

  /** The part of the key before its first colon, when sequencing knows it. */
  function CategoryOf(key: string): Option<Category> {
    CategoryNamed(Before(key, ':'))
  }

  predicate IsActiveWarning(i: Insight) {
    (i.kind.Warning? || i.kind.Info?) && i.status.Open?
  }

  /** An active warning with its category. */
  datatype Item = Item(insight: Insight, category: Option<Category>)

  function Tagged(insights: seq<Insight>): (r: seq<Item>)
    ensures |r| == |insights|
    ensures forall k :: 0 <= k < |r| ==> r[k].insight == insights[k] && r[k].category == CategoryOf(insights[k].key)
  {
    seq(|insights|, k requires 0 <= k < |insights| => Item(insights[k], CategoryOf(insights[k].key)))
  }

  function ActiveItems(insights: seq<Insight>): seq<Item> {
    Tagged(Filter(insights, IsActiveWarning))
  }

  /** What the whole list contributes to each action. */
  datatype Context = Context(present: set<Category>, recurring: bool, paralysis: bool)

  predicate Has(items: seq<Item>, c: Category) {
    exists i :: 0 <= i < |items| && items[i].category == Some(c)
  }

  function Friction(i: Item): nat {
    if i.category == Some(MarginCrisis) then 1 else 0
  }

  function ContextOf(items: seq<Item>, fatigue: real): Context {
    Context(set i | 0 <= i < |items| && items[i].category.Some? :: items[i].category.value,
            exists i :: 0 <= i < |items| && items[i].insight.recurring,
            Total(items, Friction) >= 3 && fatigue > 0.6)
  }

  function StageOf(c: Category, x: Context): (stage: nat)
    ensures stage == 1 || stage == 2
  {
    match c
    case HighAdSpend | LowStock => 1
    case MarginCrisis => if HighAdSpend in x.present then 2 else 1
    case SeoOpportunity => if LowStock in x.present || MarginCrisis in x.present then 2 else 1
    case HighRating => 2
  }

  function RoleOf(c: Category): Role {
    match c
    case HighAdSpend | LowStock => FastStabilization
    case MarginCrisis => StructuralFix
    case SeoOpportunity | HighRating => ParallelTrack
  }

  function WindowOf(c: Category): nat {
    match c case HighAdSpend => 14 case LowStock => 7 case _ => 21
  }

  predicate UnlocksNext(c: Category) {
    c.HighAdSpend? || c.LowStock?
  }

  function ConfidenceOf(c: Category, x: Context): Confidence {
    if x.paralysis then Moderate
    else if x.recurring && (c.MarginCrisis? || c.HighAdSpend?) then Stable
    else
      match c
      case HighAdSpend | LowStock => Stable
      case MarginCrisis | SeoOpportunity => Moderate
      case HighRating => Low
  }

  /** In stage two only the structural fix and the parallel tracks occur. */
  function NoteOf(c: Category, x: Context): Note {
    if StageOf(c, x) == 1 then if UnlocksNext(c) then Unlocks else EarlyStage
    else if RoleOf(c).StructuralFix? then AfterAdvertising
    else InParallel
  }

  function ActionOf(item: Item, x: Context, priority: nat): Action
    requires item.category.Some?
  {
    var i, c := item.insight, item.category.value;
    Action(i.key, StageOf(c, x), priority, RoleOf(c), WindowOf(c), UnlocksNext(c), ConfidenceOf(c, x), NoteOf(c, x),
           i.title, i.product)
  }

  // ---- specification --------------------------------------------------------------------

  /** The first active warning of a known category. */
  predicate IsFirst(items: seq<Item>, i: nat)
    requires i < |items|
  {
    items[i].category.Some? && forall j :: 0 <= j < i ==> items[j].category != items[i].category
  }

  predicate IsFirstInStage(items: seq<Item>, x: Context, stage: nat, i: nat)
    requires i < |items|
  {
    IsFirst(items, i) && StageOf(items[i].category.value, x) == stage
  }

  /** First occurrences of one stage among the first n warnings, in input order. */
  function InStage(items: seq<Item>, x: Context, stage: nat, n: nat): (r: seq<nat>)
    requires n <= |items|
    ensures forall i :: i in r <==> 0 <= i < n && IsFirstInStage(items, x, stage, i)
    ensures forall j, k :: 0 <= j < k < |r| ==> r[j] < r[k]
  {
    if n == 0 then []
    else
      var r := InStage(items, x, stage, n - 1);
      assert forall k :: 0 <= k < |r| ==> r[k] in r;
      if IsFirstInStage(items, x, stage, n - 1) then r + [n - 1] else r
  }

  /** Stage one in input order, then stage two in input order. */
  function Order(items: seq<Item>, x: Context): (r: seq<nat>)
    ensures forall i :: i in r <==> 0 <= i < |items| && IsFirst(items, i)
  {
    InStage(items, x, 1, |items|) + InStage(items, x, 2, |items|)
  }

  /** The actions of these warnings, numbered in this order from first + 1. */
  function Numbered(items: seq<Item>, x: Context, order: seq<nat>, first: nat): (r: seq<Action>)
    requires forall i :: i in order ==> i < |items| && items[i].category.Some?
    ensures |r| == |order|
    ensures forall k :: 0 <= k < |r| ==> order[k] in order && r[k] == ActionOf(items[order[k]], x, first + k + 1)
  {
    if order == [] then []
    else
      assert order[0] in order && forall i :: i in order[1..] ==> i in order;
      [ActionOf(items[order[0]], x, first + 1)] + Numbered(items, x, order[1..], first + 1)
  }

  function Sequence(insights: seq<Insight>, fatigue: real): seq<Action> {
    var items := ActiveItems(insights);
    var x := ContextOf(items, fatigue);
    Numbered(items, x, Order(items, x), 0)
  }

  // ---- the loops of the source ----------------------------------------------------------

  /** The list the first loop builds: first occurrences, numbered in input order. */
  function Collected(items: seq<Item>, x: Context, n: nat): (r: seq<Action>)
    requires n <= |items|
    ensures forall k :: 0 <= k < |r| ==> r[k].priority == k + 1
  {
    if n == 0 then []
    else
      var r := Collected(items, x, n - 1);
      if IsFirst(items, n - 1) then r + [ActionOf(items[n - 1], x, |r| + 1)] else r
  }

  method Collect(items: seq<Item>, x: Context) returns (r: seq<Action>)
    ensures r == Collected(items, x, |items|)
  {
    r := [];
    var seen: set<Category> := {};
    for n := 0 to |items|
      invariant r == Collected(items, x, n)
      invariant forall c :: c in seen <==> exists j :: 0 <= j < n && items[j].category == Some(c)
    {
      var category := items[n].category;
      if category.Some? && category.value !in seen {
        seen := seen + {category.value};
        r := r + [ActionOf(items[n], x, |r| + 1)];
      }
    }
  }

  /** The actions of one stage, in the order they have. */
  function AtStage(actions: seq<Action>, stage: nat): (r: seq<Action>)
    ensures forall a :: a in r ==> a in actions && a.stage == stage
  {
    if actions == [] then []
    else
      var r := AtStage(actions[..|actions| - 1], stage);
      if actions[|actions| - 1].stage == stage then r + [actions[|actions| - 1]] else r
  }

  predicate KeyBelow(a: Action, b: Action) {
    a.stage < b.stage || (a.stage == b.stage && a.priority < b.priority)
  }

  lemma {:induction false} BelowExactly(lower: seq<Action>, upper: seq<Action>, a: Action, k: nat)
    requires k < |lower + upper|
    requires forall b :: b in lower ==> KeyBelow(b, a)
    requires forall b :: b in upper ==> KeyBelow(a, b)
    ensures KeyBelow((lower + upper)[k], a) <==> k < |lower|
  {
    assert (lower + upper)[k] in if k < |lower| then lower else upper;
  }

  /** Puts an action after every smaller one. */
  method InsertSorted(sorted: seq<Action>, a: Action, ghost lower: seq<Action>, ghost upper: seq<Action>)
    returns (r: seq<Action>)
    requires sorted == lower + upper
    requires forall b :: b in lower ==> KeyBelow(b, a)
    requires forall b :: b in upper ==> KeyBelow(a, b)
    ensures r == lower + [a] + upper
  {
    forall k | 0 <= k < |sorted| ensures KeyBelow(sorted[k], a) <==> k < |lower| { BelowExactly(lower, upper, a, k); }
    var k := 0;
    while k < |sorted| && KeyBelow(sorted[k], a)
      invariant k <= |lower|
    {
      k := k + 1;
    }
    assert k == |lower|;
    r := sorted[..k] + [a] + sorted[k..];
  }

  lemma {:induction false} AtStageOfAppend(actions: seq<Action>, a: Action, stage: nat)
    ensures AtStage(actions + [a], stage) == AtStage(actions, stage) + if a.stage == stage then [a] else []
  {
    assert (actions + [a])[..|actions|] == actions;
  }

  lemma {:induction false} AtStageOfNext(actions: seq<Action>, n: nat, stage: nat)
    requires n < |actions|
    ensures AtStage(actions[..n + 1], stage)
      == AtStage(actions[..n], stage) + if actions[n].stage == stage then [actions[n]] else []
  {
    assert actions[..n + 1] == actions[..n] + [actions[n]];
    AtStageOfAppend(actions[..n], actions[n], stage);
  }

  /** The later an action was numbered, the later it sorts within its stage. */
  lemma {:induction false} SortsLast(actions: seq<Action>, n: nat, stage: nat)
    requires n < |actions| && forall k :: 0 <= k < |actions| ==> actions[k].priority == k + 1
    ensures forall b :: b in AtStage(actions[..n], stage) ==> b.stage == stage && b.priority < actions[n].priority
  {
  }

  /** Both stages of the first n actions, one after the other. */
  function Staged(actions: seq<Action>, n: nat): seq<Action>
    requires n <= |actions|
  {
    AtStage(actions[..n], 1) + AtStage(actions[..n], 2)
  }

  /** Where the next action goes. */
  lemma {:induction false} NextInStages(actions: seq<Action>, n: nat) returns (lower: seq<Action>, upper: seq<Action>)
    requires n < |actions|
    requires forall k :: 0 <= k < |actions| ==> actions[k].priority == k + 1 && 1 <= actions[k].stage <= 2
    ensures Staged(actions, n) == lower + upper && Staged(actions, n + 1) == lower + [actions[n]] + upper
    ensures forall b :: b in lower ==> KeyBelow(b, actions[n])
    ensures forall b :: b in upper ==> KeyBelow(actions[n], b)
  {
    var one, two, a := AtStage(actions[..n], 1), AtStage(actions[..n], 2), actions[n];
    SortsLast(actions, n, 1);
    SortsLast(actions, n, 2);
    AtStageOfNext(actions, n, 1);
    AtStageOfNext(actions, n, 2);
    if a.stage == 1 {
      lower, upper := one, two;
      assert two + [] == two;
    } else {
      lower, upper := one + two, [];
      assert one + [] == one;
    }
  }

  /** The sort by (stage, priority) of a list already numbered in its own order. */
  method SortByStage(actions: seq<Action>) returns (sorted: seq<Action>)
    requires forall k :: 0 <= k < |actions| ==> actions[k].priority == k + 1 && 1 <= actions[k].stage <= 2
    ensures sorted == AtStage(actions, 1) + AtStage(actions, 2)
  {
    sorted := [];
    for n := 0 to |actions|
      invariant sorted == Staged(actions, n)
    {
      ghost var lower, upper := NextInStages(actions, n);
      sorted := InsertSorted(sorted, actions[n], lower, upper);
    }
    assert actions[..|actions|] == actions;
  }

  method Renumber(actions: seq<Action>) returns (r: seq<Action>)
    ensures |r| == |actions|
    ensures forall k :: 0 <= k < |r| ==> r[k] == actions[k].(priority := k + 1)
  {
    r := actions;
    for k := 0 to |actions|
      invariant |r| == |actions|
      invariant forall j :: 0 <= j < k ==> r[j] == actions[j].(priority := j + 1)
      invariant forall j :: k <= j < |r| ==> r[j] == actions[j]
    {
      r := r[k := r[k].(priority := k + 1)];
    }
  }

  /** These actions, but for their numbers, come from these warnings in this order. */
  ghost predicate FromItems(items: seq<Item>, x: Context, actions: seq<Action>, order: seq<nat>) {
    && |actions| == |order|
    && forall k :: 0 <= k < |actions| ==> IsFrom(items, x, actions[k], order[k])
  }

  predicate IsFrom(items: seq<Item>, x: Context, a: Action, i: nat) {
    i < |items| && items[i].category.Some? && a == ActionOf(items[i], x, a.priority)
  }

  lemma FromItemsOfAppend(items: seq<Item>, x: Context, actions: seq<Action>, order: seq<nat>, a: Action, i: nat)
    requires FromItems(items, x, actions, order) && IsFrom(items, x, a, i)
    ensures FromItems(items, x, actions + [a], order + [i])
  {
  }

  lemma {:induction false} CollectedNext(items: seq<Item>, x: Context, stage: nat, n: nat)
    requires n < |items| && IsFirst(items, n)
    requires FromItems(items, x, AtStage(Collected(items, x, n), stage), InStage(items, x, stage, n))
    ensures FromItems(items, x, AtStage(Collected(items, x, n + 1), stage), InStage(items, x, stage, n + 1))
  {
    var r, o := Collected(items, x, n), InStage(items, x, stage, n);
    var a := ActionOf(items[n], x, |r| + 1);
    AtStageOfAppend(r, a, stage);
    if a.stage == stage {
      FromItemsOfAppend(items, x, AtStage(r, stage), o, a, n);
    } else {
      assert AtStage(r, stage) + [] == AtStage(r, stage);
    }
  }

  lemma {:induction false} CollectedAtStage(items: seq<Item>, x: Context, stage: nat, n: nat)
    requires n <= |items|
    ensures FromItems(items, x, AtStage(Collected(items, x, n), stage), InStage(items, x, stage, n))
  {
    if n > 0 {
      CollectedAtStage(items, x, stage, n - 1);
      if IsFirst(items, n - 1) {
        CollectedNext(items, x, stage, n - 1);
      }
    }
  }

  lemma CollectedIsStaged(items: seq<Item>, x: Context, n: nat)
    requires n <= |items|
    ensures forall k :: 0 <= k < |Collected(items, x, n)| ==> 1 <= Collected(items, x, n)[k].stage <= 2
  {
  }

  lemma RenumberedIsNumbered(items: seq<Item>, x: Context, sorted: seq<Action>, order: seq<nat>, r: seq<Action>)
    requires FromItems(items, x, sorted, order)
    requires forall i :: i in order ==> i < |items| && items[i].category.Some?
    requires |r| == |sorted| && forall k :: 0 <= k < |r| ==> r[k] == sorted[k].(priority := k + 1)
    ensures r == Numbered(items, x, order, 0)
  {
    forall k | 0 <= k < |r| ensures r[k] == ActionOf(items[order[k]], x, k + 1) {
      assert IsFrom(items, x, sorted[k], order[k]);
    }
  }

  method Build(insights: seq<Insight>, fatigue: real) returns (sequence: seq<Action>)
    ensures sequence == Sequence(insights, fatigue)
  {
    var items := ActiveItems(insights);
    var x := ContextOf(items, fatigue);
    var collected := Collect(items, x);
    CollectedIsStaged(items, x, |items|);
    var sorted := SortByStage(collected);
    sequence := Renumber(sorted);
    CollectedAtStage(items, x, 1, |items|);
    CollectedAtStage(items, x, 2, |items|);
    RenumberedIsNumbered(items, x, sorted, Order(items, x), sequence);
  }

  // ---- what the sequence promises -------------------------------------------------------

  /** The warning at place k of the sequence: the first active one of its category. */
  lemma {:induction false} ActionAt(insights: seq<Insight>, fatigue: real, k: nat) returns (i: nat)
    requires k < |Sequence(insights, fatigue)|
    ensures var items := ActiveItems(insights); var x := ContextOf(items, fatigue);
      && i < |items| && IsFirst(items, i) && i == Order(items, x)[k]
      && Sequence(insights, fatigue)[k] == ActionOf(items[i], x, k + 1)
      && CategoryOf(Sequence(insights, fatigue)[k].key) == items[i].category
  {
    var items := ActiveItems(insights);
    i := Order(items, ContextOf(items, fatigue))[k];
    assert i in Order(items, ContextOf(items, fatigue));
  }

  lemma OrderIsStaged(items: seq<Item>, x: Context, j: nat, k: nat)
    requires j < k < |Order(items, x)|
    ensures var a, b := Order(items, x)[j], Order(items, x)[k];
      && a in Order(items, x) && b in Order(items, x)
      && StageOf(items[a].category.value, x) <= StageOf(items[b].category.value, x)
      && (StageOf(items[a].category.value, x) == StageOf(items[b].category.value, x) ==> a < b)
  {
    var one, two := InStage(items, x, 1, |items|), InStage(items, x, 2, |items|);
    assert Order(items, x) == one + two;
    assert Order(items, x)[j] in if j < |one| then one else two;
    assert Order(items, x)[k] in if k < |one| then one else two;
  }

  /** Numbered 1..n, stages in order, input order within a stage, no category twice. */
  lemma {:induction false} SequenceIsOrdered(insights: seq<Insight>, fatigue: real, j: nat, k: nat)
    returns (a: nat, b: nat)
    requires j < k < |Sequence(insights, fatigue)|
    ensures var r := Sequence(insights, fatigue); var items := ActiveItems(insights);
      && r[j].priority == j + 1 && r[k].priority == k + 1 && r[j].stage <= r[k].stage
      && a < |items| && b < |items| && items[a].insight.key == r[j].key && items[b].insight.key == r[k].key
      && (r[j].stage == r[k].stage ==> a < b)
      && CategoryOf(r[j].key) != CategoryOf(r[k].key)
  {
    a := ActionAt(insights, fatigue, j);
    b := ActionAt(insights, fatigue, k);
    var items := ActiveItems(insights);
    OrderIsStaged(items, ContextOf(items, fatigue), j, k);
  }

  lemma {:induction false} FirstExists(items: seq<Item>, n: nat) returns (i: nat)
    requires n < |items| && items[n].category.Some?
    ensures i <= n && items[i].category == items[n].category && IsFirst(items, i)
  {
    if j :| 0 <= j < n && items[j].category == items[n].category {
      i := FirstExists(items, j);
    } else {
      i := n;
    }
  }

  /** Every known category of an active warning appears, for its first active warning. */
  lemma {:induction false} KnownCategoryAppears(insights: seq<Insight>, fatigue: real, n: nat) returns (i: nat, k: nat)
    requires n < |ActiveItems(insights)| && ActiveItems(insights)[n].category.Some?
    ensures var items := ActiveItems(insights);
      && i <= n && items[i].category == items[n].category
      && (forall j :: 0 <= j < i ==> items[j].category != items[n].category)
      && k < |Sequence(insights, fatigue)|
      && Sequence(insights, fatigue)[k] == ActionOf(items[i], ContextOf(items, fatigue), k + 1)
  {
    var items := ActiveItems(insights);
    i := FirstExists(items, n);
    var order := Order(items, ContextOf(items, fatigue));
    assert i in order;
    k :| 0 <= k < |order| && order[k] == i;
  }

  lemma PresentIsHas(items: seq<Item>, fatigue: real, c: Category)
    ensures c in ContextOf(items, fatigue).present <==> Has(items, c)
  {
  }

  /** Whatever the input order: advertising before margin, stock before search. */
  lemma {:induction false} CausesComeFirst(insights: seq<Insight>, fatigue: real, j: nat, k: nat)
    requires j < |Sequence(insights, fatigue)| && k < |Sequence(insights, fatigue)|
    requires var r := Sequence(insights, fatigue);
      var cause, effect := CategoryOf(r[j].key), CategoryOf(r[k].key);
      || (cause == Some(HighAdSpend) && effect == Some(MarginCrisis))
      || (cause == Some(LowStock) && effect == Some(SeoOpportunity))
    ensures j < k
  {
    var a := ActionAt(insights, fatigue, j);
    var b := ActionAt(insights, fatigue, k);
    var items := ActiveItems(insights);
    assert Has(items, items[a].category.value);
    PresentIsHas(items, fatigue, items[a].category.value);
    if k < j {
      OrderIsStaged(items, ContextOf(items, fatigue), k, j);
    }
  }

  // ---- the summary line -----------------------------------------------------------------

  predicate ShowsUnlocking(sequence: seq<Action>) {
    exists k :: 0 <= k < |sequence| && sequence[k].stage == 1 && sequence[k].unlocksNext
  }

  predicate ShowsWaiting(sequence: seq<Action>) {
    exists k :: 0 <= k < |sequence| && sequence[k].stage == 2
  }

  predicate HasSummaryLine(sequence: seq<Action>) {
    |sequence| >= 2 && ShowsUnlocking(sequence) && ShowsWaiting(sequence)
  }

  /** Some active warning unlocks a later stage. */
  predicate HasUnlocking(items: seq<Item>) {
    Has(items, HighAdSpend) || Has(items, LowStock)
  }

  /** Some active warning waits for a later stage. */
  predicate HasWaiting(items: seq<Item>) {
    || (Has(items, MarginCrisis) && Has(items, HighAdSpend))
    || (Has(items, SeoOpportunity) && (Has(items, LowStock) || Has(items, MarginCrisis)))
    || Has(items, HighRating)
  }

  lemma {:induction false} ActionIsPresent(insights: seq<Insight>, fatigue: real, k: nat) returns (c: Category)
    requires k < |Sequence(insights, fatigue)|
    ensures Has(ActiveItems(insights), c)
    ensures Sequence(insights, fatigue)[k].stage == StageOf(c, ContextOf(ActiveItems(insights), fatigue))
    ensures Sequence(insights, fatigue)[k].unlocksNext == UnlocksNext(c)
  {
    var i := ActionAt(insights, fatigue, k);
    c := ActiveItems(insights)[i].category.value;
  }

  lemma {:induction false} PresentIsShown(insights: seq<Insight>, fatigue: real, c: Category) returns (k: nat)
    requires Has(ActiveItems(insights), c)
    ensures k < |Sequence(insights, fatigue)| && CategoryOf(Sequence(insights, fatigue)[k].key) == Some(c)
    ensures Sequence(insights, fatigue)[k].stage == StageOf(c, ContextOf(ActiveItems(insights), fatigue))
    ensures Sequence(insights, fatigue)[k].unlocksNext == UnlocksNext(c)
  {
    var n :| 0 <= n < |ActiveItems(insights)| && ActiveItems(insights)[n].category == Some(c);
    var i;
    i, k := KnownCategoryAppears(insights, fatigue, n);
  }

  lemma {:induction false} UnlockingExactly(insights: seq<Insight>, fatigue: real)
    ensures HasUnlocking(ActiveItems(insights)) <==> ShowsUnlocking(Sequence(insights, fatigue))
  {
    var r := Sequence(insights, fatigue);
    if ShowsUnlocking(r) {
      var k :| 0 <= k < |r| && r[k].stage == 1 && r[k].unlocksNext;
      var c := ActionIsPresent(insights, fatigue, k);
    }
    if HasUnlocking(ActiveItems(insights)) {
      var c := if Has(ActiveItems(insights), HighAdSpend) then HighAdSpend else LowStock;
      var k := PresentIsShown(insights, fatigue, c);
    }
  }

  /** Which categories are sent to stage two. */
  lemma {:induction false} SecondStageExactly(items: seq<Item>, fatigue: real, c: Category)
    requires Has(items, c)
    ensures StageOf(c, ContextOf(items, fatigue)) == 2 ==> HasWaiting(items)
    ensures c.MarginCrisis? && Has(items, HighAdSpend) ==> StageOf(c, ContextOf(items, fatigue)) == 2
    ensures c.SeoOpportunity? && (Has(items, LowStock) || Has(items, MarginCrisis)) ==>
      StageOf(c, ContextOf(items, fatigue)) == 2
  {
    PresentIsHas(items, fatigue, HighAdSpend);
    PresentIsHas(items, fatigue, LowStock);
    PresentIsHas(items, fatigue, MarginCrisis);
  }

  lemma {:induction false} WaitingExactly(insights: seq<Insight>, fatigue: real)
    ensures HasWaiting(ActiveItems(insights)) <==> ShowsWaiting(Sequence(insights, fatigue))
  {
    var items, r := ActiveItems(insights), Sequence(insights, fatigue);
    if ShowsWaiting(r) {
      var k :| 0 <= k < |r| && r[k].stage == 2;
      var c := ActionIsPresent(insights, fatigue, k);
      SecondStageExactly(items, fatigue, c);
    }
    if HasWaiting(items) {
      var c := if Has(items, HighRating) then HighRating
               else if Has(items, MarginCrisis) && Has(items, HighAdSpend) then MarginCrisis else SeoOpportunity;
      SecondStageExactly(items, fatigue, c);
      var k := PresentIsShown(insights, fatigue, c);
    }
  }

  /** The line appears exactly when one active warning unlocks and another waits. */
  lemma {:induction false} SummaryLineExactly(insights: seq<Insight>, fatigue: real)
    ensures HasSummaryLine(Sequence(insights, fatigue)) <==>
      HasUnlocking(ActiveItems(insights)) && HasWaiting(ActiveItems(insights))
  {
    UnlockingExactly(insights, fatigue);
    WaitingExactly(insights, fatigue);
    var r := Sequence(insights, fatigue);
    if ShowsUnlocking(r) && ShowsWaiting(r) {
      var j :| 0 <= j < |r| && r[j].stage == 1 && r[j].unlocksNext;
      var k :| 0 <= k < |r| && r[k].stage == 2;
      assert j != k;
    }
  }
}
