/**
 Projection of cognition insights to descriptive fields and their canonical form. Removing uuid
 tokens from a string is a parameter.
 */
module Cognition {
  import opened Common
  import opened Sorting
  import opened Strings

  datatype Value = Null | Text(text: string) | Flag(flag: bool) | Number(number: real)
  datatype Score = NoScore | Whole(n: int) | Fraction(r: real)
  datatype Violation = NoKey | NonCanonicalItem | EmptyEntity
  datatype Result<T> = Ok(value: T) | Err(violation: Violation)

  /** The fields the projection reads; others are the remaining scalar fields, in their fixed order. */
  datatype Insight = Insight(key: Option<string>, kind: Option<string>, status: Option<string>, impact: Score,
                             marketplace: Option<string>, others: seq<Value>, reasons: Option<seq<string>>,
                             recommendations: Option<seq<string>>, patterns: Option<seq<string>>)

  datatype Projected = Projected(category: string, key: string, kind: Option<string>, status: Option<string>,
                                 impact: Score, marketplace: Option<string>, others: seq<Value>,
                                 reasons: seq<string>, recommendations: seq<string>, patterns: seq<string>)

  datatype Record = Record(category: string, entity: string, kind: Option<string>, status: Option<string>,
                           impact: Score, marketplace: Option<string>, others: seq<Value>,
                           reasons: seq<string>, recommendations: seq<string>, patterns: seq<string>)

  datatype Event = Event(eventType: string, entity: string, weight: int, marketplace: string)

  // ---- projection -----------------------------------------------------------------------

  function OrEmpty(xs: Option<seq<string>>): seq<string> {
    if xs.Some? then xs.value else []
  }

  predicate HasKey(i: Insight) {
    i.key.Some? && i.key.value != []
  }

  function Fields(i: Insight): Projected {
    var key := if i.key.Some? then i.key.value else [];
    Projected(CategoryName(key), key, i.kind, i.status, i.impact, i.marketplace, i.others,
              OrEmpty(i.reasons), OrEmpty(i.recommendations), OrEmpty(i.patterns))
  }

  function Project(i: Insight): Result<Projected> {
    if HasKey(i) then Ok(Fields(i)) else Err(NoKey)
  }

  /** Every insight is projected, or the first one without a key is reported. */
  function ProjectAll(insights: seq<Insight>): Result<seq<Projected>> {
    if insights == [] then Ok([])
    else match Project(insights[0])
      case Err(v) => Err(v)
      case Ok(item) =>
        match ProjectAll(insights[1..])
        case Err(v) => Err(v)
        case Ok(items) => Ok([item] + items)
  }

  /** Projection fails closed on a missing key, and otherwise is one-to-one and in order. */
  lemma {:induction false} ProjectionExactly(insights: seq<Insight>)
    ensures ProjectAll(insights).Ok? <==> forall k :: 0 <= k < |insights| ==> HasKey(insights[k])
    ensures ProjectAll(insights).Ok? ==> ProjectAll(insights).value == Map(insights, Fields)
  {
    if insights != [] {
      ProjectionExactly(insights[1..]);
      assert insights == [insights[0]] + insights[1..];
    }
  }

  // ---- canonical records ----------------------------------------------------------------

  function StripValue(strip: string -> string, v: Value): Value {
    if v.Text? then Text(strip(v.text)) else v
  }

  function StripOption(strip: string -> string, s: Option<string>): Option<string> {
    if s.Some? then Some(strip(s.value)) else None
  }

  predicate IsFine(strip: string -> string, item: Projected) {
    item.key != [] && strip(item.key) != []
  }

  /** Only marketplace_patterns is treated as a set and sorted; the other lists keep their order. */
  function Canon(strip: string -> string, item: Projected): Record {
    Record(strip(item.category), strip(item.key), StripOption(strip, item.kind), StripOption(strip, item.status),
           item.impact, StripOption(strip, item.marketplace), Map(item.others, v => StripValue(strip, v)),
           Map(item.reasons, strip), Map(item.recommendations, strip), SortBy(Map(item.patterns, strip), StringLeq))
  }

  /** A missing value is compared as the text None. */
  function Shown(s: Option<string>): string {
    if s.Some? then s.value else "None"
  }

  function KeyOf(r: Record): seq<string> {
    [r.category, r.entity, Shown(r.kind), Shown(r.status)]
  }

  /** Lexicographic order of keys. */
  predicate KeysLeq(a: seq<string>, b: seq<string>) {
    a == [] || (b != [] && (if a[0] == b[0] then KeysLeq(a[1..], b[1..]) else StringLeq(a[0], b[0])))
  }

  predicate RecordLeq(a: Record, b: Record) {
    KeysLeq(KeyOf(a), KeyOf(b))
  }

  // ---- the canonical form ---------------------------------------------------------------

  function FirstViolation(strip: string -> string, items: seq<Projected>): Option<Violation> {
    if items == [] then None
    else if items[0].key == [] then Some(NonCanonicalItem)
    else if strip(items[0].key) == [] then Some(EmptyEntity)
    else FirstViolation(strip, items[1..])
  }

  function Records(strip: string -> string, items: seq<Projected>): seq<Record> {
    Map(items, item => Canon(strip, item))
  }

  function Canonical(strip: string -> string, items: seq<Projected>): Result<seq<Record>> {
    match FirstViolation(strip, items)
    case Some(v) => Err(v)
    case None => Ok(SortBy(Records(strip, items), RecordLeq))
  }

  method BuildRecord(strip: string -> string, item: Projected) returns (r: Record)
    ensures r == Canon(strip, item)
  {
    var patterns := Sort(Map(item.patterns, strip), StringLeq);
    r := Record(strip(item.category), strip(item.key), StripOption(strip, item.kind), StripOption(strip, item.status),
                item.impact, StripOption(strip, item.marketplace), Map(item.others, v => StripValue(strip, v)),
                Map(item.reasons, strip), Map(item.recommendations, strip), patterns);
  }

  lemma RecordsOfNext(strip: string -> string, items: seq<Projected>, n: nat)
    requires n < |items|
    ensures Records(strip, items[..n + 1]) == Records(strip, items[..n]) + [Canon(strip, items[n])]
  {
    assert items[..n + 1] == items[..n] + [items[n]];
    MapOfConcat(items[..n], [items[n]], item => Canon(strip, item));
  }

  method Canonicalize(strip: string -> string, items: seq<Projected>) returns (r: Result<seq<Record>>)
    ensures r == Canonical(strip, items)
  {
    var canon: seq<Record> := [];
    for n := 0 to |items|
      invariant FirstViolation(strip, items) == FirstViolation(strip, items[n..])
      invariant canon == Records(strip, items[..n])
    {
      assert items[n..][1..] == items[n + 1..];
      if items[n].key == [] { return Err(NonCanonicalItem); }
      if strip(items[n].key) == [] { return Err(EmptyEntity); }
      var rec := BuildRecord(strip, items[n]);
      RecordsOfNext(strip, items, n);
      canon := canon + [rec];
    }
    assert items[..|items|] == items;
    var sorted := Sort(canon, RecordLeq);
    r := Ok(sorted);
  }

  // ---- what the canonical form promises -------------------------------------------------

  lemma {:induction false} KeyOrderIsTotal(a: seq<string>, b: seq<string>)
    ensures KeysLeq(a, b) || KeysLeq(b, a)
  {
    if a != [] && b != [] {
      if a[0] == b[0] { KeyOrderIsTotal(a[1..], b[1..]); } else { StringOrderIsTotal(a[0], b[0]); }
    }
  }

  lemma {:induction false} KeyOrderIsTransitive(a: seq<string>, b: seq<string>, c: seq<string>)
    requires KeysLeq(a, b) && KeysLeq(b, c)
    ensures KeysLeq(a, c)
  {
    if a != [] {
      if a[0] == b[0] == c[0] {
        KeyOrderIsTransitive(a[1..], b[1..], c[1..]);
      } else if a[0] != b[0] && b[0] != c[0] {
        StringOrderIsTransitive(a[0], b[0], c[0]);
        if a[0] == c[0] { StringOrderIsStrict(a[0], b[0]); }
      }
    }
  }

  lemma RecordOrderIsPreorder()
    ensures IsTotalPreorder(RecordLeq)
  {
    forall a, b ensures RecordLeq(a, b) || RecordLeq(b, a) { KeyOrderIsTotal(KeyOf(a), KeyOf(b)); }
    forall a, b, c | RecordLeq(a, b) && RecordLeq(b, c) ensures RecordLeq(a, c) {
      KeyOrderIsTransitive(KeyOf(a), KeyOf(b), KeyOf(c));
    }
  }

  /** By category, then entity, then type, then status, a missing one of the last two read as None. */
  ghost predicate ComesBefore(a: Record, b: Record) {
    var aKind := if a.kind == None then "None" else a.kind.value;
    var bKind := if b.kind == None then "None" else b.kind.value;
    var aStatus := if a.status == None then "None" else a.status.value;
    var bStatus := if b.status == None then "None" else b.status.value;
    || IsBelow(a.category, b.category)
    || (a.category == b.category && IsBelow(a.entity, b.entity))
    || (a.category == b.category && a.entity == b.entity && IsBelow(aKind, bKind))
    || (a.category == b.category && a.entity == b.entity && aKind == bKind
        && (aStatus == bStatus || IsBelow(aStatus, bStatus)))
  }

  lemma {:induction false} KeysOfFour(a: string, b: string, c: string, d: string,
                                      e: string, f: string, g: string, h: string)
    ensures KeysLeq([a, b, c, d], [e, f, g, h]) <==>
      if a != e then StringLeq(a, e) else if b != f then StringLeq(b, f)
      else if c != g then StringLeq(c, g) else d == h || StringLeq(d, h)
  {
    assert [a, b, c, d][1..] == [b, c, d] && [b, c, d][1..] == [c, d] && [c, d][1..] == [d] && [d][1..] == [];
    assert [e, f, g, h][1..] == [f, g, h] && [f, g, h][1..] == [g, h] && [g, h][1..] == [h] && [h][1..] == [];
    assert KeysLeq([d], [h]) <==> d == h || StringLeq(d, h);
    assert KeysLeq([c, d], [g, h]) <==> if c == g then KeysLeq([d], [h]) else StringLeq(c, g);
    assert KeysLeq([b, c, d], [f, g, h]) <==> if b == f then KeysLeq([c, d], [g, h]) else StringLeq(b, f);
  }

  /** The order of the records, on their columns. */
  lemma {:induction false} RecordOrderExactly(a: Record, b: Record)
    ensures RecordLeq(a, b) <==> ComesBefore(a, b)
  {
    KeysOfFour(a.category, a.entity, Shown(a.kind), Shown(a.status),
               b.category, b.entity, Shown(b.kind), Shown(b.status));
    StringLeqExactly(a.category, b.category);
    StringLeqExactly(a.entity, b.entity);
    StringLeqExactly(Shown(a.kind), Shown(b.kind));
    StringLeqExactly(Shown(a.status), Shown(b.status));
  }

  lemma {:induction false} ViolationAt(strip: string -> string, items: seq<Projected>, k: nat)
    requires k < |items| && forall j :: 0 <= j < k ==> items[j].key != [] && strip(items[j].key) != []
    ensures FirstViolation(strip, items) == FirstViolation(strip, items[k..])
  {
    if k > 0 {
      ViolationAt(strip, items[1..], k - 1);
      assert items[1..][k - 1..] == items[k..];
    }
  }

  /** The violation reported is that of the first item that has one. */
  lemma {:induction false} FirstViolationExactly(strip: string -> string, items: seq<Projected>, k: nat)
    requires k < |items| && forall j :: 0 <= j < k ==> items[j].key != [] && strip(items[j].key) != []
    ensures items[k].key == [] ==> Canonical(strip, items) == Err(NonCanonicalItem)
    ensures items[k].key != [] && strip(items[k].key) == [] ==> Canonical(strip, items) == Err(EmptyEntity)
  {
    ViolationAt(strip, items, k);
  }

  lemma {:induction false} ViolationExactly(strip: string -> string, items: seq<Projected>)
    ensures FirstViolation(strip, items) == None <==> forall k :: 0 <= k < |items| ==> IsFine(strip, items[k])
  {
    if items != [] {
      ViolationExactly(strip, items[1..]);
      assert items == [items[0]] + items[1..];
    }
  }

  /** Canonicalization succeeds exactly when every item has a key that stripping does not empty. */
  lemma FineExactly(strip: string -> string, items: seq<Projected>)
    ensures Canonical(strip, items).Ok? <==> forall item :: item in items ==> IsFine(strip, item)
  {
    ViolationExactly(strip, items);
  }

  /** The output is sorted and holds exactly one record per projected insight. */
  lemma {:induction false} OutputIsSortedAndOneToOne(strip: string -> string, items: seq<Projected>)
    requires Canonical(strip, items).Ok?
    ensures IsSorted(Canonical(strip, items).value, RecordLeq)
    ensures multiset(Canonical(strip, items).value) == multiset(Records(strip, items))
    ensures |Canonical(strip, items).value| == |items|
  {
    RecordOrderIsPreorder();
    SortBySorts(Records(strip, items), RecordLeq);
  }

  /** The same item, but for the order of its marketplace patterns. */
  predicate SameButPatternOrder(a: Projected, b: Projected) {
    a == b.(patterns := a.patterns) && multiset(a.patterns) == multiset(b.patterns)
  }

  lemma {:induction false} PatternOrderIsForgotten(strip: string -> string, a: Projected, b: Projected)
    requires SameButPatternOrder(a, b)
    ensures Canon(strip, a) == Canon(strip, b)
  {
    MapOfReordering(a.patterns, b.patterns, strip);
    StringsSortAlike(Map(a.patterns, strip), Map(b.patterns, strip));
  }

  lemma RecordsForgetOrder(strip: string -> string, xs: seq<Projected>, ys: seq<Projected>, zs: seq<Projected>)
    requires |ys| == |xs| && forall k :: 0 <= k < |xs| ==> SameButPatternOrder(xs[k], ys[k])
    requires multiset(ys) == multiset(zs)
    ensures multiset(Records(strip, xs)) == multiset(Records(strip, zs))
  {
    forall k | 0 <= k < |xs| ensures Canon(strip, xs[k]) == Canon(strip, ys[k]) {
      PatternOrderIsForgotten(strip, xs[k], ys[k]);
    }
    assert Records(strip, xs) == Records(strip, ys);
    MapOfReordering(ys, zs, item => Canon(strip, item));
  }

  lemma ReorderedStaysFine(strip: string -> string, xs: seq<Projected>, ys: seq<Projected>, zs: seq<Projected>)
    requires |ys| == |xs| && forall k :: 0 <= k < |xs| ==> SameButPatternOrder(xs[k], ys[k])
    requires multiset(ys) == multiset(zs)
    ensures Canonical(strip, xs).Ok? <==> Canonical(strip, zs).Ok?
  {
    FineExactly(strip, xs);
    FineExactly(strip, zs);
    forall k | 0 <= k < |xs| ensures ys[k] in multiset(zs) && IsFine(strip, xs[k]) == IsFine(strip, ys[k]) {
      assert ys[k] in multiset(ys);
    }
    forall z | z in zs ensures z in ys {
      assert z in multiset(zs);
    }
  }

  /**
   Reordering the insights, and the patterns inside each, is accepted or refused alike and gives
   the same canonical form whenever records that tie on category, entity, type and status are equal.
   */
  lemma {:induction false} CanonicalFormForgetsOrder(
    strip: string -> string, xs: seq<Projected>, ys: seq<Projected>, zs: seq<Projected>)
    requires |ys| == |xs| && forall k :: 0 <= k < |xs| ==> SameButPatternOrder(xs[k], ys[k])
    requires multiset(ys) == multiset(zs)
    requires TiesAreEqual(Records(strip, xs), RecordLeq)
    ensures Canonical(strip, xs).Ok? <==> Canonical(strip, zs).Ok?
    ensures Canonical(strip, xs).Ok? ==> Canonical(strip, xs) == Canonical(strip, zs)
  {
    ReorderedStaysFine(strip, xs, ys, zs);
    RecordsForgetOrder(strip, xs, ys, zs);
    RecordOrderIsPreorder();
    SortForgetsOrder(Records(strip, xs), Records(strip, zs), RecordLeq);
  }

  /** Every reordering of the items gives the same result. */
  ghost predicate ForgetsOrder(strip: string -> string, items: seq<Projected>) {
    forall others :: multiset(others) == multiset(items) ==> Canonical(strip, others) == Canonical(strip, items)
  }

  lemma {:induction false} SwappedRecords(strip: string -> string, items: seq<Projected>, i: nat, j: nat)
    requires i < j < |items|
    ensures Records(strip, Swapped(items, i, j)) == Swapped(Records(strip, items), i, j)
  {
  }

  lemma {:induction false} SwappedStaysFine(strip: string -> string, items: seq<Projected>, i: nat, j: nat)
    requires i < j < |items| && FirstViolation(strip, items) == None
    ensures FirstViolation(strip, Swapped(items, i, j)) == None
  {
    ViolationExactly(strip, items);
    ViolationExactly(strip, Swapped(items, i, j));
  }

  /**
   The canonical form of fine items forgets their order exactly when records that tie on category,
   entity, type and status are equal.
   */
  lemma {:induction false} OrderIsForgottenExactly(strip: string -> string, items: seq<Projected>)
    requires Canonical(strip, items).Ok?
    ensures ForgetsOrder(strip, items) <==> TiesAreEqual(Records(strip, items), RecordLeq)
  {
    if TiesAreEqual(Records(strip, items), RecordLeq) {
      forall others | multiset(others) == multiset(items) ensures Canonical(strip, others) == Canonical(strip, items) {
        CanonicalFormForgetsOrder(strip, items, items, others);
      }
    } else {
      var i, j := UnequalTies(Records(strip, items), RecordLeq);
      SwappedReorders(items, i, j);
      SwappedStaysFine(strip, items, i, j);
      SwappedRecords(strip, items, i, j);
      RecordOrderIsPreorder();
      SwapOfTiesShows(Records(strip, items), i, j, RecordLeq);
      assert Canonical(strip, Swapped(items, i, j)) != Canonical(strip, items);
    }
  }

  // ---- events ---------------------------------------------------------------------------

  function EventOf(r: Record): Event {
    Event(r.category, r.entity, if r.impact.Whole? then r.impact.n else 0,
          if r.marketplace.Some? then r.marketplace.value else "")
  }

  /** One event per canonical record, in the same order. */
  function Events(canonical: seq<Record>): seq<Event> {
    Map(canonical, EventOf)
  }

  /** The events of two reorderings of the same insights are the same list. */
  lemma {:induction false} EventsForgetOrder(strip: string -> string, xs: seq<Projected>, zs: seq<Projected>)
    requires multiset(xs) == multiset(zs) && TiesAreEqual(Records(strip, xs), RecordLeq)
    requires Canonical(strip, xs).Ok?
    ensures Canonical(strip, zs).Ok?
    ensures Events(Canonical(strip, xs).value) == Events(Canonical(strip, zs).value)
    ensures |Events(Canonical(strip, zs).value)| == |zs|
  {
    CanonicalFormForgetsOrder(strip, xs, xs, zs);
    OutputIsSortedAndOneToOne(strip, zs);
  }

  /** Projection, canonical form and events together. */
  function Pipeline(strip: string -> string, insights: seq<Insight>): Result<seq<Event>> {
    match ProjectAll(insights)
    case Err(v) => Err(v)
    case Ok(items) =>
      match Canonical(strip, items)
      case Err(v) => Err(v)
      case Ok(records) => Ok(Events(records))
  }

  predicate IsNameOf(name: string, key: string) {
    Before(key, ':') == (if "demo_" <= Before(key, ':') then "demo_" + name else name)
  }

  lemma NameIsNameOf(key: string)
    ensures IsNameOf(CategoryName(key), key)
  {
    var base := Before(key, ':');
    if "demo_" <= base {
      assert base == "demo_" + base[5..];
    }
  }

  predicate IsStripped(strip: string -> string, after: Option<string>, before: Option<string>) {
    if before == None then after == None else after == Some(strip(before.value))
  }

  predicate AreStripped(strip: string -> string, after: seq<string>, before: seq<string>) {
    |after| == |before| && forall k :: 0 <= k < |after| ==> after[k] == strip(before[k])
  }

  predicate IsScalarStripped(strip: string -> string, after: Value, before: Value) {
    match before
    case Text(s) => after == Text(strip(s))
    case _ => after == before
  }

  /** The record of an insight, column by column. */
  ghost predicate IsRecordOf(strip: string -> string, r: Record, i: Insight) {
    && i.key.Some? && i.key.value != [] && r.entity == strip(i.key.value)
    && (exists name :: IsNameOf(name, i.key.value) && r.category == strip(name))
    && IsStripped(strip, r.kind, i.kind) && IsStripped(strip, r.status, i.status)
    && IsStripped(strip, r.marketplace, i.marketplace) && r.impact == i.impact
    && |r.others| == |i.others|
    && (forall k :: 0 <= k < |r.others| ==> IsScalarStripped(strip, r.others[k], i.others[k]))
    && AreStripped(strip, r.reasons, if i.reasons == None then [] else i.reasons.value)
    && AreStripped(strip, r.recommendations, if i.recommendations == None then [] else i.recommendations.value)
    && IsSorted(r.patterns, StringLeq)
    && multiset(r.patterns) == multiset(Map(if i.patterns == None then [] else i.patterns.value, strip))
  }

  lemma {:induction false} RecordIsDescribed(strip: string -> string, i: Insight)
    requires HasKey(i)
    ensures IsRecordOf(strip, Canon(strip, Fields(i)), i)
  {
    NameIsNameOf(i.key.value);
    assert IsNameOf(CategoryName(i.key.value), i.key.value);
    var patterns := Map(OrEmpty(i.patterns), strip);
    StringOrderIsPreorder();
    SortBySorts(patterns, StringLeq);
  }

  /** The event of an insight, column by column. */
  ghost predicate IsEventOf(strip: string -> string, e: Event, i: Insight) {
    && i.key.Some? && e.entity == strip(i.key.value)
    && (exists name :: IsNameOf(name, i.key.value) && e.eventType == strip(name))
    && e.weight == (if i.impact.Whole? then i.impact.n else 0)
    && e.marketplace == (if i.marketplace == None then "" else strip(i.marketplace.value))
  }

  function EventOfInsight(strip: string -> string, i: Insight): Event {
    EventOf(Canon(strip, Fields(i)))
  }

  lemma {:induction false} MapOfMap<T, U, V>(xs: seq<T>, f: T -> U, g: U -> V, h: T -> V)
    requires forall x :: x in xs ==> h(x) == g(f(x))
    ensures Map(Map(xs, f), g) == Map(xs, h)
  {
  }

  /** The pipeline succeeds exactly when every insight has a key that stripping does not empty. */
  lemma {:induction false} PipelineSucceedsExactly(strip: string -> string, insights: seq<Insight>)
    ensures Pipeline(strip, insights).Ok? <==>
      forall k :: 0 <= k < |insights| ==>
        insights[k].key.Some? && insights[k].key.value != [] && strip(insights[k].key.value) != []
  {
    ProjectionExactly(insights);
    if ProjectAll(insights).Ok? {
      ViolationExactly(strip, Map(insights, Fields));
      forall k | 0 <= k < |insights|
        ensures IsFine(strip, Map(insights, Fields)[k]) <==> strip(insights[k].key.value) != []
      {
        assert HasKey(insights[k]);
      }
    }
  }

  lemma {:induction false} EventIsDescribed(strip: string -> string, i: Insight)
    requires HasKey(i)
    ensures IsEventOf(strip, EventOfInsight(strip, i), i)
  {
    RecordIsDescribed(strip, i);
  }

  lemma {:induction false} EventsOfRecords(strip: string -> string, insights: seq<Insight>, items: seq<Projected>)
    requires items == Map(insights, Fields)
    ensures multiset(Events(SortBy(Records(strip, items), RecordLeq)))
      == multiset(Map(insights, i => EventOfInsight(strip, i)))
  {
    var records := Records(strip, items);
    MapOfReordering(SortBy(records, RecordLeq), records, EventOf);
    MapOfMap(items, item => Canon(strip, item), EventOf, item => EventOf(Canon(strip, item)));
    MapOfMap(insights, Fields, item => EventOf(Canon(strip, item)), i => EventOfInsight(strip, i));
  }

  /** Every insight has its event and every event its insight, as often as it occurs. */
  lemma {:induction false} EventsAreOfInsights(strip: string -> string, insights: seq<Insight>)
    requires Pipeline(strip, insights).Ok?
    ensures multiset(Pipeline(strip, insights).value) == multiset(Map(insights, i => EventOfInsight(strip, i)))
    ensures forall k :: 0 <= k < |insights| ==> IsEventOf(strip, EventOfInsight(strip, insights[k]), insights[k])
  {
    ProjectionExactly(insights);
    EventsOfRecords(strip, insights, Map(insights, Fields));
    forall k | 0 <= k < |insights| ensures IsEventOf(strip, EventOfInsight(strip, insights[k]), insights[k]) {
      EventIsDescribed(strip, insights[k]);
    }
  }

  /** The whole pipeline forgets the order of the insights whenever tied records are equal. */
  lemma {:induction false} PipelineForgetsOrder(strip: string -> string, xs: seq<Insight>, ys: seq<Insight>)
    requires multiset(xs) == multiset(ys) && Pipeline(strip, xs).Ok?
    requires TiesAreEqual(Records(strip, Map(xs, Fields)), RecordLeq)
    ensures Pipeline(strip, ys) == Pipeline(strip, xs)
    ensures |Pipeline(strip, xs).value| == |xs|
  {
    ProjectionExactly(xs);
    ProjectionExactly(ys);
    forall k | 0 <= k < |ys| ensures HasKey(ys[k]) {
      assert ys[k] in multiset(ys) && ys[k] in multiset(xs);
      assert ys[k] in xs;
    }
    MapOfReordering(xs, ys, Fields);
    EventsForgetOrder(strip, Map(xs, Fields), Map(ys, Fields));
    OutputIsSortedAndOneToOne(strip, Map(xs, Fields));
  }
}
