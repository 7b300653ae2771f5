/** A stable sort, and when sorting makes the input order irrelevant. */
module Sorting {
  import opened Common

  ghost predicate IsTotalPreorder<T(!new)>(leq: (T, T) -> bool) {
    && (forall a, b :: leq(a, b) || leq(b, a))
    && forall a, b, c :: leq(a, b) && leq(b, c) ==> leq(a, c)
  }

  ghost predicate IsSorted<T>(xs: seq<T>, leq: (T, T) -> bool) {
    forall i, j :: 0 <= i < j < |xs| ==> leq(xs[i], xs[j])
  }

  /** After every element that is not greater: equal keys keep their input order. */
  function Insert<T>(xs: seq<T>, x: T, leq: (T, T) -> bool): (r: seq<T>)
    ensures multiset(r) == multiset(xs) + multiset{x}
  {
    if xs == [] then [x]
    else if leq(xs[0], x) then
      assert xs == [xs[0]] + xs[1..];
      [xs[0]] + Insert(xs[1..], x, leq)
    else [x] + xs
  }

  function SortBy<T>(xs: seq<T>, leq: (T, T) -> bool): (r: seq<T>)
    ensures multiset(r) == multiset(xs)
    ensures |r| == |xs|
  {
    if xs == [] then []
    else
      assert xs == xs[..|xs| - 1] + [xs[|xs| - 1]];
      var r := Insert(SortBy(xs[..|xs| - 1], leq), xs[|xs| - 1], leq);
      assert |multiset(r)| == |multiset(xs)|;
      r
  }

  lemma {:induction false} InsertKeepsSorted<T(!new)>(xs: seq<T>, x: T, leq: (T, T) -> bool)
    requires IsTotalPreorder(leq) && IsSorted(xs, leq)
    ensures IsSorted(Insert(xs, x, leq), leq)
  {
    if xs != [] && leq(xs[0], x) {
      InsertKeepsSorted(xs[1..], x, leq);
      var rest := Insert(xs[1..], x, leq);
      forall k | 0 <= k < |rest| ensures leq(xs[0], rest[k]) {
        assert rest[k] in multiset(rest);
        assert rest[k] in xs[1..] || rest[k] == x;
      }
    } else if xs != [] {
      forall k | 0 <= k < |xs| ensures leq(x, xs[k]) {
        assert leq(x, xs[0]);
      }
    }
  }

  lemma {:induction false} SortBySorts<T(!new)>(xs: seq<T>, leq: (T, T) -> bool)
    requires IsTotalPreorder(leq)
    ensures IsSorted(SortBy(xs, leq), leq)
  {
    if xs != [] {
      SortBySorts(xs[..|xs| - 1], leq);
      InsertKeepsSorted(SortBy(xs[..|xs| - 1], leq), xs[|xs| - 1], leq);
    }
  }

  /** Elements that tie are the same. */
  ghost predicate TiesAreEqual<T>(xs: seq<T>, leq: (T, T) -> bool) {
    forall a, b :: a in xs && b in xs && leq(a, b) && leq(b, a) ==> a == b
  }

  lemma HeadsAgree<T>(xs: seq<T>, ys: seq<T>, leq: (T, T) -> bool)
    requires IsSorted(xs, leq) && IsSorted(ys, leq) && multiset(xs) == multiset(ys) && xs != []
    requires TiesAreEqual(xs, leq)
    ensures ys != [] && xs[0] == ys[0]
  {
    assert xs[0] in multiset(ys);
    assert ys[0] in multiset(xs);
    var i :| 0 <= i < |ys| && ys[i] == xs[0];
    var j :| 0 <= j < |xs| && xs[j] == ys[0];
    assert i > 0 ==> leq(ys[0], ys[i]);
    assert j > 0 ==> leq(xs[0], xs[j]);
  }

  lemma TailsAgree<T>(xs: seq<T>, ys: seq<T>)
    requires multiset(xs) == multiset(ys) && xs != [] && ys != [] && xs[0] == ys[0]
    ensures multiset(xs[1..]) == multiset(ys[1..])
  {
    assert xs == [xs[0]] + xs[1..] && ys == [ys[0]] + ys[1..];
    assert multiset(xs[1..]) == multiset(xs) - multiset{xs[0]};
    assert multiset(ys[1..]) == multiset(ys) - multiset{ys[0]};
  }

  lemma {:induction false} SortedIsUnique<T>(xs: seq<T>, ys: seq<T>, leq: (T, T) -> bool)
    requires IsSorted(xs, leq) && IsSorted(ys, leq) && multiset(xs) == multiset(ys)
    requires TiesAreEqual(xs, leq)
    ensures xs == ys
  {
    if xs == [] {
      assert |multiset(ys)| == 0;
    } else {
      HeadsAgree(xs, ys, leq);
      TailsAgree(xs, ys);
      SortedIsUnique(xs[1..], ys[1..], leq);
      assert xs == [xs[0]] + xs[1..] && ys == [ys[0]] + ys[1..];
    }
  }

  /** Where ties are equal, sorting forgets the input order. */
  lemma SortForgetsOrder<T(!new)>(xs: seq<T>, ys: seq<T>, leq: (T, T) -> bool)
    requires IsTotalPreorder(leq) && multiset(xs) == multiset(ys) && TiesAreEqual(xs, leq)
    ensures SortBy(xs, leq) == SortBy(ys, leq)
  {
    SortBySorts(xs, leq);
    SortBySorts(ys, leq);
    forall x | x in SortBy(xs, leq) ensures x in xs {
      assert x in multiset(SortBy(xs, leq));
      assert x in multiset(xs);
    }
    SortedIsUnique(SortBy(xs, leq), SortBy(ys, leq), leq);
  }

  // ---- stability ------------------------------------------------------------------------

  /** The elements that tie with one element. */
  function Ties<T>(x: T, leq: (T, T) -> bool): T -> bool {
    y => leq(x, y) && leq(y, x)
  }

  /** Inserting puts an element after those it ties with, and moves nothing else. */
  lemma {:induction false} InsertIsStable<T(!new)>(xs: seq<T>, x: T, a: T, leq: (T, T) -> bool)
    requires IsTotalPreorder(leq) && IsSorted(xs, leq)
    ensures Filter(Insert(xs, x, leq), Ties(a, leq)) == Filter(xs, Ties(a, leq)) + Filter([x], Ties(a, leq))
  {
    if xs != [] && leq(xs[0], x) {
      InsertIsStable(xs[1..], x, a, leq);
    } else if xs != [] {
      NoTieAfter(xs, x, a, leq);
    }
  }

  /** Where an element goes before all others, none of them ties with what it ties with. */
  lemma {:induction false} NoTieAfter<T(!new)>(xs: seq<T>, x: T, a: T, leq: (T, T) -> bool)
    requires IsTotalPreorder(leq) && IsSorted(xs, leq) && xs != [] && !leq(xs[0], x)
    ensures Filter([x] + xs, Ties(a, leq)) == Filter(xs, Ties(a, leq)) + Filter([x], Ties(a, leq))
  {
    FilterOfConcat([x], xs, Ties(a, leq));
    if Ties(a, leq)(x) {
      forall y | y in xs ensures !Ties(a, leq)(y) {
        var k :| 0 <= k < |xs| && xs[k] == y;
        assert leq(xs[0], y);
        assert !leq(y, x);
      }
      FilterOfNone(xs, Ties(a, leq));
    } else {
      assert Filter([x], Ties(a, leq)) == [];
    }
  }

  /** The sort keeps the input order of elements that tie. */
  lemma {:induction false} SortIsStable<T(!new)>(xs: seq<T>, a: T, leq: (T, T) -> bool)
    requires IsTotalPreorder(leq)
    ensures Filter(SortBy(xs, leq), Ties(a, leq)) == Filter(xs, Ties(a, leq))
  {
    if xs != [] {
      var front, last := xs[..|xs| - 1], xs[|xs| - 1];
      SortIsStable(front, a, leq);
      SortBySorts(front, leq);
      InsertIsStable(SortBy(front, leq), last, a, leq);
      FilterOfConcat(front, [last], Ties(a, leq));
      assert xs == front + [last];
    }
  }

  /** Two places exchanged. */
  function Swapped<T>(xs: seq<T>, i: nat, j: nat): (ys: seq<T>)
    requires i < |xs| && j < |xs|
    ensures |ys| == |xs|
  {
    xs[i := xs[j]][j := xs[i]]
  }

  lemma {:induction false} SwappedReorders<T>(xs: seq<T>, i: nat, j: nat)
    requires i < j < |xs|
    ensures multiset(Swapped(xs, i, j)) == multiset(xs)
  {
    var pre, mid, post := xs[..i], xs[i + 1..j], xs[j + 1..];
    assert xs == pre + [xs[i]] + mid + [xs[j]] + post;
    assert Swapped(xs, i, j) == pre + [xs[j]] + mid + [xs[i]] + post;
  }

  /** Exchanging two different elements that tie shows after sorting. */
  lemma {:induction false} SwapOfTiesShows<T(!new)>(xs: seq<T>, i: nat, j: nat, leq: (T, T) -> bool)
    requires IsTotalPreorder(leq) && i < j < |xs|
    requires xs[i] != xs[j] && Ties(xs[i], leq)(xs[j])
    ensures SortBy(Swapped(xs, i, j), leq) != SortBy(xs, leq)
  {
    var keep := Ties(xs[i], leq);
    var pre, post, other := xs[..i], xs[i + 1..], xs[i + 1..][j - i - 1 := xs[i]];
    assert xs == pre + ([xs[i]] + post);
    assert Swapped(xs, i, j) == pre + ([xs[j]] + other);
    FilterOfConcat(pre, [xs[i]] + post, keep);
    FilterOfConcat(pre, [xs[j]] + other, keep);
    assert ([xs[i]] + post)[1..] == post && ([xs[j]] + other)[1..] == other;
    var n := |Filter(pre, keep)|;
    assert Filter(xs, keep)[n] == xs[i] && Filter(Swapped(xs, i, j), keep)[n] == xs[j];
    SortIsStable(xs, xs[i], leq);
    SortIsStable(Swapped(xs, i, j), xs[i], leq);
  }

  lemma {:induction false} UnequalTies<T>(xs: seq<T>, leq: (T, T) -> bool) returns (i: nat, j: nat)
    requires !TiesAreEqual(xs, leq)
    ensures i < j < |xs| && xs[i] != xs[j] && Ties(xs[i], leq)(xs[j])
  {
    var a, b :| a in xs && b in xs && leq(a, b) && leq(b, a) && a != b;
    var k :| 0 <= k < |xs| && xs[k] == a;
    var l :| 0 <= l < |xs| && xs[l] == b;
    i, j := if k < l then k else l, if k < l then l else k;
  }

  lemma InsertFurther<T>(xs: seq<T>, x: T, leq: (T, T) -> bool, k: nat)
    requires k < |xs| && leq(xs[k], x)
    ensures xs[..k] + Insert(xs[k..], x, leq) == xs[..k + 1] + Insert(xs[k + 1..], x, leq)
  {
    assert xs[k..][1..] == xs[k + 1..];
    assert xs[..k + 1] == xs[..k] + [xs[k]];
  }

  method InsertInto<T>(xs: seq<T>, x: T, leq: (T, T) -> bool) returns (r: seq<T>)
    ensures r == Insert(xs, x, leq)
  {
    var k := 0;
    while k < |xs| && leq(xs[k], x)
      invariant k <= |xs|
      invariant xs[..k] + Insert(xs[k..], x, leq) == Insert(xs, x, leq)
    {
      InsertFurther(xs, x, leq, k);
      k := k + 1;
    }
    r := xs[..k] + [x] + xs[k..];
  }

  lemma {:induction false} SortByNext<T>(xs: seq<T>, n: nat, leq: (T, T) -> bool)
    requires n < |xs|
    ensures SortBy(xs[..n + 1], leq) == Insert(SortBy(xs[..n], leq), xs[n], leq)
  {
    assert xs[..n + 1][..n] == xs[..n];
  }

  /** The sort, one insertion at a time. */
  method Sort<T>(xs: seq<T>, leq: (T, T) -> bool) returns (r: seq<T>)
    ensures r == SortBy(xs, leq)
  {
    r := [];
    for n := 0 to |xs|
      invariant r == SortBy(xs[..n], leq)
    {
      SortByNext(xs, n, leq);
      r := InsertInto(r, xs[n], leq);
    }
    assert xs[..|xs|] == xs;
  }

  // ---- strings in code-point order ------------------------------------------------------

  predicate StringLeq(a: string, b: string) {
    a == [] || (b != [] && (a[0] < b[0] || (a[0] == b[0] && StringLeq(a[1..], b[1..]))))
  }

  lemma {:induction false} StringOrderIsTotal(a: string, b: string)
    ensures StringLeq(a, b) || StringLeq(b, a)
  {
    if a != [] && b != [] { StringOrderIsTotal(a[1..], b[1..]); }
  }

  lemma {:induction false} StringOrderIsTransitive(a: string, b: string, c: string)
    requires StringLeq(a, b) && StringLeq(b, c)
    ensures StringLeq(a, c)
  {
    if a != [] && a[0] == b[0] == c[0] { StringOrderIsTransitive(a[1..], b[1..], c[1..]); }
  }

  lemma {:induction false} StringOrderIsStrict(a: string, b: string)
    requires StringLeq(a, b) && StringLeq(b, a)
    ensures a == b
  {
    if a != [] && b != [] {
      StringOrderIsStrict(a[1..], b[1..]);
      assert a == [a[0]] + a[1..] && b == [b[0]] + b[1..];
    }
  }

  lemma StringOrderIsPreorder()
    ensures IsTotalPreorder(StringLeq)
  {
    forall a, b ensures StringLeq(a, b) || StringLeq(b, a) { StringOrderIsTotal(a, b); }
    forall a, b, c | StringLeq(a, b) && StringLeq(b, c) ensures StringLeq(a, c) { StringOrderIsTransitive(a, b, c); }
  }

  /** The strings agree up to here, where the first one ends or has the smaller code point. */
  predicate IsBelowAt(a: string, b: string, k: int) {
    0 <= k <= |a| && k < |b| && a[..k] == b[..k] && (k < |a| ==> a[k] < b[k])
  }

  ghost predicate IsBelow(a: string, b: string) {
    exists k :: IsBelowAt(a, b, k)
  }

  lemma {:induction false} BelowAt(a: string, b: string) returns (k: nat)
    requires StringLeq(a, b) && a != b
    ensures IsBelowAt(a, b, k)
  {
    if a == [] || a[0] != b[0] {
      k := 0;
    } else {
      assert a == [a[0]] + a[1..] && b == [b[0]] + b[1..];
      k := BelowAt(a[1..], b[1..]);
      assert a[..k + 1] == [a[0]] + a[1..][..k] && b[..k + 1] == [b[0]] + b[1..][..k];
      k := k + 1;
    }
  }

  lemma {:induction false} BelowIsLeq(a: string, b: string, k: nat)
    requires IsBelowAt(a, b, k)
    ensures StringLeq(a, b) && a != b
  {
    if k > 0 {
      assert a[0] == a[..k][0] && b[0] == b[..k][0];
      assert a[1..][..k - 1] == a[..k][1..] && b[1..][..k - 1] == b[..k][1..];
      BelowIsLeq(a[1..], b[1..], k - 1);
    }
  }

  /** Code-point order. */
  lemma {:induction false} StringLeqExactly(a: string, b: string)
    ensures StringLeq(a, b) <==> a == b || IsBelow(a, b)
    ensures IsBelow(a, b) ==> a != b
  {
    if a == b {
      StringOrderIsTotal(a, b);
    } else if StringLeq(a, b) {
      var k := BelowAt(a, b);
    }
    if k :| IsBelowAt(a, b, k) {
      BelowIsLeq(a, b, k);
    }
  }

  /** Sorting a list of strings forgets its order. */
  lemma StringsSortAlike(xs: seq<string>, ys: seq<string>)
    requires multiset(xs) == multiset(ys)
    ensures SortBy(xs, StringLeq) == SortBy(ys, StringLeq)
  {
    StringOrderIsPreorder();
    forall a, b | a in xs && b in xs && StringLeq(a, b) && StringLeq(b, a) ensures a == b { StringOrderIsStrict(a, b); }
    SortForgetsOrder(xs, ys, StringLeq);
  }
}
