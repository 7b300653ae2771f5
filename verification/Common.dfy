/** Small shared vocabulary: an optional value, and totals over a list. */
module Common {

  datatype Option<+T> = None | Some(value: T)

  /** Total of a measure over a list; every count in the model is such a total. */
  function Total<T>(xs: seq<T>, measure: T -> nat): nat {
    if xs == [] then 0 else measure(xs[0]) + Total(xs[1..], measure)
  }

  lemma {:induction false} TotalOfConcat<T>(xs: seq<T>, ys: seq<T>, measure: T -> nat)
    ensures Total(xs + ys, measure) == Total(xs, measure) + Total(ys, measure)
  {
    if xs == [] {
      assert xs + ys == ys;
    } else {
      assert (xs + ys)[1..] == xs[1..] + ys;
      TotalOfConcat(xs[1..], ys, measure);
    }
  }

  lemma Around<T>(xs: seq<T>, k: nat)
    requires k < |xs|
    ensures xs == xs[..k] + [xs[k]] + xs[k + 1..]
  {
  }

  lemma WithoutOne<T>(xs: seq<T>, x: T) returns (before: seq<T>, after: seq<T>)
    requires x in multiset(xs)
    ensures xs == before + [x] + after && multiset(before + after) == multiset(xs) - multiset{x}
  {
    var at :| 0 <= at < |xs| && xs[at] == x;
    before, after := xs[..at], xs[at + 1..];
    assert xs == before + [x] + after;
  }

  lemma TotalOfInsertion<T>(before: seq<T>, x: T, after: seq<T>, measure: T -> nat)
    ensures Total(before + [x] + after, measure) == measure(x) + Total(before + after, measure)
  {
    TotalOfConcat(before + [x], after, measure);
    TotalOfConcat(before, [x], measure);
    TotalOfConcat(before, after, measure);
    assert [x][1..] == [];
  }

  /** A total depends only on which elements occur how often, and grows with them. */
  lemma {:induction false} TotalMonotone<T>(few: seq<T>, many: seq<T>, measure: T -> nat)
    requires multiset(few) <= multiset(many)
    ensures Total(few, measure) <= Total(many, measure)
  {
    if few != [] {
      assert few == [few[0]] + few[1..];
      assert few[0] in multiset(few);
      var before, after := WithoutOne(many, few[0]);
      TotalMonotone(few[1..], before + after, measure);
      TotalOfInsertion(before, few[0], after, measure);
    }
  }

  lemma {:induction false} TotalPointwise<T>(xs: seq<T>, low: T -> nat, high: T -> nat)
    requires forall x :: x in xs ==> low(x) <= high(x)
    ensures Total(xs, low) <= Total(xs, high)
  {
    if xs != [] {
      TotalPointwise(xs[1..], low, high);
    }
  }

  lemma {:induction false} TotalPositive<T>(xs: seq<T>, x: T, measure: T -> nat)
    requires x in xs
    ensures Total(xs, measure) >= measure(x)
  {
    if xs[0] != x {
      TotalPositive(xs[1..], x, measure);
    }
  }

  /** The elements that satisfy a predicate, in order. */
  function Filter<T(!new)>(xs: seq<T>, keep: T -> bool): (ys: seq<T>)
    ensures forall y :: y in ys <==> y in xs && keep(y)
  {
    if xs == [] then []
    else if keep(xs[0]) then [xs[0]] + Filter(xs[1..], keep)
    else Filter(xs[1..], keep)
  }

  lemma {:induction false} FilterOfConcat<T(!new)>(xs: seq<T>, ys: seq<T>, keep: T -> bool)
    ensures Filter(xs + ys, keep) == Filter(xs, keep) + Filter(ys, keep)
  {
    if xs == [] {
      assert xs + ys == ys;
    } else {
      assert (xs + ys)[1..] == xs[1..] + ys;
      FilterOfConcat(xs[1..], ys, keep);
    }
  }

  lemma {:induction false} FilterOfNone<T(!new)>(xs: seq<T>, keep: T -> bool)
    requires forall x :: x in xs ==> !keep(x)
    ensures Filter(xs, keep) == []
  {
    if xs != [] {
      FilterOfNone(xs[1..], keep);
    }
  }

  /** A measure that vanishes off a predicate can be totalled over the filtered list. */
  lemma {:induction false} TotalOfFilter<T(!new)>(xs: seq<T>, keep: T -> bool, measure: T -> nat)
    requires forall x :: x in xs && !keep(x) ==> measure(x) == 0
    ensures Total(Filter(xs, keep), measure) == Total(xs, measure)
  {
    if xs != [] {
      TotalOfFilter(xs[1..], keep, measure);
      if keep(xs[0]) {
        assert Filter(xs, keep)[1..] == Filter(xs[1..], keep);
      }
    }
  }

  function Map<T, U>(xs: seq<T>, f: T -> U): (r: seq<U>)
    ensures |r| == |xs| && forall k :: 0 <= k < |r| ==> r[k] == f(xs[k])
  {
    if xs == [] then [] else [f(xs[0])] + Map(xs[1..], f)
  }

  lemma {:induction false} MapOfConcat<T, U>(xs: seq<T>, ys: seq<T>, f: T -> U)
    ensures Map(xs + ys, f) == Map(xs, f) + Map(ys, f)
  {
    if xs == [] {
      assert xs + ys == ys;
    } else {
      assert (xs + ys)[1..] == xs[1..] + ys;
      MapOfConcat(xs[1..], ys, f);
    }
  }

  lemma MapOfInsertion<T, U>(before: seq<T>, x: T, after: seq<T>, f: T -> U)
    ensures multiset(Map(before + [x] + after, f)) == multiset(Map(before + after, f)) + multiset{f(x)}
  {
    MapOfConcat(before + [x], after, f);
    MapOfConcat(before, [x], f);
    MapOfConcat(before, after, f);
    assert Map([x], f) == [f(x)];
  }

  /** Reordering a list reorders its image. */
  lemma {:induction false} MapOfReordering<T, U>(xs: seq<T>, ys: seq<T>, f: T -> U)
    requires multiset(xs) == multiset(ys)
    ensures multiset(Map(xs, f)) == multiset(Map(ys, f))
  {
    if xs == [] {
      assert |multiset(ys)| == 0;
    } else {
      assert xs == [xs[0]] + xs[1..];
      assert xs[0] in multiset(xs);
      var before, after := WithoutOne(ys, xs[0]);
      MapOfReordering(xs[1..], before + after, f);
      MapOfInsertion(before, xs[0], after, f);
    }
  }

  lemma TotalOfNext<T>(xs: seq<T>, k: nat, measure: T -> nat)
    requires k < |xs|
    ensures Total(xs[..k + 1], measure) == Total(xs[..k], measure) + measure(xs[k])
  {
    assert xs[..k + 1] == xs[..k] + [xs[k]];
    TotalOfConcat(xs[..k], [xs[k]], measure);
  }

  /** The places of a list at which something holds. */
  function Places<T>(xs: seq<T>, what: T -> bool): set<int> {
    set k | 0 <= k < |xs| && what(xs[k])
  }

  lemma PlacesOfNext<T>(xs: seq<T>, what: T -> bool)
    requires xs != []
    ensures |Places(xs, what)| == |Places(xs[..|xs| - 1], what)| + if what(xs[|xs| - 1]) then 1 else 0
  {
    var last := |xs| - 1;
    assert Places(xs, what) == Places(xs[..last], what) + if what(xs[last]) then {last} else {};
  }

  /** A total of marks is a number of places. */
  lemma {:induction false} TotalIsPlaces<T>(xs: seq<T>, mark: T -> nat, what: T -> bool)
    requires forall x :: x in xs ==> mark(x) == if what(x) then 1 else 0
    ensures Total(xs, mark) == |Places(xs, what)|
  {
    if xs != [] {
      var last := |xs| - 1;
      TotalIsPlaces(xs[..last], mark, what);
      TotalOfNext(xs, last, mark);
      assert xs[..last + 1] == xs;
      PlacesOfNext(xs, what);
    }
  }

  lemma Two(places: set<int>, j: int, k: int)
    requires j in places && k in places && j != k
    ensures |places| >= 2
  {
    assert places == {j, k} + (places - {j, k});
  }

  /** A place counts once wherever it is, and two places are two only when they differ. */
  lemma {:induction false} PlacesExactly<T>(xs: seq<T>, what: T -> bool)
    ensures |Places(xs, what)| >= 1 <==> exists k :: 0 <= k < |xs| && what(xs[k])
    ensures |Places(xs, what)| >= 2 <==> exists j, k :: 0 <= j < k < |xs| && what(xs[j]) && what(xs[k])
  {
    var places := Places(xs, what);
    if |places| >= 1 {
      var k :| k in places;
      assert what(xs[k]);
      if |places| >= 2 {
        assert |places - {k}| >= 1;
        var j :| j in places - {k};
        assert what(xs[if j < k then j else k]) && what(xs[if j < k then k else j]);
      }
    }
    if j, k :| 0 <= j < k < |xs| && what(xs[j]) && what(xs[k]) {
      Two(places, j, k);
    }
    if k :| 0 <= k < |xs| && what(xs[k]) {
      assert k in places;
    }
  }

  /** The part of a string before the first occurrence of a character, or all of it. */
  function Before(s: string, stop: char): (r: string)
    ensures stop !in r && r <= s
    ensures |r| == |s| || s[|r|] == stop
  {
    if s == [] || s[0] == stop then [] else [s[0]] + Before(s[1..], stop)
  }
}
