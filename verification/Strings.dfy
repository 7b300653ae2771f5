/** Splitting and joining on a separator character, and trimming. */
module Strings {
  import opened Common

  /** The part after the first occurrence of a character that occurs. */
  function After(s: string, stop: char): string
    requires stop in s
  {
    s[|Before(s, stop)| + 1..]
  }

  /** Python's split on one character: always at least one part. */
  function Split(s: string, sep: char): (parts: seq<string>)
    ensures parts != [] && forall p :: p in parts ==> sep !in p
    decreases |s|
  {
    if sep !in s then [s] else [Before(s, sep)] + Split(After(s, sep), sep)
  }

  function Join(parts: seq<string>, sep: char): string
    requires parts != []
  {
    if |parts| == 1 then parts[0] else parts[0] + [sep] + Join(parts[1..], sep)
  }

  lemma {:induction false} BeforeOfConcat(a: string, b: string, sep: char)
    requires sep !in a
    ensures Before(a + [sep] + b, sep) == a
  {
    if a != [] {
      assert (a + [sep] + b)[1..] == a[1..] + [sep] + b;
      BeforeOfConcat(a[1..], b, sep);
    }
  }

  lemma {:induction false} JoinOfConcat(a: seq<string>, b: seq<string>, sep: char)
    requires a != [] && b != []
    ensures Join(a + b, sep) == Join(a, sep) + [sep] + Join(b, sep)
  {
    assert (a + b)[1..] == a[1..] + b;
    if |a| > 1 {
      JoinOfConcat(a[1..], b, sep);
    }
  }

  lemma {:induction false} JoinOfSplit(s: string, sep: char)
    ensures Join(Split(s, sep), sep) == s
    decreases |s|
  {
    if sep in s {
      JoinOfSplit(After(s, sep), sep);
      var parts := Split(s, sep);
      assert parts[1..] == Split(After(s, sep), sep);
      assert s == Before(s, sep) + [sep] + After(s, sep);
    }
  }

  lemma SplitAtFirst(head: string, rest: string, sep: char)
    requires sep !in head
    ensures Split(head + [sep] + rest, sep) == [head] + Split(rest, sep)
  {
    var s := head + [sep] + rest;
    assert s[|head|] == sep;
    BeforeOfConcat(head, rest, sep);
    assert After(s, sep) == rest;
  }

  lemma CutAtFirst(s: string, sep: char)
    requires sep in s
    ensures s == Before(s, sep) + [sep] + After(s, sep) && sep !in Before(s, sep)
  {
  }

  lemma Regroup<T>(a: seq<T>, b: seq<T>, c: seq<T>, d: seq<T>, e: seq<T>)
    ensures a + b + c + d + e == a + b + (c + d + e)
  {
  }

  lemma {:induction false} SplitOfConcat(a: string, b: string, sep: char)
    ensures Split(a + [sep] + b, sep) == Split(a, sep) + Split(b, sep)
    decreases |a|
  {
    if sep !in a {
      SplitAtFirst(a, b, sep);
    } else {
      var head, rest := Before(a, sep), After(a, sep);
      CutAtFirst(a, sep);
      SplitOfConcat(rest, b, sep);
      SplitAtFirst(head, rest + [sep] + b, sep);
      Regroup(head, [sep], rest, [sep], b);
      Regroup([], [head], Split(rest, sep), Split(b, sep), []);
    }
  }

  /** Parts without the separator survive joining and splitting. */
  lemma {:induction false} SplitOfJoin(parts: seq<string>, sep: char)
    requires parts != [] && forall p :: p in parts ==> sep !in p
    ensures Split(Join(parts, sep), sep) == parts
  {
    if |parts| > 1 {
      SplitOfJoin(parts[1..], sep);
      SplitAtFirst(parts[0], Join(parts[1..], sep), sep);
    }
  }

  lemma JoinOfTwo(a: string, b: string, sep: char)
    ensures Join([a, b], sep) == a + [sep] + b
  {
    assert [a, b][1..] == [b];
  }

  lemma JoinOfFive(a: string, b: string, c: string, d: string, e: string, sep: char)
    ensures Join([a, b, c, d, e], sep) == a + [sep] + b + [sep] + c + [sep] + d + [sep] + e
  {
    JoinOfTwo(a, b, sep);
    assert [a, b, c] == [a, b] + [c] && [a, b, c, d] == [a, b, c] + [d] && [a, b, c, d, e] == [a, b, c, d] + [e];
    JoinOfConcat([a, b], [c], sep);
    JoinOfConcat([a, b, c], [d], sep);
    JoinOfConcat([a, b, c, d], [e], sep);
  }

  /** Python's white space. */
  predicate IsSpace(c: char) {
    var code := c as int;
    || 9 <= code <= 13 || 28 <= code <= 32 || code == 0x85 || code == 0xA0 || code == 0x1680
    || 0x2000 <= code <= 0x200A || code == 0x2028 || code == 0x2029
    || code == 0x202F || code == 0x205F || code == 0x3000
  }

  function TrimLeft(s: string): string {
    if s != [] && IsSpace(s[0]) then TrimLeft(s[1..]) else s
  }

  function TrimRight(s: string): string {
    if s != [] && IsSpace(s[|s| - 1]) then TrimRight(s[..|s| - 1]) else s
  }

  function Trim(s: string): string {
    TrimRight(TrimLeft(s))
  }

  predicate IsBlank(s: string) {
    forall c :: c in s ==> IsSpace(c)
  }

  lemma {:induction false} TrimLeftExactly(s: string) returns (left: string)
    ensures s == left + TrimLeft(s) && IsBlank(left)
    ensures TrimLeft(s) != [] ==> !IsSpace(TrimLeft(s)[0])
  {
    left := [];
    if s != [] && IsSpace(s[0]) {
      left := TrimLeftExactly(s[1..]);
      left := [s[0]] + left;
    }
  }

  lemma {:induction false} TrimRightExactly(s: string) returns (right: string)
    ensures s == TrimRight(s) + right && IsBlank(right)
    ensures TrimRight(s) != [] ==> TrimRight(s)[0] == s[0] && !IsSpace(TrimRight(s)[|TrimRight(s)| - 1])
  {
    right := [];
    if s != [] && IsSpace(s[|s| - 1]) {
      right := TrimRightExactly(s[..|s| - 1]);
      right := right + [s[|s| - 1]];
    }
  }

  /** Trimming takes blanks off both ends, and all of them. */
  lemma {:induction false} TrimExactly(s: string) returns (left: string, right: string)
    ensures s == left + Trim(s) + right && IsBlank(left) && IsBlank(right)
    ensures Trim(s) != [] ==> !IsSpace(Trim(s)[0]) && !IsSpace(Trim(s)[|Trim(s)| - 1])
  {
    left := TrimLeftExactly(s);
    right := TrimRightExactly(TrimLeft(s));
  }

  /** The key has this name: the text up to its first colon. */
  predicate IsKeyOf(key: string, name: string) {
    key == name || name + ":" <= key
  }

  lemma {:induction false} BeforeExactly(key: string, name: string)
    requires ':' !in name
    ensures Before(key, ':') == name <==> IsKeyOf(key, name)
  {
    var head := Before(key, ':');
    if head == name && |head| != |key| {
      assert key[..|head| + 1] == head + ":";
    }
    if name + ":" <= key {
      assert key == name + ":" + key[|name| + 1..];
      BeforeOfConcat(name, key[|name| + 1..], ':');
    }
  }

  /** The category an insight key names: a leading demo_ is dropped from the part before the first colon. */
  function CategoryName(key: string): string {
    var base := Before(key, ':');
    if "demo_" <= base then base[5..] else base
  }
}
