/** Go's string order, the library sorts, and why a map's iteration order cannot show in a sorted result. */
module Ordering {

  /** The order of `<` on strings. Go compares bytes; on UTF-8 text that is the order of the code points. */
  predicate Less(a: string, b: string) {
    b != "" && (a == "" || a[0] < b[0] || (a[0] == b[0] && Less(a[1..], b[1..])))
  }

  lemma {:induction false} LessIsAsymmetric(a: string, b: string)
    ensures Less(a, b) ==> !Less(b, a)
  {
    if a != "" && b != "" {
      LessIsAsymmetric(a[1..], b[1..]);
    }
  }

  lemma {:induction false} LessIsTotal(a: string, b: string)
    ensures Less(a, b) || Less(b, a) || a == b
  {
    if a != "" && b != "" {
      LessIsTotal(a[1..], b[1..]);
      assert a == [a[0]] + a[1..] && b == [b[0]] + b[1..];
    }
  }

  lemma {:induction false} LessIsTransitive(a: string, b: string, c: string)
    requires Less(a, b) && Less(b, c)
    ensures Less(a, c)
  {
    if a != "" && a[0] == b[0] == c[0] {
      LessIsTransitive(a[1..], b[1..], c[1..]);
    }
  }

  function Elements<T>(s: seq<T>): set<T> {
    set x | x in s
  }

  /** Every earlier element stands before every later one. */
  ghost predicate Arranged<T>(s: seq<T>, before: (T, T) -> bool) {
    forall i, j | 0 <= i < j < |s| :: before(s[i], s[j])
  }

  ghost predicate Asymmetric<T(!new)>(before: (T, T) -> bool) {
    forall a, b :: before(a, b) ==> !before(b, a)
  }

  /** A set has at most one arrangement. */
  lemma {:induction false} ArrangementIsUnique<T(!new)>(s: seq<T>, t: seq<T>, before: (T, T) -> bool)
    requires Asymmetric(before) && Arranged(s, before) && Arranged(t, before)
    requires Elements(s) == Elements(t)
    ensures s == t
  {
    assert t != [] ==> t[0] in Elements(t);
    if s != [] {
      assert s[0] in Elements(t);
      var i :| 0 <= i < |t| && t[i] == s[0];
      assert t[0] in Elements(s);
      var j :| 0 <= j < |s| && s[j] == t[0];
      assert s[0] == t[0] by {
        if i > 0 && j > 0 {
          assert false;
        }
      }
      TailElements(s, before);
      TailElements(t, before);
      ArrangementIsUnique(s[1..], t[1..], before);
      assert s == [s[0]] + s[1..] && t == [t[0]] + t[1..];
    }
  }

  lemma TailElements<T(!new)>(s: seq<T>, before: (T, T) -> bool)
    requires s != [] && Asymmetric(before) && Arranged(s, before)
    ensures Elements(s[1..]) == Elements(s) - {s[0]}
    ensures Arranged(s[1..], before)
  {
    forall x | x in s[1..] ensures x != s[0] {
      var k :| 0 < k < |s| && s[k] == x;
      assert before(s[0], s[k]);
    }
  }

  // ----- the library's sort

  function Insert<T>(x: T, s: seq<T>, key: T -> string): seq<T> {
    if s == [] || Less(key(x), key(s[0])) then [x] + s else [s[0]] + Insert(x, s[1..], key)
  }

  /** sort.Strings and sort.Slice: sorted by `key`. */
  function SortBy<T>(s: seq<T>, key: T -> string): seq<T> {
    if s == [] then [] else Insert(s[0], SortBy(s[1..], key), key)
  }

  ghost predicate Ascending<T>(s: seq<T>, key: T -> string) {
    forall i, j | 0 <= i < j < |s| :: Less(key(s[i]), key(s[j]))
  }

  ghost predicate DistinctBy<T>(s: seq<T>, key: T -> string) {
    forall i, j | 0 <= i < j < |s| :: key(s[i]) != key(s[j])
  }

  lemma {:induction false} InsertElements<T>(x: T, s: seq<T>, key: T -> string)
    ensures multiset(Insert(x, s, key)) == multiset(s) + multiset{x}
  {
    if s != [] && !Less(key(x), key(s[0])) {
      InsertElements(x, s[1..], key);
      assert s == [s[0]] + s[1..];
    }
  }

  lemma {:induction false} InsertAscends<T>(x: T, s: seq<T>, key: T -> string)
    requires Ascending(s, key) && forall y | y in s :: key(y) != key(x)
    ensures Ascending(Insert(x, s, key), key)
  {
    var r := Insert(x, s, key);
    if s == [] {
    } else if Less(key(x), key(s[0])) {
      forall j | 0 <= j < |s| ensures Less(key(x), key(s[j])) {
        if j > 0 {
          LessIsTransitive(key(x), key(s[0]), key(s[j]));
        }
      }
    } else {
      var tail := Insert(x, s[1..], key);
      InsertAscends(x, s[1..], key);
      InsertElements(x, s[1..], key);
      LessIsTotal(key(x), key(s[0]));
      forall j | 0 <= j < |tail| ensures Less(key(s[0]), key(tail[j])) {
        assert tail[j] in multiset(tail);
        if tail[j] != x {
          assert tail[j] in s[1..];
        }
      }
    }
  }

  /** The sort keeps every element with its count; with distinct keys the result ascends strictly. */
  lemma {:induction false} SortByCorrect<T>(s: seq<T>, key: T -> string)
    ensures multiset(SortBy(s, key)) == multiset(s)
    ensures DistinctBy(s, key) ==> Ascending(SortBy(s, key), key)
  {
    if s != [] {
      SortByCorrect(s[1..], key);
      var sorted := SortBy(s[1..], key);
      InsertElements(s[0], sorted, key);
      assert s == [s[0]] + s[1..];
      if DistinctBy(s, key) {
        forall y | y in sorted ensures key(y) != key(s[0]) {
          assert y in multiset(s[1..]);
        }
        InsertAscends(s[0], sorted, key);
      }
    }
  }
}
