/** The few string functions of Go's standard library that the modelled code relies on. */
module Text {

  /** strings.Join */
  function Join(parts: seq<string>, sep: string): string {
    if parts == [] then ""
    else if |parts| == 1 then parts[0]
    else parts[0] + sep + Join(parts[1..], sep)
  }

  /** The position of the first `c`, or the length. */
  function IndexOf(s: string, c: char): (i: nat)
    ensures i <= |s|
    ensures i < |s| ==> s[i] == c
    ensures forall j | 0 <= j < i :: s[j] != c
  {
    if s == "" then 0 else if s[0] == c then 0 else 1 + IndexOf(s[1..], c)
  }

  lemma {:induction false} IndexOfFirst(s: string, c: char, rest: string)
    requires c !in s
    ensures IndexOf(s + [c] + rest, c) == |s|
  {
    if s != "" {
      assert (s + [c] + rest)[1..] == s[1..] + [c] + rest;
      IndexOfFirst(s[1..], c, rest);
    }
  }

  /** strings.Split with a one-character separator */
  function Split(s: string, c: char): (parts: seq<string>)
    ensures parts != []
    decreases |s|
  {
    var i := IndexOf(s, c);
    if i == |s| then [s] else [s[..i]] + Split(s[i + 1..], c)
  }

  lemma {:induction false} SplitOff(s: string, c: char, rest: string)
    requires c !in s
    ensures Split(s, c) == [s]
    ensures Split(s + [c] + rest, c) == [s] + Split(rest, c)
  {
    IndexOfFirst(s, c, rest);
    var all := s + [c] + rest;
    assert all[..|s|] == s && all[|s| + 1..] == rest;
  }

  lemma CutAt(s: string, i: nat)
    requires i < |s|
    ensures s == s[..i] + [s[i]] + s[i + 1..]
  {
  }

  lemma JoinCons(head: string, tail: seq<string>, sep: string)
    requires tail != []
    ensures Join([head] + tail, sep) == head + sep + Join(tail, sep)
  {
    assert ([head] + tail)[1..] == tail;
  }

  /** Splitting loses nothing: the parts with the separator between them are the string. */
  lemma {:induction false} SplitLosesNothing(s: string, c: char)
    ensures Join(Split(s, c), [c]) == s
    decreases |s|
  {
    var i := IndexOf(s, c);
    if i < |s| {
      SplitLosesNothing(s[i + 1..], c);
      JoinCons(s[..i], Split(s[i + 1..], c), [c]);
      CutAt(s, i);
    }
  }

  lemma {:induction false} SplitPartsLackSeparator(s: string, c: char)
    ensures forall p | p in Split(s, c) :: c !in p
    decreases |s|
  {
    var i := IndexOf(s, c);
    if i < |s| {
      SplitPartsLackSeparator(s[i + 1..], c);
    }
  }

  /** Splitting undoes joining for parts without the separator. */
  lemma {:induction false} SplitUndoesJoin(parts: seq<string>, c: char)
    requires parts != [] && forall p | p in parts :: c !in p
    ensures Split(Join(parts, [c]), c) == parts
  {
    if |parts| == 1 {
      SplitOff(parts[0], c, "");
    } else {
      SplitUndoesJoin(parts[1..], c);
      SplitOff(parts[0], c, Join(parts[1..], [c]));
      JoinCons(parts[0], parts[1..], [c]);
      assert parts == [parts[0]] + parts[1..];
    }
  }
}
