/** The recipient list: the EMAIL_TO loop of `Load` (internal/config/config.go) and the To header that joins it again.
    */
module Recipients {
  import opened Basics
  import opened Text

  /** Unicode's White_Space property, as unicode.IsSpace has it. */
  predicate IsSpace(c: char): (space: bool)
    ensures c in "\t\n\r " ==> space
    ensures 33 <= c as int <= 126 ==> !space
  {
    var n := c as int;
    9 <= n <= 13 || n == 32 || n == 133 || n == 160 || n == 5760 || 8192 <= n <= 8202 || n == 8232 || n == 8233
    || n == 8239 || n == 8287 || n == 12288
  }

  predicate Trimmed(s: string) {
    s == "" || (!IsSpace(s[0]) && !IsSpace(s[|s| - 1]))
  }

  /** strings.TrimSpace */
  function TrimSpace(s: string): (t: string)
    ensures Trimmed(t)
    ensures forall c | c in t :: c in s
    decreases |s|
  {
    if s == "" then ""
    else if IsSpace(s[0]) then TrimSpace(s[1..])
    else if IsSpace(s[|s| - 1]) then TrimSpace(s[..|s| - 1])
    else s
  }

  /** Trimming removes white space at both ends and nothing else. */
  lemma {:induction false} TrimRemovesOnlySpace(s: string) returns (i: nat, j: nat)
    ensures i <= j <= |s| && TrimSpace(s) == s[i..j]
    ensures forall k | 0 <= k < |s| && !(i <= k < j) :: IsSpace(s[k])
    decreases |s|
  {
    if s == "" {
      i, j := 0, 0;
    } else if IsSpace(s[0]) {
      i, j := TrimRemovesOnlySpace(s[1..]);
      i, j := i + 1, j + 1;
      assert forall k | 0 < k < |s| :: s[k] == s[1..][k - 1];
    } else if IsSpace(s[|s| - 1]) {
      i, j := TrimRemovesOnlySpace(s[..|s| - 1]);
    } else {
      i, j := 0, |s|;
    }
  }

  /** An address the loop can yield: not empty, no comma, no white space at either end. */
  predicate IsRecipient(r: string) {
    r != "" && Trimmed(r) && ',' !in r
  }

  function KeptPart(part: string): seq<string> {
    if TrimSpace(part) == "" then [] else [TrimSpace(part)]
  }

  /** What the loop keeps of the parts. */
  function Kept(parts: seq<string>): seq<string> {
    if parts == [] then []
    else
      var n := |parts| - 1;
      Kept(parts[..n]) + KeptPart(parts[n])
  }

  function Loaded(v: string): seq<string> {
    Kept(Split(v, ','))
  }

  /** The loop itself: split at commas, trim, skip what is empty. Every entry is a recipient. */
  method LoadRecipients(v: string) returns (recipients: seq<string>)
    ensures recipients == Loaded(v)
    ensures forall r | r in recipients :: IsRecipient(r)
  {
    var parts := Split(v, ',');
    SplitPartsLackSeparator(v, ',');
    recipients := [];
    for n := 0 to |parts|
      invariant recipients == Kept(parts[..n])
      invariant forall r | r in recipients :: IsRecipient(r)
    {
      assert parts[..n + 1][..n] == parts[..n];
      var trimmed := TrimSpace(parts[n]);
      assert parts[n] in parts;
      if trimmed != "" {
        recipients := recipients + [trimmed];
      }
    }
    assert parts[..|parts|] == parts;
  }

  // ----- the round trip

  /** The parts of a joined list: each after the first carries the space that `Join` put in front of it. */
  function Spaced(xs: seq<string>): seq<string> {
    if xs == [] then [] else [" " + xs[0]] + Spaced(xs[1..])
  }

  lemma {:induction false} SplitOfJoin(xs: seq<string>, prefix: string)
    requires xs != [] && ',' !in prefix && forall x | x in xs :: ',' !in x
    ensures Split(prefix + Join(xs, ", "), ',') == [prefix + xs[0]] + Spaced(xs[1..])
    decreases |xs|
  {
    var first := prefix + xs[0];
    if |xs| == 1 {
      SplitOff(first, ',', "");
    } else {
      var rest := " " + Join(xs[1..], ", ");
      assert prefix + Join(xs, ", ") == first + [','] + rest;
      SplitOff(first, ',', rest);
      SplitOfJoin(xs[1..], " ");
      assert [" " + xs[1..][0]] + Spaced(xs[1..][1..]) == Spaced(xs[1..]);
    }
  }

  lemma TrimOfSpaced(x: string)
    requires IsRecipient(x)
    ensures TrimSpace(x) == x && TrimSpace(" " + x) == x
  {
    assert (" " + x)[1..] == x;
  }

  lemma KeptGrows(parts: seq<string>, part: string)
    ensures Kept(parts + [part]) == Kept(parts) + KeptPart(part)
  {
    assert (parts + [part])[..|parts|] == parts;
  }

  lemma {:induction false} KeptConcat(a: seq<string>, b: seq<string>)
    ensures Kept(a + b) == Kept(a) + Kept(b)
    decreases |b|
  {
    if b == [] {
      assert a + b == a;
      assert Kept(b) == [];
    } else {
      var n := |b| - 1;
      var front, last := b[..n], b[n];
      assert b == front + [last];
      KeptConcat(a, front);
      KeptGrows(front, last);
      Associative(a, front, [last]);
      KeptGrows(a + front, last);
      Associative(Kept(a), Kept(front), KeptPart(last));
    }
  }

  lemma KeptOne(part: string, x: string)
    requires TrimSpace(part) == x != ""
    ensures Kept([part]) == [x]
  {
    assert [part][..0] == [];
  }

  lemma {:induction false} KeptOfSpaced(xs: seq<string>)
    requires forall x | x in xs :: IsRecipient(x)
    ensures Kept(Spaced(xs)) == xs
  {
    if xs != [] {
      KeptOfSpaced(xs[1..]);
      TrimOfSpaced(xs[0]);
      KeptOne(" " + xs[0], xs[0]);
      KeptConcat([" " + xs[0]], Spaced(xs[1..]));
      assert [xs[0]] + xs[1..] == xs;
    }
  }

  lemma LoadOfJoined(xs: seq<string>)
    requires xs != [] && forall x | x in xs :: IsRecipient(x)
    ensures Loaded(Join(xs, ", ")) == xs
  {
    var first, rest := xs[0], xs[1..];
    assert xs == [first] + rest;
    SplitOfJoin(xs, "");
    assert "" + Join(xs, ", ") == Join(xs, ", ") && "" + first == first;
    KeptConcat([first], Spaced(rest));
    KeptOfSpaced(rest);
    TrimOfSpaced(first);
    KeptOne(first, first);
  }

  /** Joining with ", ", as the To header does, and loading again returns a list exactly when it is a list that loading
      can yield. */
  lemma LoadUndoesJoin(xs: seq<string>)
    ensures Loaded(Join(xs, ", ")) == xs <==> forall x | x in xs :: IsRecipient(x)
  {
    if forall x | x in xs :: IsRecipient(x) {
      if xs == [] {
        NothingIsLoadedFromNothing();
      } else {
        LoadOfJoined(xs);
      }
    } else {
      LoadedAreRecipients(Join(xs, ", "));
    }
  }

  lemma NothingIsLoadedFromNothing()
    ensures Loaded("") == []
  {
    assert [""][..0] == [];
  }

  lemma {:induction false} KeptAreRecipients(parts: seq<string>)
    requires forall p | p in parts :: ',' !in p
    ensures forall r | r in Kept(parts) :: IsRecipient(r)
  {
    if parts != [] {
      var n := |parts| - 1;
      KeptAreRecipients(parts[..n]);
      assert parts[n] in parts;
    }
  }

  lemma LoadedAreRecipients(v: string)
    ensures forall r | r in Loaded(v) :: IsRecipient(r)
  {
    SplitPartsLackSeparator(v, ',');
    KeptAreRecipients(Split(v, ','));
  }

  /** Writing a loaded list into the To header and reading it back changes nothing, whatever EMAIL_TO was. */
  lemma LoadIsStable(v: string)
    ensures Loaded(Join(Loaded(v), ", ")) == Loaded(v)
  {
    LoadedAreRecipients(v);
    LoadUndoesJoin(Loaded(v));
  }

  // ----- what each part of EMAIL_TO becomes

  predicate Blank(s: string) {
    forall i | 0 <= i < |s| :: IsSpace(s[i])
  }

  /** A part between commas: nothing but white space, or an address with white space around it. */
  datatype Piece = Gap(spaces: string) | Padded(left: string, address: string, right: string)

  predicate IsPiece(p: Piece) {
    match p
    case Gap(spaces) => Blank(spaces)
    case Padded(left, address, right) => Blank(left) && IsRecipient(address) && Blank(right)
  }

  function TextOf(p: Piece): string {
    match p
    case Gap(spaces) => spaces
    case Padded(left, address, right) => left + address + right
  }

  function TextsOf(pieces: seq<Piece>): seq<string> {
    seq(|pieces|, i requires 0 <= i < |pieces| => TextOf(pieces[i]))
  }

  function Addresses(pieces: seq<Piece>): seq<string> {
    if pieces == [] then []
    else
      var n := |pieces| - 1;
      Addresses(pieces[..n]) + if pieces[n].Padded? then [pieces[n].address] else []
  }

  lemma {:induction false} TrimBlank(s: string)
    requires Blank(s)
    ensures TrimSpace(s) == ""
  {
    if s != "" {
      TrimBlank(s[1..]);
    }
  }

  lemma {:induction false} TrimRight(a: string, right: string)
    requires IsRecipient(a) && Blank(right)
    ensures TrimSpace(a + right) == a
  {
    if right == "" {
      assert a + right == a;
    } else {
      var n := |right| - 1;
      assert (a + right)[..|a + right| - 1] == a + right[..n];
      TrimRight(a, right[..n]);
    }
  }

  lemma {:induction false} TrimBoth(left: string, a: string, right: string)
    requires Blank(left) && IsRecipient(a) && Blank(right)
    ensures TrimSpace(left + a + right) == a
  {
    if left == "" {
      assert left + a + right == a + right;
      TrimRight(a, right);
    } else {
      assert (left + a + right)[1..] == left[1..] + a + right;
      TrimBoth(left[1..], a, right);
    }
  }

  lemma PieceIsKept(p: Piece)
    requires IsPiece(p)
    ensures KeptPart(TextOf(p)) == if p.Padded? then [p.address] else []
    ensures ',' !in TextOf(p)
  {
    match p
    case Gap(spaces) => TrimBlank(spaces);
    case Padded(left, address, right) => TrimBoth(left, address, right);
  }

  lemma TextsGrow(pieces: seq<Piece>)
    requires pieces != []
    ensures TextsOf(pieces) == TextsOf(pieces[..|pieces| - 1]) + [TextOf(pieces[|pieces| - 1])]
  {
  }

  lemma {:induction false} PiecesAreKept(pieces: seq<Piece>)
    requires forall i | 0 <= i < |pieces| :: IsPiece(pieces[i])
    ensures Kept(TextsOf(pieces)) == Addresses(pieces)
    ensures forall t | t in TextsOf(pieces) :: ',' !in t
  {
    if pieces != [] {
      var n := |pieces| - 1;
      PiecesAreKept(pieces[..n]);
      PieceIsKept(pieces[n]);
      TextsGrow(pieces);
      KeptGrows(TextsOf(pieces[..n]), TextOf(pieces[n]));
    }
  }

  /** White space around an address does not matter, and blank parts count for nothing: a list written in any of these
      ways loads to its addresses, in order. */
  lemma PaddingDoesNotMatter(pieces: seq<Piece>)
    requires pieces != [] && forall i | 0 <= i < |pieces| :: IsPiece(pieces[i])
    ensures Loaded(Join(TextsOf(pieces), ",")) == Addresses(pieces)
  {
    PiecesAreKept(pieces);
    SplitUndoesJoin(TextsOf(pieces), ',');
  }

  lemma PieceOf(part: string) returns (p: Piece)
    requires ',' !in part
    ensures IsPiece(p) && TextOf(p) == part
  {
    var i, j := TrimRemovesOnlySpace(part);
    if TrimSpace(part) == "" {
      p := Gap(part);
    } else {
      p := Padded(part[..i], part[i..j], part[j..]);
      assert part == part[..i] + part[i..j] + part[j..];
    }
  }

  lemma {:induction false} PiecesOf(parts: seq<string>) returns (pieces: seq<Piece>)
    requires forall p | p in parts :: ',' !in p
    ensures TextsOf(pieces) == parts && forall i | 0 <= i < |pieces| :: IsPiece(pieces[i])
  {
    pieces := [];
    if parts != [] {
      var n := |parts| - 1;
      var front := PiecesOf(parts[..n]);
      assert parts[n] in parts;
      var last := PieceOf(parts[n]);
      pieces := front + [last];
      assert parts == parts[..n] + [parts[n]];
    }
  }

  /** Every EMAIL_TO is such a list, so this says what is loaded from any value at all. */
  lemma EveryValueIsPieces(v: string) returns (pieces: seq<Piece>)
    ensures pieces != [] && forall i | 0 <= i < |pieces| :: IsPiece(pieces[i])
    ensures v == Join(TextsOf(pieces), ",") && Loaded(v) == Addresses(pieces)
  {
    SplitPartsLackSeparator(v, ',');
    pieces := PiecesOf(Split(v, ','));
    SplitLosesNothing(v, ',');
    PaddingDoesNotMatter(pieces);
  }
}
