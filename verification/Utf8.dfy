/** UTF-8 (RFC 3629): what a Go string is made of. The length of a Go string counts these bytes. */
module Utf8 {
  import opened Basics
  import opened Ordering

  // ----- one code point

  /** The lowest six bits, as a continuation byte. */
  function Tail(n: nat): Byte {
    0x80 + n % 0x40
  }

  /** Section 3 of RFC 3629. */
  function EncodeChar(c: char): (b: seq<Byte>)
    ensures 1 <= |b| <= 4
  {
    var n := c as int;
    if n < 0x80 then [n]
    else if n < 0x800 then [0xC0 + n / 0x40, Tail(n)]
    else if n < 0x1_0000 then [0xE0 + n / 0x40 / 0x40, Tail(n / 0x40), Tail(n)]
    else [0xF0 + n / 0x40 / 0x40 / 0x40, Tail(n / 0x40 / 0x40), Tail(n / 0x40), Tail(n)]
  }

  predicate IsTail(b: Byte) {
    0x80 <= b < 0xC0
  }

  /** How many bytes the sequence that starts with `b` has, or 0 if none starts so. */
  function WidthFrom(b: Byte): nat {
    if b < 0x80 then 1 else if b < 0xC0 then 0 else if b < 0xE0 then 2 else if b < 0xF0 then 3
    else if b < 0xF8 then 4 else 0
  }

  /** The number with the six bits of one more continuation byte appended. */
  function Shift(n: nat, b: Byte): nat
    requires IsTail(b)
  {
    0x40 * n + (b as int - 0x80)
  }

  predicate IsSequence(b: seq<Byte>) {
    1 <= |b| <= 4 && |b| == WidthFrom(b[0]) && forall i | 1 <= i < |b| :: IsTail(b[i])
  }

  /** The number in the bits of a sequence. */
  function Bits(b: seq<Byte>): nat
    requires IsSequence(b)
  {
    var lead: int := b[0];
    if |b| == 1 then lead
    else if |b| == 2 then Shift(lead - 0xC0, b[1])
    else if |b| == 3 then Shift(Shift(lead - 0xE0, b[1]), b[2])
    else Shift(Shift(Shift(lead - 0xF0, b[1]), b[2]), b[3])
  }

  /** The smallest number that needs so many bytes. */
  function Smallest(width: nat): nat {
    if width <= 1 then 0 else if width == 2 then 0x80 else if width == 3 then 0x800 else 0x1_0000
  }

  predicate IsScalar(n: nat) {
    n < 0xD800 || 0xE000 <= n < 0x11_0000
  }

  /** Exactly one code point: the shortest form, no surrogate, nothing beyond U+10FFFF. */
  predicate IsOneChar(b: seq<Byte>) {
    IsSequence(b) && Smallest(|b|) <= Bits(b) && IsScalar(Bits(b))
  }

  function DecodeChar(b: seq<Byte>): char
    requires IsOneChar(b)
  {
    Bits(b) as char
  }

  lemma ShiftSplits(n: nat, b: Byte)
    requires IsTail(b)
    ensures Shift(n, b) / 0x40 == n && Tail(Shift(n, b)) == b
  {
  }

  lemma SplitShifts(n: nat)
    ensures IsTail(Tail(n)) && Shift(n / 0x40, Tail(n)) == n
  {
  }

  lemma DecodeCharUndoesEncode(c: char)
    ensures IsOneChar(EncodeChar(c)) && DecodeChar(EncodeChar(c)) == c
  {
    var n := c as int;
    SplitShifts(n);
    SplitShifts(n / 0x40);
    SplitShifts(n / 0x40 / 0x40);
  }

  lemma OneByteBack(b: seq<Byte>)
    requires IsOneChar(b) && |b| == 1
    ensures EncodeChar(DecodeChar(b)) == b
  {
  }

  lemma TwoBytesBack(b: seq<Byte>)
    requires IsOneChar(b) && |b| == 2
    ensures EncodeChar(DecodeChar(b)) == b
  {
    ShiftSplits(b[0] as int - 0xC0, b[1]);
  }

  lemma ThreeBytesBack(b: seq<Byte>)
    requires IsOneChar(b) && |b| == 3
    ensures EncodeChar(DecodeChar(b)) == b
  {
    var high := Shift(b[0] as int - 0xE0, b[1]);
    ShiftSplits(b[0] as int - 0xE0, b[1]);
    ShiftSplits(high, b[2]);
  }

  lemma FourBytesBack(b: seq<Byte>)
    requires IsOneChar(b) && |b| == 4
    ensures EncodeChar(DecodeChar(b)) == b
  {
    var high := Shift(b[0] as int - 0xF0, b[1]);
    var middle := Shift(high, b[2]);
    ShiftSplits(b[0] as int - 0xF0, b[1]);
    ShiftSplits(high, b[2]);
    ShiftSplits(middle, b[3]);
  }

  lemma EncodeCharUndoesDecode(b: seq<Byte>)
    requires IsOneChar(b)
    ensures EncodeChar(DecodeChar(b)) == b
  {
    if |b| == 1 {
      OneByteBack(b);
    } else if |b| == 2 {
      TwoBytesBack(b);
    } else if |b| == 3 {
      ThreeBytesBack(b);
    } else {
      FourBytesBack(b);
    }
  }

  // ----- strings

  function Encode(s: string): seq<Byte> {
    if s == "" then [] else EncodeChar(s[0]) + Encode(s[1..])
  }

  function Decode(b: seq<Byte>): Option<string>
    decreases |b|
  {
    if b == [] then Some("")
    else
      var w := WidthFrom(b[0]);
      if w == 0 || w > |b| || !IsOneChar(b[..w]) then None
      else
        var rest := Decode(b[w..]);
        if rest.None? then None else Some([DecodeChar(b[..w])] + rest.value)
  }

  lemma {:induction false} DecodeUndoesEncode(s: string)
    ensures Decode(Encode(s)) == Some(s)
  {
    if s != "" {
      var head, tail := EncodeChar(s[0]), Encode(s[1..]);
      DecodeCharUndoesEncode(s[0]);
      DecodeUndoesEncode(s[1..]);
      assert (head + tail)[..|head|] == head && (head + tail)[|head|..] == tail;
      assert s == [s[0]] + s[1..];
    }
  }

  lemma EncodeCons(c: char, s: string)
    ensures Encode([c] + s) == EncodeChar(c) + Encode(s)
  {
    assert ([c] + s)[1..] == s;
  }

  lemma DecodeHead(b: seq<Byte>) returns (w: nat)
    requires b != [] && Decode(b).Some?
    ensures 0 < w <= |b| && IsOneChar(b[..w]) && Decode(b[w..]).Some? && b == b[..w] + b[w..]
    ensures Decode(b).value == [DecodeChar(b[..w])] + Decode(b[w..]).value
  {
    w := WidthFrom(b[0]);
  }

  lemma {:induction false} EncodeUndoesDecode(b: seq<Byte>)
    requires Decode(b).Some?
    ensures Encode(Decode(b).value) == b
    decreases |b|
  {
    if b != [] {
      var w := DecodeHead(b);
      EncodeUndoesDecode(b[w..]);
      EncodeCharUndoesDecode(b[..w]);
      EncodeCons(DecodeChar(b[..w]), Decode(b[w..]).value);
    }
  }

  /** The bytes of a string are its one and only encoding, and nothing else decodes to it. */
  lemma DecodesExactly(b: seq<Byte>, s: string)
    ensures Decode(b) == Some(s) <==> b == Encode(s)
  {
    DecodeUndoesEncode(s);
    if Decode(b) == Some(s) {
      EncodeUndoesDecode(b);
    }
  }

  // ----- order

  /** `a` is the smaller one, decided at position `i`: it ends there or has the smaller byte. */
  ghost predicate BytesLessAt(a: seq<Byte>, b: seq<Byte>, i: nat) {
    i <= |a| && i < |b| && a[..i] == b[..i] && (i < |a| ==> a[i] < b[i])
  }

  /** Go's `<` on strings. */
  ghost predicate BytesLess(a: seq<Byte>, b: seq<Byte>) {
    exists i: nat :: BytesLessAt(a, b, i)
  }

  lemma DigitOrder(n: nat, m: nat)
    requires n < m
    ensures n / 0x40 < m / 0x40 || (n / 0x40 == m / 0x40 && Tail(n) < Tail(m))
  {
  }

  lemma TwoBytesOrder(c: char, d: char) returns (k: nat)
    requires c < d && |EncodeChar(c)| == 2 == |EncodeChar(d)|
    ensures k < 2 && BytesLessAt(EncodeChar(c), EncodeChar(d), k)
  {
    var n, m := c as int, d as int;
    DigitOrder(n, m);
    k := if n / 0x40 < m / 0x40 then 0 else 1;
  }

  lemma ThreeBytesOrder(c: char, d: char) returns (k: nat)
    requires c < d && |EncodeChar(c)| == 3 == |EncodeChar(d)|
    ensures k < 3 && BytesLessAt(EncodeChar(c), EncodeChar(d), k)
  {
    var n, m := c as int, d as int;
    DigitOrder(n, m);
    if n / 0x40 < m / 0x40 {
      DigitOrder(n / 0x40, m / 0x40);
      k := if n / 0x40 / 0x40 < m / 0x40 / 0x40 then 0 else 1;
    } else {
      k := 2;
    }
  }

  lemma FourBytesOrder(c: char, d: char) returns (k: nat)
    requires c < d && |EncodeChar(c)| == 4 == |EncodeChar(d)|
    ensures k < 4 && BytesLessAt(EncodeChar(c), EncodeChar(d), k)
  {
    var n, m := c as int, d as int;
    DigitOrder(n, m);
    k := 3;
    if n / 0x40 < m / 0x40 {
      DigitOrder(n / 0x40, m / 0x40);
      k := 2;
      if n / 0x40 / 0x40 < m / 0x40 / 0x40 {
        DigitOrder(n / 0x40 / 0x40, m / 0x40 / 0x40);
        k := if n / 0x40 / 0x40 / 0x40 < m / 0x40 / 0x40 / 0x40 then 0 else 1;
      }
    }
  }

  lemma CharOrder(c: char, d: char) returns (k: nat)
    requires c < d
    ensures k < |EncodeChar(c)| && BytesLessAt(EncodeChar(c), EncodeChar(d), k)
  {
    var width := |EncodeChar(c)|;
    if width < |EncodeChar(d)| || width == 1 {
      k := 0;
    } else if width == 2 {
      k := TwoBytesOrder(c, d);
    } else if width == 3 {
      k := ThreeBytesOrder(c, d);
    } else {
      k := FourBytesOrder(c, d);
    }
  }

  lemma BehindPrefix(p: seq<Byte>, x: seq<Byte>, y: seq<Byte>)
    requires BytesLess(x, y)
    ensures BytesLess(p + x, p + y)
  {
    var i: nat :| BytesLessAt(x, y, i);
    assert (p + x)[..|p| + i] == p + x[..i] && (p + y)[..|p| + i] == p + y[..i];
    assert BytesLessAt(p + x, p + y, |p| + i);
  }

  lemma BeforeTails(h: seq<Byte>, x: seq<Byte>, k: seq<Byte>, y: seq<Byte>, i: nat)
    requires BytesLessAt(h, k, i) && i < |h|
    ensures BytesLess(h + x, k + y)
  {
    assert (h + x)[..i] == h[..i] && (k + y)[..i] == k[..i];
    assert BytesLessAt(h + x, k + y, i);
  }

  lemma {:induction false} LessGivesBytesLess(a: string, b: string)
    requires Less(a, b)
    ensures BytesLess(Encode(a), Encode(b))
  {
    if a == "" {
      assert BytesLessAt(Encode(a), Encode(b), 0);
    } else if a[0] < b[0] {
      var k := CharOrder(a[0], b[0]);
      BeforeTails(EncodeChar(a[0]), Encode(a[1..]), EncodeChar(b[0]), Encode(b[1..]), k);
    } else {
      LessGivesBytesLess(a[1..], b[1..]);
      BehindPrefix(EncodeChar(a[0]), Encode(a[1..]), Encode(b[1..]));
    }
  }

  lemma AgreeBelow(a: seq<Byte>, b: seq<Byte>, i: nat, k: nat)
    requires k < i <= |a| && i <= |b| && a[..i] == b[..i]
    ensures a[k] == b[k]
  {
    assert a[k] == a[..i][k] && b[k] == b[..i][k];
  }

  lemma NotBothWays(a: seq<Byte>, b: seq<Byte>, i: nat, j: nat)
    requires BytesLessAt(a, b, i)
    ensures !BytesLessAt(b, a, j)
  {
    if j <= |b| && j < |a| && b[..j] == a[..j] {
      if i < j {
        AgreeBelow(b, a, j, i);
      } else if j < i {
        AgreeBelow(a, b, i, j);
      }
    }
  }

  lemma BytesLessIsAsymmetric(a: seq<Byte>, b: seq<Byte>)
    requires BytesLess(a, b)
    ensures !BytesLess(b, a)
  {
    var i: nat :| BytesLessAt(a, b, i);
    forall j: nat ensures !BytesLessAt(b, a, j) {
      NotBothWays(a, b, i, j);
    }
  }

  /** Comparing code points, as this model does, is comparing bytes, as Go does. */
  lemma OrderIsByteOrder(a: string, b: string)
    ensures Less(a, b) <==> BytesLess(Encode(a), Encode(b))
  {
    LessIsTotal(a, b);
    if Less(a, b) {
      LessGivesBytesLess(a, b);
    } else if a == b {
      if BytesLess(Encode(a), Encode(b)) {
        BytesLessIsAsymmetric(Encode(a), Encode(b));
      }
    } else {
      LessGivesBytesLess(b, a);
      BytesLessIsAsymmetric(Encode(b), Encode(a));
    }
  }
}
