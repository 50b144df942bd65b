/** The e-mail message builder (internal/channel/email/sender.go), against a parser of section 2.1 of RFC 5322. */
module Message {
  import opened Basics
  import opened Text

  datatype Header = Header(name: string, value: string)

  datatype Parsed = Parsed(headers: seq<Header>, body: string)

  // ----- the parser

  predicate IsBreak(c: char) {
    c == '\r' || c == '\n'
  }

  /** No carriage return and no line feed. */
  predicate OneLine(s: string) {
    forall i | 0 <= i < |s| :: !IsBreak(s[i])
  }

  function LineLength(s: string): (n: nat)
    ensures n <= |s| && OneLine(s[..n])
    ensures n < |s| ==> IsBreak(s[n])
  {
    if s == "" || IsBreak(s[0]) then 0
    else
      var n := LineLength(s[1..]);
      assert s[..n + 1] == [s[0]] + s[1..][..n];
      n + 1
  }

  /** A field name: printable ASCII without the colon (section 2.2). */
  predicate IsFieldName(name: string) {
    name != "" && forall i | 0 <= i < |name| :: 33 <= name[i] as int <= 126 && name[i] != ':'
  }

  function ParseField(line: string): Option<Header> {
    var i := IndexOf(line, ':');
    if i + 1 >= |line| || line[i + 1] != ' ' || !IsFieldName(line[..i]) then None
    else Some(Header(line[..i], line[i + 2..]))
  }

  /** Header fields, one a line ended by CRLF, then an empty line, then the body. A carriage return or line feed on its
      own, a folded line and a message without an empty line are not accepted. */
  function ParseMessage(s: string): Option<Parsed>
    decreases |s|
  {
    var n := LineLength(s);
    if n + 1 >= |s| || s[n] != '\r' || s[n + 1] != '\n' then None
    else if n == 0 then Some(Parsed([], s[2..]))
    else
      var rest := ParseMessage(s[n + 2..]);
      var field := ParseField(s[..n]);
      if rest.None? || field.None? then None
      else Some(Parsed([field.value] + rest.value.headers, rest.value.body))
  }

  // ----- rendering

  function Line(h: Header): string {
    h.name + ": " + h.value
  }

  function Render(headers: seq<Header>, body: string): string {
    if headers == [] then "\r\n" + body else Line(headers[0]) + "\r\n" + Render(headers[1..], body)
  }

  predicate Clean(h: Header) {
    IsFieldName(h.name) && OneLine(h.value)
  }

  lemma {:induction false} LineLengthOf(line: string, rest: string)
    requires OneLine(line)
    ensures LineLength(line + "\r\n" + rest) == |line|
  {
    var s := line + "\r\n" + rest;
    if line != "" {
      assert s[1..] == line[1..] + "\r\n" + rest;
      LineLengthOf(line[1..], rest);
    }
  }

  lemma ParseFieldOfLine(h: Header)
    requires Clean(h)
    ensures ParseField(Line(h)) == Some(h) && OneLine(Line(h)) && Line(h) != ""
  {
    var line := Line(h);
    assert line == h.name + [':'] + (" " + h.value);
    IndexOfFirst(h.name, ':', " " + h.value);
    assert line[..|h.name|] == h.name && line[|h.name| + 2..] == h.value;
  }

  /** One step of the parser: a clean header line in front of anything that parses. */
  lemma ParseOneMore(h: Header, rest: string)
    requires Clean(h) && ParseMessage(rest).Some?
    ensures ParseMessage(Line(h) + "\r\n" + rest)
            == Some(Parsed([h] + ParseMessage(rest).value.headers, ParseMessage(rest).value.body))
  {
    var line := Line(h);
    var s := line + "\r\n" + rest;
    ParseFieldOfLine(h);
    LineLengthOf(line, rest);
    var n := LineLength(s);
    assert n == |line| > 0 && s[n] == '\r' && s[n + 1] == '\n';
    assert s[..n] == line && s[n + 2..] == rest;
  }

  /** Parsing undoes rendering for any clean headers and any body at all. */
  lemma {:induction false} ParseRender(headers: seq<Header>, body: string)
    requires forall i | 0 <= i < |headers| :: Clean(headers[i])
    ensures ParseMessage(Render(headers, body)) == Some(Parsed(headers, body))
  {
    if headers == [] {
      ParseBody(body);
    } else {
      var h, rest := headers[0], headers[1..];
      assert headers == [h] + rest && Clean(h);
      ParseRender(rest, body);
      RenderCons(h, rest, body);
      ParseOneMore(h, Render(rest, body));
    }
  }

  lemma RenderCons(h: Header, rest: seq<Header>, body: string)
    ensures Render([h] + rest, body) == Line(h) + "\r\n" + Render(rest, body)
  {
    assert ([h] + rest)[1..] == rest;
  }

  lemma ParseBody(body: string)
    ensures ParseMessage("\r\n" + body) == Some(Parsed([], body))
  {
    var s := "\r\n" + body;
    LineLengthOf("", body);
    assert s == "" + "\r\n" + body && s[2..] == body;
  }

  /** Whatever the parser accepts has one-line values. */
  lemma {:induction false} ParsedValuesAreOneLine(s: string)
    requires ParseMessage(s).Some?
    ensures forall i | 0 <= i < |ParseMessage(s).value.headers| :: OneLine(ParseMessage(s).value.headers[i].value)
    decreases |s|
  {
    var n := LineLength(s);
    if n > 0 {
      ParsedValuesAreOneLine(s[n + 2..]);
      assert OneLine(s[..n]);
    }
  }

  // ----- sanitizeHeader

  function SanitizeHeader(s: string): string {
    if s == "" then "" else (if IsBreak(s[0]) then "" else [s[0]]) + SanitizeHeader(s[1..])
  }

  /** The result has no line break left. */
  lemma {:induction false} SanitizedIsOneLine(s: string)
    ensures OneLine(SanitizeHeader(s))
  {
    if s != "" {
      SanitizedIsOneLine(s[1..]);
    }
  }

  /** Every other character keeps its count. */
  lemma {:induction false} SanitizeKeepsTheRest(s: string, c: char)
    requires !IsBreak(c)
    ensures multiset(SanitizeHeader(s))[c] == multiset(s)[c]
  {
    if s != "" {
      SanitizeKeepsTheRest(s[1..], c);
      assert s == [s[0]] + s[1..];
    }
  }

  /** A one-line string is unchanged. */
  lemma {:induction false} SanitizeFixesOneLine(s: string)
    ensures SanitizeHeader(s) == s <==> OneLine(s)
  {
    SanitizedIsOneLine(s);
    if s != "" && OneLine(s) {
      SanitizeFixesOneLine(s[1..]);
      assert s == [s[0]] + s[1..];
    }
  }

  /** Order is kept: the breaks are dropped piece by piece. */
  lemma {:induction false} SanitizeConcat(s: string, t: string)
    ensures SanitizeHeader(s + t) == SanitizeHeader(s) + SanitizeHeader(t)
  {
    if s == "" {
      assert s + t == t;
    } else {
      assert (s + t)[1..] == s[1..] + t;
      SanitizeConcat(s[1..], t);
    }
  }

  // ----- generateMessageID

  const HEX_DIGITS := "0123456789abcdef"

  function Hex(bytes: seq<Byte>): string {
    if bytes == [] then "" else [HEX_DIGITS[bytes[0] / 16], HEX_DIGITS[bytes[0] % 16]] + Hex(bytes[1..])
  }

  /** The part after the last '@', or everything. */
  function AfterLastAt(s: string): (d: string)
    ensures '@' !in d
    ensures exists i :: 0 <= i <= |s| && d == s[i..] && (i > 0 ==> s[i - 1] == '@')
  {
    if '@' !in s then assert s[0..] == s; s
    else
      var d := AfterLastAt(s[1..]);
      var i :| 0 <= i <= |s[1..]| && d == s[1..][i..] && (i > 0 ==> s[1..][i - 1] == '@');
      assert s[i + 1..] == d;
      d
  }

  function TrimRightAngle(s: string): (t: string)
    ensures t <= s
    ensures t != "" ==> t[|t| - 1] != '>'
    ensures forall i | |t| <= i < |s| :: s[i] == '>'
  {
    if s != "" && s[|s| - 1] == '>' then TrimRightAngle(s[..|s| - 1]) else s
  }

  function Domain(from: string): string {
    TrimRightAngle(AfterLastAt(from))
  }

  function MessageId(from: string, random: seq<Byte>): string {
    "<" + Hex(random) + "@" + Domain(from) + ">"
  }

  lemma {:induction false} HexIsPlain(bytes: seq<Byte>)
    ensures |Hex(bytes)| == 2 * |bytes|
    ensures forall i | 0 <= i < |Hex(bytes)| :: Hex(bytes)[i] in HEX_DIGITS
  {
    if bytes != [] {
      HexIsPlain(bytes[1..]);
    }
  }

  lemma HexDigitsDiffer(i: nat, j: nat)
    requires i < 16 && j < 16 && HEX_DIGITS[i] == HEX_DIGITS[j]
    ensures i == j
  {
  }

  lemma HexOfRest(bytes: seq<Byte>)
    requires bytes != []
    ensures |Hex(bytes)| >= 2 && Hex(bytes)[2..] == Hex(bytes[1..])
    ensures Hex(bytes)[0] == HEX_DIGITS[bytes[0] / 16] && Hex(bytes)[1] == HEX_DIGITS[bytes[0] % 16]
  {
  }

  lemma HexHeadsAgree(a: seq<Byte>, b: seq<Byte>)
    requires a != [] && b != [] && Hex(a) == Hex(b)
    ensures a[0] == b[0] && Hex(a[1..]) == Hex(b[1..])
  {
    HexOfRest(a);
    HexOfRest(b);
    HexDigitsDiffer(a[0] / 16, b[0] / 16);
    HexDigitsDiffer(a[0] % 16, b[0] % 16);
  }

  lemma {:induction false} HexInjective(a: seq<Byte>, b: seq<Byte>)
    requires Hex(a) == Hex(b)
    ensures a == b
  {
    HexIsPlain(a);
    HexIsPlain(b);
    if a != [] {
      HexHeadsAgree(a, b);
      HexInjective(a[1..], b[1..]);
      assert a == [a[0]] + a[1..] && b == [b[0]] + b[1..];
    }
  }

  lemma OneLineConcat(s: string, t: string)
    ensures OneLine(s + t) <==> OneLine(s) && OneLine(t)
  {
    assert forall i | 0 <= i < |s| :: (s + t)[i] == s[i];
    assert forall i | 0 <= i < |t| :: (s + t)[|s| + i] == t[i];
  }

  lemma HexDigitsArePlain(c: char)
    requires c in HEX_DIGITS
    ensures c != '@' && !IsBreak(c)
  {
  }

  lemma HexIsOneLine(bytes: seq<Byte>)
    ensures '@' !in Hex(bytes) && OneLine(Hex(bytes))
  {
    HexIsPlain(bytes);
    forall i | 0 <= i < |Hex(bytes)| ensures Hex(bytes)[i] != '@' && !IsBreak(Hex(bytes)[i]) {
      HexDigitsArePlain(Hex(bytes)[i]);
    }
  }

  lemma DomainIsPlain(from: string)
    ensures '@' !in Domain(from)
    ensures OneLine(from) ==> OneLine(Domain(from))
  {
    var i :| 0 <= i <= |from| && AfterLastAt(from) == from[i..] && (i > 0 ==> from[i - 1] == '@');
  }

  /** The identifier has one '@', between its two halves, and is one line if the sender is. */
  lemma MessageIdIsWellFormed(from: string, r: seq<Byte>)
    ensures '@' !in Hex(r) && '@' !in Domain(from)
    ensures OneLine(from) ==> OneLine(MessageId(from, r))
  {
    HexIsOneLine(r);
    DomainIsPlain(from);
    OneLineConcat("<", Hex(r));
    OneLineConcat("<" + Hex(r), "@");
    OneLineConcat("<" + Hex(r) + "@", Domain(from));
    OneLineConcat("<" + Hex(r) + "@" + Domain(from), ">");
  }

  lemma FirstHalf(h: string, d: string)
    ensures |"<" + h + "@" + d + ">"| >= 1 + |h| && ("<" + h + "@" + d + ">")[1..1 + |h|] == h
  {
  }

  /** Two draws of as many random bytes give the same identifier only if they are the same draw. */
  lemma MessageIdsAreUnique(from: string, r: seq<Byte>, other: string, q: seq<Byte>)
    requires |r| == |q| && MessageId(from, r) == MessageId(other, q)
    ensures r == q
  {
    HexIsPlain(r);
    HexIsPlain(q);
    FirstHalf(Hex(r), Domain(from));
    FirstHalf(Hex(q), Domain(other));
    HexInjective(r, q);
  }

  // ----- buildMessage

  function MessageHeaders(from: string, to: seq<string>, subject: string, date: string, random: seq<Byte>)
    : seq<Header>
  {
    [Header("From", from), Header("To", Join(to, ", ")), Header("Date", date),
     Header("Message-ID", MessageId(from, random)), Header("Subject", SanitizeHeader(subject)),
     Header("MIME-Version", "1.0"), Header("Content-Type", "text/html; charset=UTF-8")]
  }

  lemma {:induction false} JoinIsOneLine(to: seq<string>, sep: string)
    requires OneLine(sep)
    ensures OneLine(Join(to, sep)) <==> forall i | 0 <= i < |to| :: OneLine(to[i])
  {
    if |to| > 1 {
      var tail := Join(to[1..], sep);
      JoinIsOneLine(to[1..], sep);
      OneLineConcat(to[0] + sep, tail);
      OneLineConcat(to[0], sep);
      assert forall i | 1 <= i < |to| :: to[i] == to[1..][i - 1];
    }
  }

  lemma ShortNamesAreFieldNames()
    ensures IsFieldName("From") && IsFieldName("To") && IsFieldName("Date") && IsFieldName("Subject")
  {
  }

  lemma MessageIdIsAFieldName()
    ensures IsFieldName("Message-ID")
  {
  }

  lemma MimeVersionIsClean()
    ensures Clean(Header("MIME-Version", "1.0"))
  {
  }

  lemma ContentTypeIsAFieldName()
    ensures IsFieldName("Content-Type")
  {
  }

  lemma ContentTypeValueIsOneLine()
    ensures OneLine("text/html; charset=UTF-8")
  {
    var s := "text/html; charset=UTF-8";
    OneLineConcat("text/html; ", "charset=UTF-8");
    assert "text/html; " + "charset=UTF-8" == s;
  }

  lemma HeadersAreClean(from: string, to: seq<string>, subject: string, date: string, random: seq<Byte>)
    requires OneLine(date) && OneLine(from) && forall i | 0 <= i < |to| :: OneLine(to[i])
    ensures var headers := MessageHeaders(from, to, subject, date, random);
            forall i | 0 <= i < |headers| :: Clean(headers[i])
  {
    ShortNamesAreFieldNames();
    MessageIdIsAFieldName();
    MimeVersionIsClean();
    ContentTypeIsAFieldName();
    ContentTypeValueIsOneLine();
    JoinIsOneLine(to, ", ");
    MessageIdIsWellFormed(from, random);
    SanitizedIsOneLine(subject);
    var headers := MessageHeaders(from, to, subject, date, random);
    forall i | 0 <= i < |headers| ensures Clean(headers[i]) {
    }
  }

  function Lines(headers: seq<Header>): string {
    if headers == [] then "" else Line(headers[0]) + "\r\n" + Lines(headers[1..])
  }

  lemma {:induction false} LinesAppend(headers: seq<Header>, h: Header)
    ensures Lines(headers + [h]) == Lines(headers) + (Line(h) + "\r\n")
  {
    if headers == [] {
      assert (headers + [h])[1..] == [];
    } else {
      assert (headers + [h])[1..] == headers[1..] + [h];
      LinesAppend(headers[1..], h);
    }
  }

  lemma {:induction false} RenderIsLinesThenBody(headers: seq<Header>, body: string)
    ensures Render(headers, body) == Lines(headers) + ("\r\n" + body)
  {
    if headers != [] {
      RenderIsLinesThenBody(headers[1..], body);
    }
  }

  /** Writing one more field line. */
  lemma WriteField(b: string, headers: seq<Header>, prefix: string, h: Header)
    requires b == Lines(headers) && prefix == h.name + ": "
    ensures b + prefix + h.value + "\r\n" == Lines(headers + [h])
  {
    LinesAppend(headers, h);
  }

  lemma WriteLine(b: string, headers: seq<Header>, line: string, h: Header)
    requires b == Lines(headers) && line == Line(h) + "\r\n"
    ensures b + line == Lines(headers + [h])
  {
    LinesAppend(headers, h);
  }

  lemma MimeVersionLine()
    ensures "MIME-Version: 1.0\r\n" == Line(Header("MIME-Version", "1.0")) + "\r\n"
  {
  }

  lemma ContentTypeLine()
    ensures "Content-Type: text/html; charset=UTF-8\r\n"
            == Line(Header("Content-Type", "text/html; charset=UTF-8")) + "\r\n"
  {
    assert "Content-Type" + ": " == "Content-Type: ";
    assert "Content-Type: " + "text/html; charset=UTF-8" == "Content-Type: text/html; charset=UTF-8";
  }

  /** `date` and `random` stand for the clock and the random source. */
  method BuildMessage(from: string, to: seq<string>, subject: string, htmlBody: string, date: string, random: seq<Byte>)
    returns (message: string)
    ensures message == Render(MessageHeaders(from, to, subject, date, random), htmlBody)
  {
    ghost var hs := [Header("From", from)];
    WriteField("", [], "From: ", Header("From", from));
    var b := "" + "From: " + from + "\r\n";
    assert b == Lines(hs);
    WriteField(b, hs, "To: ", Header("To", Join(to, ", ")));
    b := b + "To: " + Join(to, ", ") + "\r\n";
    hs := hs + [Header("To", Join(to, ", "))];
    WriteField(b, hs, "Date: ", Header("Date", date));
    b := b + "Date: " + date + "\r\n";
    hs := hs + [Header("Date", date)];
    WriteField(b, hs, "Message-ID: ", Header("Message-ID", MessageId(from, random)));
    b := b + "Message-ID: " + MessageId(from, random) + "\r\n";
    hs := hs + [Header("Message-ID", MessageId(from, random))];
    WriteField(b, hs, "Subject: ", Header("Subject", SanitizeHeader(subject)));
    b := b + "Subject: " + SanitizeHeader(subject) + "\r\n";
    hs := hs + [Header("Subject", SanitizeHeader(subject))];
    MimeVersionLine();
    ContentTypeLine();
    WriteLine(b, hs, "MIME-Version: 1.0\r\n", Header("MIME-Version", "1.0"));
    b := b + "MIME-Version: 1.0\r\n";
    hs := hs + [Header("MIME-Version", "1.0")];
    WriteLine(b, hs, "Content-Type: text/html; charset=UTF-8\r\n", Header("Content-Type", "text/html; charset=UTF-8"));
    b := b + "Content-Type: text/html; charset=UTF-8\r\n";
    hs := hs + [Header("Content-Type", "text/html; charset=UTF-8")];
    assert hs == MessageHeaders(from, to, subject, date, random);
    RenderIsLinesThenBody(hs, htmlBody);
    assert Render(hs, htmlBody) == b + ("\r\n" + htmlBody);
    b := b + "\r\n";
    b := b + htmlBody;
    message := b;
  }

  /** What the parser gives back verbatim can only have been one-line values. */
  lemma RoundTripNeedsOneLine(headers: seq<Header>, body: string)
    requires ParseMessage(Render(headers, body)) == Some(Parsed(headers, body))
    ensures forall i | 0 <= i < |headers| :: OneLine(headers[i].value)
  {
    ParsedValuesAreOneLine(Render(headers, body));
  }

  lemma AddressesOfHeaders(headers: seq<Header>, from: string, to: seq<string>)
    requires |headers| >= 2 && headers[0].value == from && headers[1].value == Join(to, ", ")
    requires forall i | 0 <= i < |headers| :: OneLine(headers[i].value)
    ensures OneLine(from) && forall i | 0 <= i < |to| :: OneLine(to[i])
  {
    assert OneLine(headers[0].value) && OneLine(headers[1].value);
    JoinIsOneLine(to, ", ");
  }

  predicate RoundTrips(headers: seq<Header>, body: string) {
    ParseMessage(Render(headers, body)) == Some(Parsed(headers, body))
  }

  lemma RoundTripsIfClean(headers: seq<Header>, body: string)
    requires forall i | 0 <= i < |headers| :: Clean(headers[i])
    ensures RoundTrips(headers, body)
  {
    ParseRender(headers, body);
  }

  /** The message parses back to exactly the seven header fields in order, the subject having lost its line breaks and
      nothing else, and to the body as given, whatever the subject and the body. This holds exactly when sender and
      recipients are free of line breaks. */
  lemma MessageRoundTrip(from: string, to: seq<string>, subject: string, htmlBody: string, date: string,
                         random: seq<Byte>)
    requires OneLine(date)
    ensures RoundTrips(MessageHeaders(from, to, subject, date, random), htmlBody)
            <==> OneLine(from) && forall i | 0 <= i < |to| :: OneLine(to[i])
  {
    var headers := MessageHeaders(from, to, subject, date, random);
    if OneLine(from) && forall i | 0 <= i < |to| :: OneLine(to[i]) {
      HeadersAreClean(from, to, subject, date, random);
      RoundTripsIfClean(headers, htmlBody);
    }
    if RoundTrips(headers, htmlBody) {
      RoundTripNeedsOneLine(headers, htmlBody);
      AddressesOfHeaders(headers, from, to);
    }
  }
}
