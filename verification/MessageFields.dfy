/** What a reader of the mail finds in its header: the message of internal/channel/email/sender.go, parsed, field by
    field. */
module MessageFields {
  import opened Basics
  import opened Text
  import opened Message
  import opened Recipients

  /** There is a field of this name, and every field of this name has this value. */
  ghost predicate Says(headers: seq<Header>, name: string, value: string) {
    Header(name, value) in headers && forall h | h in headers && h.name == name :: h.value == value
  }

  lemma FirstsDiffer(a: string, b: string)
    requires a != "" && b != "" && a[0] != b[0]
    ensures a != b
  {
  }

  /** The seven names are seven. */
  lemma NamesDiffer()
    ensures Distinct(["From", "To", "Date", "Message-ID", "Subject", "MIME-Version", "Content-Type"])
  {
    FirstsDiffer("From", "Date");
    FirstsDiffer("MIME-Version", "Content-Type");
  }

  /** With distinct names a field is what its one line says. */
  lemma SaysAt(headers: seq<Header>, names: seq<string>, i: nat)
    requires Distinct(names) && |names| == |headers| && forall j | 0 <= j < |headers| :: headers[j].name == names[j]
    requires i < |headers|
    ensures Says(headers, names[i], headers[i].value)
  {
    assert headers[i] == Header(names[i], headers[i].value);
    forall h | h in headers && h.name == names[i] ensures h.value == headers[i].value {
      var j :| 0 <= j < |headers| && headers[j] == h;
    }
  }

  /** A field has its own value: sender, recipients, date, identifier, subject, and the two constants. */
  ghost predicate Complete(headers: seq<Header>, from: string, to: string, date: string, id: string, subject: string) {
    && Says(headers, "From", from)
    && Says(headers, "To", to)
    && Says(headers, "Date", date)
    && Says(headers, "Message-ID", id)
    && Says(headers, "Subject", subject)
    && Says(headers, "MIME-Version", "1.0")
    && Says(headers, "Content-Type", "text/html; charset=UTF-8")
    && |headers| == 7
  }

  lemma BuiltHeadersAreComplete(from: string, to: seq<string>, subject: string, date: string, random: seq<Byte>)
    ensures Complete(MessageHeaders(from, to, subject, date, random),
                     from, Join(to, ", "), date, MessageId(from, random), SanitizeHeader(subject))
  {
    var headers := MessageHeaders(from, to, subject, date, random);
    var names := ["From", "To", "Date", "Message-ID", "Subject", "MIME-Version", "Content-Type"];
    NamesDiffer();
    SaysAt(headers, names, 0);
    SaysAt(headers, names, 1);
    SaysAt(headers, names, 2);
    SaysAt(headers, names, 3);
    SaysAt(headers, names, 4);
    SaysAt(headers, names, 5);
    SaysAt(headers, names, 6);
  }

  /** A mail built for a clean sender and recipients says, once parsed: the sender, the date, the subject without line
      breaks, an identifier made of the random bytes and the sender's domain, and recipients that load back to the
      list; and its body is the one given. */
  lemma MailSaysWhatWasGiven(from: string, to: seq<string>, subject: string, body: string, date: string,
                             random: seq<Byte>)
    returns (mail: Parsed, recipients: string)
    requires OneLine(date) && OneLine(from)
    requires forall i | 0 <= i < |to| :: OneLine(to[i])
    ensures ParseMessage(Render(MessageHeaders(from, to, subject, date, random), body)) == Some(mail)
    ensures mail.body == body
    ensures Complete(mail.headers, from, recipients, date, "<" + Hex(random) + "@" + Domain(from) + ">",
                     SanitizeHeader(subject))
    ensures Loaded(recipients) == to <==> forall r | r in to :: IsRecipient(r)
  {
    MessageRoundTrip(from, to, subject, body, date, random);
    mail, recipients := Parsed(MessageHeaders(from, to, subject, date, random), body), Join(to, ", ");
    BuiltHeadersAreComplete(from, to, subject, date, random);
    LoadUndoesJoin(to);
  }

  // ----- the two halves of the identifier

  function Angles(k: nat): string {
    if k == 0 then "" else Angles(k - 1) + ">"
  }

  lemma {:induction false} TrimsAngles(d: string, k: nat)
    requires d == "" || d[|d| - 1] != '>'
    ensures TrimRightAngle(d + Angles(k)) == d
  {
    var s := d + Angles(k);
    if k == 0 {
      assert s == d;
    } else {
      assert s == (d + Angles(k - 1)) + ">";
      assert s[..|s| - 1] == d + Angles(k - 1);
      TrimsAngles(d, k - 1);
    }
  }

  lemma {:induction false} AnglesHaveNoAt(k: nat)
    ensures '@' !in Angles(k)
  {
    if k > 0 {
      AnglesHaveNoAt(k - 1);
    }
  }

  lemma {:induction false} AfterTheLastAt(local: string, rest: string)
    requires '@' !in rest
    ensures AfterLastAt(local + "@" + rest) == rest
  {
    var s := local + "@" + rest;
    assert s[|local|] == '@';
    if local == "" {
      assert s[1..] == rest;
    } else {
      assert s[1..] == local[1..] + "@" + rest;
      assert s[1..][|local| - 1] == '@';
      AfterTheLastAt(local[1..], rest);
    }
  }

  /** The domain is what follows the last "@" of the sender, or all of it without one, but for closing angle
      brackets. */
  lemma DomainIsBehindTheLastAt(local: string, d: string, k: nat)
    requires '@' !in d && (d == "" || d[|d| - 1] != '>')
    ensures Domain(local + "@" + (d + Angles(k))) == d
    ensures Domain(d + Angles(k)) == d
  {
    AnglesHaveNoAt(k);
    TrimsAngles(d, k);
    AfterTheLastAt(local, d + Angles(k));
  }

  function HexValue(c: char): nat {
    if '0' <= c <= '9' then c as int - '0' as int else if 'a' <= c <= 'f' then c as int - 'a' as int + 10 else 0
  }

  /** The bytes that a row of hexadecimal digits stands for. */
  function ReadHex(s: string): seq<nat> {
    if |s| < 2 then [] else [16 * HexValue(s[0]) + HexValue(s[1])] + ReadHex(s[2..])
  }

  lemma HexValueOfDigit(i: nat)
    requires i < 16
    ensures HexValue(HEX_DIGITS[i]) == i
  {
  }

  /** The first half of the identifier is the random bytes in hexadecimal. */
  lemma {:induction false} ReadHexUndoesHex(bytes: seq<Byte>)
    ensures |ReadHex(Hex(bytes))| == |bytes| && forall i | 0 <= i < |bytes| :: ReadHex(Hex(bytes))[i] == bytes[i]
  {
    if bytes != [] {
      HexOfRest(bytes);
      HexValueOfDigit(bytes[0] / 16);
      HexValueOfDigit(bytes[0] % 16);
      ReadHexUndoesHex(bytes[1..]);
    }
  }
}
