/** The response path of the HTTP server: the buffering response writer (internal/server/middleware/logging.go), panic
    recovery (recovery.go) and the chain that puts them around a handler (middleware.go). */
module Middleware {
  import opened Basics

  /** What reaches the client's connection, in order. */
  datatype Sent = Head(status: int) | Body(data: string)

  /** What a handler may do with its response writer. `taken` is how much of the data the connection accepts. */
  datatype Op = SetStatus(code: int) | Put(data: string, taken: nat)

  datatype LogLine = LogLine(status: int, bytes: nat)

  const OK := 200
  const INTERNAL_SERVER_ERROR := 500

  function Accepted(op: Op): (piece: string)
    requires op.Put?
    ensures piece <= op.data && (op.taken >= |op.data| ==> piece == op.data)
    ensures op.taken <= |op.data| ==> |piece| == op.taken
  {
    op.data[..Min(op.taken, |op.data|)]
  }

  /** The pieces of body the connection accepted. */
  function Pieces(ops: seq<Op>): seq<string> {
    if ops == [] then []
    else
      var n := |ops| - 1;
      Pieces(ops[..n]) + if ops[n].Put? then [Accepted(ops[n])] else []
  }

  function Bodies(pieces: seq<string>): seq<Sent> {
    seq(|pieces|, i requires 0 <= i < |pieces| => Body(pieces[i]))
  }

  function Total(pieces: seq<string>): nat {
    if pieces == [] then 0 else Total(pieces[..|pieces| - 1]) + |pieces[|pieces| - 1]|
  }

  predicate HasPut(ops: seq<Op>) {
    exists i :: 0 <= i < |ops| && ops[i].Put?
  }

  /** The status a handler asks for: its first action decides, a write standing for 200. */
  function Asked(ops: seq<Op>): int {
    if ops == [] || ops[0].Put? then OK else ops[0].code
  }

  lemma PiecesGrow(ops: seq<Op>, op: Op)
    ensures Pieces(ops + [op]) == Pieces(ops) + if op.Put? then [Accepted(op)] else []
  {
    assert (ops + [op])[..|ops|] == ops;
  }

  lemma TotalGrows(pieces: seq<string>, piece: string)
    ensures Total(pieces + [piece]) == Total(pieces) + |piece|
  {
    assert (pieces + [piece])[..|pieces|] == pieces;
  }

  class Connection {
    var events: seq<Sent>

    constructor ()
      ensures events == []
    {
      events := [];
    }

    method WriteHeader(code: int)
      modifies this
      ensures events == old(events) + [Head(code)]
    {
      events := events + [Head(code)];
    }

    /** Accepts at most `taken` bytes. */
    method Write(data: string, taken: nat) returns (n: nat)
      modifies this
      ensures n == |Accepted(Put(data, taken))|
      ensures events == old(events) + [Body(Accepted(Put(data, taken)))]
    {
      var piece := Accepted(Put(data, taken));
      events := events + [Body(piece)];
      n := |piece|;
    }
  }

  class ResponseWriter {
    const conn: Connection
    var status: int
    var bytes: nat
    var wroteHeader: bool
    var headerSent: bool
    /** What the connection had seen before this request, and the pieces of body written since. */
    ghost const before: seq<Sent>
    ghost var pieces: seq<string>

    /** Nothing has reached the connection until the header is sent; from then on the connection has seen exactly one
        head, carrying `status`, followed by the body, and `bytes` is the size of that body. */
    ghost predicate Valid()
      reads this, conn
    {
      && (headerSent ==> wroteHeader)
      && (!headerSent ==> pieces == [])
      && bytes == Total(pieces)
      && conn.events == before + if headerSent then [Head(status)] + Bodies(pieces) else []
    }

    constructor (c: Connection)
      ensures Valid() && conn == c && before == c.events
      ensures status == OK && !wroteHeader && !headerSent && pieces == []
    {
      conn, before, pieces := c, c.events, [];
      status, bytes, wroteHeader, headerSent := OK, 0, false, false;
    }

    method WriteHeader(code: int)
      requires Valid()
      modifies this
      ensures Valid() && wroteHeader
      ensures status == if old(wroteHeader) then old(status) else code
      ensures headerSent == old(headerSent) && pieces == old(pieces)
    {
      if !wroteHeader {
        status := code;
        wroteHeader := true;
      }
    }

    method Write(data: string, taken: nat) returns (n: nat)
      requires Valid()
      modifies this, conn
      ensures Valid() && wroteHeader && headerSent
      ensures status == if old(wroteHeader) then old(status) else OK
      ensures pieces == old(pieces) + [Accepted(Put(data, taken))]
      ensures n == |Accepted(Put(data, taken))|
    {
      FlushHeader();
      n := conn.Write(data, taken);
      TotalGrows(pieces, Accepted(Put(data, taken)));
      pieces := pieces + [Accepted(Put(data, taken))];
      bytes := bytes + n;
    }

    method FlushHeader()
      requires Valid()
      modifies this, conn
      ensures Valid() && wroteHeader && headerSent
      ensures status == if old(wroteHeader) then old(status) else OK
      ensures pieces == old(pieces)
    {
      if !headerSent {
        if !wroteHeader {
          status := OK;
          wroteHeader := true;
        }
        conn.WriteHeader(status);
        headerSent := true;
      }
    }

    method ResetStatus(code: int)
      requires Valid()
      modifies this
      ensures Valid() && wroteHeader
      ensures status == if old(headerSent) then old(status) else code
      ensures headerSent == old(headerSent) && pieces == old(pieces)
    {
      if !headerSent {
        status := code;
        wroteHeader := true;
      }
    }
  }

  // ----- the handler, Recovery and Logging

  lemma OneMoreOp(ops: seq<Op>, n: nat)
    requires n < |ops|
    ensures HasPut(ops[..n + 1]) <==> HasPut(ops[..n]) || ops[n].Put?
    ensures Asked(ops[..n + 1]) == if n == 0 then Asked([ops[0]]) else Asked(ops[..n])
    ensures Pieces(ops[..n + 1]) == Pieces(ops[..n]) + if ops[n].Put? then [Accepted(ops[n])] else []
  {
    assert ops[..n + 1] == ops[..n] + [ops[n]];
    PiecesGrow(ops[..n], ops[n]);
    assert ops[n].Put? ==> ops[..n + 1][n].Put?;
    assert forall i | 0 <= i < n :: ops[..n + 1][i] == ops[..n][i];
  }

  /** Any handler, seen as the sequence of things it does with its writer. */
  method RunHandler(rw: ResponseWriter, ops: seq<Op>)
    requires rw.Valid() && rw.status == OK && !rw.wroteHeader && !rw.headerSent
    modifies rw, rw.conn
    ensures rw.Valid() && rw.status == Asked(ops) && rw.wroteHeader == (ops != [])
    ensures rw.headerSent == HasPut(ops) && rw.pieces == Pieces(ops)
  {
    for n := 0 to |ops|
      invariant rw.Valid() && rw.status == Asked(ops[..n]) && rw.wroteHeader == (n > 0)
      invariant rw.headerSent == HasPut(ops[..n]) && rw.pieces == Pieces(ops[..n])
    {
      OneMoreOp(ops, n);
      match ops[n]
      case SetStatus(code) => rw.WriteHeader(code);
      case Put(data, taken) =>
        var _ := rw.Write(data, taken);
    }
    assert ops[..|ops|] == ops;
  }

  /** Recovery around a handler that does `ops` and then returns or panics; `message` is the error body. */
  method Recovery(rw: ResponseWriter, ops: seq<Op>, panics: bool, message: string, taken: nat)
    requires rw.Valid() && rw.status == OK && !rw.wroteHeader && !rw.headerSent
    modifies rw, rw.conn
    ensures rw.Valid()
    ensures rw.status == if panics && !HasPut(ops) then INTERNAL_SERVER_ERROR else Asked(ops)
    ensures rw.wroteHeader == (panics || ops != [])
    ensures rw.headerSent == (panics || HasPut(ops))
    ensures rw.pieces == Pieces(ops) + if panics then [Accepted(Put(message, taken))] else []
  {
    RunHandler(rw, ops);
    if panics {
      rw.ResetStatus(INTERNAL_SERVER_ERROR);
      rw.WriteHeader(INTERNAL_SERVER_ERROR);
      var _ := rw.Write(message, taken);
    }
  }

  /** What the client must see: one head before everything, its status being 500 when the handler panics before
      writing any body and the handler's first choice otherwise; then the body, with the error message appended after a
      panic. */
  function Response(ops: seq<Op>, panics: bool, message: string, taken: nat): seq<Sent> {
    [Head(if panics && !HasPut(ops) then INTERNAL_SERVER_ERROR else Asked(ops))]
    + Bodies(Pieces(if panics then ops + [Put(message, taken)] else ops))
  }

  /** Logging around Recovery around the handler, which is what the server installs. */
  method Serve(conn: Connection, ops: seq<Op>, panics: bool, message: string, taken: nat) returns (line: LogLine)
    modifies conn
    ensures conn.events == old(conn.events) + Response(ops, panics, message, taken)
    ensures line.status == Response(ops, panics, message, taken)[0].status
    ensures line.bytes == Total(Pieces(if panics then ops + [Put(message, taken)] else ops))
  {
    var rw := new ResponseWriter(conn);
    PiecesGrow(ops, Put(message, taken));
    Recovery(rw, ops, panics, message, taken);
    rw.FlushHeader();
    assert rw.pieces == Pieces(if panics then ops + [Put(message, taken)] else ops);
    line := LogLine(rw.status, rw.bytes);
  }

  // ----- Recovery without the buffering writer

  /** A writer without `ResetStatus`, as net/http hands out: the first status goes out at once, later ones are ignored,
      and a write without a status sends 200 first. */
  class PlainWriter {
    const conn: Connection
    var wroteHeader: bool
    ghost const before: seq<Sent>
    ghost var ops: seq<Op>

    ghost predicate Valid()
      reads this, conn
    {
      wroteHeader == (ops != []) && conn.events == before + PlainSent(ops)
    }

    constructor (c: Connection)
      ensures Valid() && conn == c && before == c.events && ops == []
    {
      conn, before, wroteHeader, ops := c, c.events, false, [];
    }

    method WriteHeader(code: int)
      requires Valid()
      modifies this, conn
      ensures Valid() && ops == old(ops) + [SetStatus(code)]
    {
      PlainSentGrows(ops, SetStatus(code));
      if !wroteHeader {
        conn.WriteHeader(code);
        wroteHeader := true;
      }
      ops := ops + [SetStatus(code)];
    }

    method Write(data: string, taken: nat)
      requires Valid()
      modifies this, conn
      ensures Valid() && ops == old(ops) + [Put(data, taken)]
    {
      PlainSentGrows(ops, Put(data, taken));
      if !wroteHeader {
        conn.WriteHeader(OK);
        wroteHeader := true;
      }
      var _ := conn.Write(data, taken);
      ops := ops + [Put(data, taken)];
    }
  }

  /** What such a writer has sent after `ops`. */
  function PlainSent(ops: seq<Op>): seq<Sent> {
    if ops == [] then [] else [Head(Asked(ops))] + Bodies(Pieces(ops))
  }

  lemma PlainSentGrows(ops: seq<Op>, op: Op)
    ensures PlainSent(ops + [op])
            == PlainSent(ops) + (if ops == [] then [Head(Asked([op]))] else [])
               + (if op.Put? then [Body(Accepted(op))] else [])
  {
    PiecesGrow(ops, op);
    if ops != [] {
      assert Asked(ops + [op]) == Asked(ops);
    }
    if op.Put? {
      assert Bodies(Pieces(ops) + [Accepted(op)]) == Bodies(Pieces(ops)) + [Body(Accepted(op))];
    }
  }

  /** What a panic makes of the actions of a handler when nothing can be reset. */
  function PlainOps(ops: seq<Op>, panics: bool, message: string, taken: nat): seq<Op> {
    if panics then ops + [SetStatus(INTERNAL_SERVER_ERROR)] + [Put(message, taken)] else ops
  }

  method Act(w: PlainWriter, op: Op)
    requires w.Valid()
    modifies w, w.conn
    ensures w.Valid() && w.ops == old(w.ops) + [op]
  {
    match op
    case SetStatus(code) => w.WriteHeader(code);
    case Put(data, m) => w.Write(data, m);
  }

  lemma NextPrefix(ops: seq<Op>, n: nat)
    requires n < |ops|
    ensures ops[..n + 1] == ops[..n] + [ops[n]]
  {
  }

  method RunPlain(w: PlainWriter, ops: seq<Op>)
    requires w.Valid() && w.ops == []
    modifies w, w.conn
    ensures w.Valid() && w.ops == ops
  {
    for n := 0 to |ops|
      invariant w.Valid() && w.ops == ops[..n]
    {
      NextPrefix(ops, n);
      Act(w, ops[n]);
    }
    assert ops[..|ops|] == ops;
  }

  /** Recovery around a handler, over a writer that has no `ResetStatus`. */
  method RecoveryAlone(w: PlainWriter, ops: seq<Op>, panics: bool, message: string, taken: nat)
    requires w.Valid() && w.ops == []
    modifies w, w.conn
    ensures w.Valid() && w.ops == PlainOps(ops, panics, message, taken)
    ensures w.conn.events == old(w.conn.events) + PlainSent(PlainOps(ops, panics, message, taken))
  {
    assert w.before == w.conn.events;
    RunPlain(w, ops);
    if panics {
      w.WriteHeader(INTERNAL_SERVER_ERROR);
      w.Write(message, taken);
    }
  }

  /** What the buffering writer is for: after a panic both answer alike, except when the handler had chosen another
      status than 500 without writing any body; then only the buffering one can still answer 500. */
  lemma BufferMattersExactly(ops: seq<Op>, message: string, taken: nat)
    ensures Response(ops, true, message, taken) == PlainSent(PlainOps(ops, true, message, taken))
            <==> HasPut(ops) || ops == [] || Asked(ops) == INTERNAL_SERVER_ERROR
  {
    var all := PlainOps(ops, true, message, taken);
    PiecesGrow(ops, SetStatus(INTERNAL_SERVER_ERROR));
    PiecesGrow(ops + [SetStatus(INTERNAL_SERVER_ERROR)], Put(message, taken));
    PiecesGrow(ops, Put(message, taken));
    assert ops != [] ==> Asked(all) == Asked(ops);
    assert Response(ops, true, message, taken)[0] == Head(if HasPut(ops) then Asked(ops) else INTERNAL_SERVER_ERROR);
    assert PlainSent(all)[0] == Head(Asked(all));
  }

  // ----- what the client reads

  /** The body of a response, put together. */
  function BodyText(events: seq<Sent>): string {
    if events == [] then ""
    else
      var n := |events| - 1;
      BodyText(events[..n]) + if events[n].Body? then events[n].data else ""
  }

  /** Everything a handler writes, put together. */
  function Written(ops: seq<Op>): string {
    if ops == [] then ""
    else
      var n := |ops| - 1;
      Written(ops[..n]) + if ops[n].Put? then ops[n].data else ""
  }

  predicate TakenWhole(op: Op) {
    op.Put? ==> op.taken >= |op.data|
  }

  lemma BodyTextGrows(events: seq<Sent>, data: string)
    ensures BodyText(events + [Body(data)]) == BodyText(events) + data
  {
    assert (events + [Body(data)])[..|events|] == events;
  }

  lemma {:induction false} PiecesReadAsWritten(head: Sent, ops: seq<Op>)
    requires head.Head? && forall i | 0 <= i < |ops| :: TakenWhole(ops[i])
    ensures BodyText([head] + Bodies(Pieces(ops))) == Written(ops)
  {
    if ops == [] {
      assert [head] + Bodies(Pieces(ops)) == [head];
      assert BodyText([head][..0]) == "";
    } else {
      var n := |ops| - 1;
      PiecesReadAsWritten(head, ops[..n]);
      assert TakenWhole(ops[n]);
      if ops[n].Put? {
        var front := [head] + Bodies(Pieces(ops[..n]));
        assert [head] + Bodies(Pieces(ops)) == front + [Body(ops[n].data)];
        BodyTextGrows(front, ops[n].data);
      } else {
        assert Pieces(ops) == Pieces(ops[..n]);
      }
    }
  }

  lemma WrittenGrows(ops: seq<Op>, message: string, taken: nat)
    ensures Written(ops + [Put(message, taken)]) == Written(ops) + message
  {
    assert (ops + [Put(message, taken)])[..|ops|] == ops;
  }

  lemma MessageReadsBehind(head: Sent, ops: seq<Op>, message: string, taken: nat)
    requires head.Head? && (forall i | 0 <= i < |ops| :: TakenWhole(ops[i])) && taken >= |message|
    ensures BodyText([head] + Bodies(Pieces(ops + [Put(message, taken)]))) == Written(ops) + message
  {
    var all := ops + [Put(message, taken)];
    forall i | 0 <= i < |all| ensures TakenWhole(all[i]) {
      assert i < |ops| ==> all[i] == ops[i];
    }
    PiecesReadAsWritten(head, all);
    WrittenGrows(ops, message, taken);
  }

  /** On a connection that takes everything the client reads exactly what the handler wrote, and after a panic the
      error message behind it. */
  lemma ClientReadsWhatWasWritten(ops: seq<Op>, panics: bool, message: string, taken: nat)
    requires (forall i | 0 <= i < |ops| :: TakenWhole(ops[i])) && taken >= |message|
    ensures BodyText(Response(ops, panics, message, taken)) == Written(ops) + if panics then message else ""
  {
    var head := Response(ops, panics, message, taken)[0];
    if panics {
      MessageReadsBehind(head, ops, message, taken);
    } else {
      PiecesReadAsWritten(head, ops);
    }
  }

  /** The status the client sees: 500 if the handler panics before writing, otherwise the status chosen by its first
      action, and 200 if that was a write or if it did nothing. */
  lemma StatusSeen(ops: seq<Op>, panics: bool, message: string, taken: nat)
    ensures var head := Response(ops, panics, message, taken)[0];
            && (panics && (forall i | 0 <= i < |ops| :: ops[i].SetStatus?) ==> head == Head(500))
            && (!panics && ops == [] ==> head == Head(200))
            && (ops != [] && ops[0].Put? ==> head == Head(200))
            && (ops != [] && ops[0].SetStatus? && (!panics || exists i | 0 <= i < |ops| :: ops[i].Put?) ==>
                  head == Head(ops[0].code))
  {
  }

  function CountHeads(events: seq<Sent>): nat {
    if events == [] then 0 else (if events[0].Head? then 1 else 0) + CountHeads(events[1..])
  }

  function BodyBytes(events: seq<Sent>): nat {
    if events == [] then 0 else (if events[0].Body? then |events[0].data| else 0) + BodyBytes(events[1..])
  }

  lemma {:induction false} BodiesAreBodies(events: seq<Sent>)
    requires forall i | 0 <= i < |events| :: events[i].Body?
    ensures CountHeads(events) == 0
  {
    if events != [] {
      BodiesAreBodies(events[1..]);
    }
  }

  lemma {:induction false} BodyBytesGrow(events: seq<Sent>, data: string)
    ensures BodyBytes(events + [Body(data)]) == BodyBytes(events) + |data|
  {
    if events == [] {
      assert (events + [Body(data)])[1..] == [];
    } else {
      assert (events + [Body(data)])[1..] == events[1..] + [Body(data)];
      BodyBytesGrow(events[1..], data);
    }
  }

  lemma {:induction false} BodyBytesAreTotal(pieces: seq<string>)
    ensures BodyBytes(Bodies(pieces)) == Total(pieces)
  {
    if pieces != [] {
      var n := |pieces| - 1;
      BodyBytesAreTotal(pieces[..n]);
      assert Bodies(pieces) == Bodies(pieces[..n]) + [Body(pieces[n])];
      BodyBytesGrow(Bodies(pieces[..n]), pieces[n]);
    }
  }

  /** Every response has exactly one head, and it comes first; its body has the size that is logged. */
  lemma OneHeadComesFirst(ops: seq<Op>, panics: bool, message: string, taken: nat)
    ensures var events := Response(ops, panics, message, taken);
            && CountHeads(events) == 1 && events[0].Head?
            && BodyBytes(events) == Total(Pieces(if panics then ops + [Put(message, taken)] else ops))
  {
    var events := Response(ops, panics, message, taken);
    var pieces := Pieces(if panics then ops + [Put(message, taken)] else ops);
    assert events[1..] == Bodies(pieces);
    BodiesAreBodies(Bodies(pieces));
    BodyBytesAreTotal(pieces);
  }

  // ----- Chain

  /** The first middleware outermost. */
  function Wrap<H>(middlewares: seq<H -> H>, handler: H): H {
    if middlewares == [] then handler else middlewares[0](Wrap(middlewares[1..], handler))
  }

  /** `Chain(middlewares...)(next)` */
  method Chain<H>(middlewares: seq<H -> H>, next: H) returns (handler: H)
    ensures handler == Wrap(middlewares, next)
  {
    handler := next;
    var i := |middlewares| - 1;
    while i >= 0
      invariant -1 <= i < |middlewares|
      invariant handler == Wrap(middlewares[i + 1..], next)
    {
      assert middlewares[i..][1..] == middlewares[i + 1..];
      handler := middlewares[i](handler);
      i := i - 1;
    }
  }

  /** A chain may be cut anywhere. */
  lemma {:induction false} ChainOfChains<H>(outer: seq<H -> H>, inner: seq<H -> H>, handler: H)
    ensures Wrap(outer + inner, handler) == Wrap(outer, Wrap(inner, handler))
  {
    if outer == [] {
      assert outer + inner == inner;
    } else {
      assert (outer + inner)[1..] == outer[1..] + inner;
      ChainOfChains(outer[1..], inner, handler);
    }
  }

  /** A middleware that records when it is entered and left. */
  function Traced(name: string): seq<string> -> seq<string> {
    (inside: seq<string>) => [name] + inside + [name]
  }

  function AllTraced(names: seq<string>): seq<seq<string> -> seq<string>> {
    if names == [] then [] else [Traced(names[0])] + AllTraced(names[1..])
  }

  function Reversed(s: seq<string>): seq<string> {
    if s == [] then [] else Reversed(s[1..]) + [s[0]]
  }

  /** Requests pass the middlewares in list order on the way in and in reverse on the way out. */
  lemma {:induction false} FirstIsOutermost(names: seq<string>, handler: seq<string>)
    ensures Wrap(AllTraced(names), handler) == names + handler + Reversed(names)
  {
    if names == [] {
      assert names + handler + Reversed(names) == handler;
    } else {
      FirstIsOutermost(names[1..], handler);
      assert AllTraced(names)[1..] == AllTraced(names[1..]);
      Nested(names[0], names[1..], handler, Reversed(names[1..]));
      assert names == [names[0]] + names[1..];
    }
  }

  lemma Nested(name: string, inner: seq<string>, handler: seq<string>, back: seq<string>)
    ensures [name] + (inner + handler + back) + [name] == ([name] + inner) + handler + (back + [name])
  {
  }
}
