/** A framed document reads and parses back. */
module MongoFrames {
  import opened Fifo
  import opened Bytes
  import opened Bson
  import opened BsonWriter
  import opened Mongo

  lemma Int32Back(v: int)
    requires IsInt32(v)
    ensures AsInt32(v % 0x1_0000_0000) == v
  {
    assert v >= 0 ==> v % 0x1_0000_0000 == v;
    assert v < 0 ==> v % 0x1_0000_0000 == v + 0x1_0000_0000;
  }

  /** Four bytes of a number, then the next part. */
  lemma NumberThen(v: int, rest: seq<byte>)
    ensures var s := PutLittleEndian32(v) + rest;
      |s| == 4 + |rest| && LittleEndian32(s) == v % 0x1_0000_0000 && s[4..] == rest
  {
    LittleEndian32Reads(v, rest);
  }

  lemma FramedFields(n: int, id: int, to: int, op: int, payload: seq<byte>)
    ensures var m := Frame(n, id, to, op, payload);
      && |m| == HEADER_LEN + |payload| && m[HEADER_LEN..] == payload
      && LittleEndian32(m) == n % 0x1_0000_0000 && LittleEndian32(m[4..]) == id % 0x1_0000_0000
      && LittleEndian32(m[8..]) == to % 0x1_0000_0000 && LittleEndian32(m[12..]) == op % 0x1_0000_0000
  {
    var d := PutLittleEndian32(op) + payload;
    var c := PutLittleEndian32(to) + d;
    var b := PutLittleEndian32(id) + c;
    var m := PutLittleEndian32(n) + b;
    NumberThen(op, payload);
    NumberThen(to, d);
    NumberThen(id, c);
    NumberThen(n, b);
    assert m[8..] == b[4..] && m[12..] == c[4..] && m[16..] == d[4..];
  }

  lemma FieldsStay(m: seq<byte>, rest: seq<byte>)
    requires |m| >= HEADER_LEN
    ensures HeaderOf(m + rest) == HeaderOf(m)
  {
    var s := m + rest;
    assert s[4..] == m[4..] + rest && s[8..] == m[8..] + rest && s[12..] == m[12..] + rest;
    FrontStays(m, rest);
    FrontStays(m[4..], rest);
    FrontStays(m[8..], rest);
    FrontStays(m[12..], rest);
  }

  lemma FrontStays(s: seq<byte>, rest: seq<byte>)
    requires |s| >= 4
    ensures LittleEndian32(s + rest) == LittleEndian32(s)
  {
  }

  lemma MessageOf(m: seq<byte>, rest: seq<byte>)
    requires HEADER_LEN <= |m| <= MAX_MESSAGE && LittleEndian32(m) == |m|
    ensures ReadMessage(m + rest) == Message(HeaderOf(m), m[HEADER_LEN..], rest)
  {
    FieldsStay(m, rest);
    FrontStays(m, rest);
    assert (m + rest)[HEADER_LEN..|m|] == m[HEADER_LEN..] && (m + rest)[|m|..] == rest;
  }

  /** A reply is read back as one message, whatever bytes follow it. */
  lemma ReplyReadsBack(opCode: int, h: Header, respID: int, doc: seq<byte>, rest: seq<byte>)
    requires IsInt32(h.requestID) && IsInt32(respID)
    requires HEADER_LEN + |ReplyPayload(opCode, doc)| <= MAX_MESSAGE
    ensures var payload := ReplyPayload(opCode, doc);
      ReadMessage(Reply(opCode, h, respID, doc) + rest) ==
        Message(Header(HEADER_LEN + |payload|, respID, h.requestID, if opCode == OP_QUERY then OP_REPLY else OP_MSG), payload, rest)
  {
    var payload := ReplyPayload(opCode, doc);
    FrameReadsBack(respID, h.requestID, if opCode == OP_QUERY then OP_REPLY else OP_MSG, payload, rest);
  }

  lemma FrameReadsBack(id: int, to: int, op: int, payload: seq<byte>, rest: seq<byte>)
    requires IsInt32(id) && IsInt32(to) && IsInt32(op) && HEADER_LEN + |payload| <= MAX_MESSAGE
    ensures var n := HEADER_LEN + |payload|;
      ReadMessage(Frame(n, id, to, op, payload) + rest) == Message(Header(n, id, to, op), payload, rest)
  {
    var n := HEADER_LEN + |payload|;
    FramedFields(n, id, to, op, payload);
    MessageOf(Frame(n, id, to, op, payload), rest);
    Int32Back(id);
    Int32Back(to);
    Int32Back(op);
  }

  lemma SectionReadsBack(doc: seq<byte>)
    requires |doc| >= 4 && LittleEndian32(doc) == |doc|
    ensures CommandSection([0] + doc) == Some(doc)
  {
    var s := [0] + doc;
    assert s[1..] == doc && s[1..1 + |doc|] == doc;
  }

  /** A document framed as OP_MSG parses to the key of its first element and the fields of the next ones. */
  lemma MsgParsesBack(es: seq<Elem>)
    requires es != [] && (forall e :: e in es ==> Complete(e)) && |Document(es)| < MAX_LENGTH
    ensures var r := Request(OP_MSG, es[0].key, [], [], [], [], false);
      LocateMsg(ReplyPayload(OP_MSG, Document(es))) == At(r.(command := []), Document(es))
      && FromDocument(r.(command := []), Document(es)) == Ok(NotedAll(r, Take(es, MAX_ELEMENTS)[1..]))
  {
    DocumentLayout(es);
    MsgLocatesBack(Document(es));
    DocumentReadsBack(es);
  }

  lemma MsgLocatesBack(doc: seq<byte>)
    requires |doc| >= 4 && LittleEndian32(doc) == |doc|
    ensures LocateMsg(ReplyPayload(OP_MSG, doc)) == At(Request(OP_MSG, [], [], [], [], [], false), doc)
  {
    NumberThen(0, [0] + doc);
    SectionReadsBack(doc);
  }

  /** A non-empty document framed as OP_MSG within 64 KiB is read back with the key of its first element as the command. */
  lemma FrameRoundTrip(es: seq<Elem>, h: Header, respID: int, rest: seq<byte>)
    requires es != [] && (forall e :: e in es ==> Complete(e))
    requires IsInt32(h.requestID) && IsInt32(respID) && HEADER_LEN + 5 + |Document(es)| <= MAX_MESSAGE
    ensures var m := ReadMessage(Reply(OP_MSG, h, respID, Document(es)) + rest);
      && m.Message? && m.rest == rest && m.header.requestID == respID && m.header.responseTo == h.requestID
      && Parse(m.header, m.body).Ok? && Parse(m.header, m.body).request.command == es[0].key
  {
    ReplyReadsBack(OP_MSG, h, respID, Document(es), rest);
    MsgParsesBack(es);
    NotedKeepsCommand(Request(OP_MSG, es[0].key, [], [], [], [], false), Take(es, MAX_ELEMENTS)[1..]);
  }

  lemma {:induction false} NotedKeepsCommand(r: Request, es: seq<Elem>)
    ensures NotedAll(r, es).command == r.command
  {
    if es != [] {
      NotedKeepsCommand(r, es[..|es| - 1]);
    }
  }

  /** The database of a command is the last string under $db after the first element; a $db of another type is
      passed over. */
  lemma {:induction false} DatabaseIsLast(r: Request, es: seq<Elem>, e: Elem, after: seq<Elem>)
    requires e.key == DB_KEY && StringOf(e).Some? && forall x :: x in after && x.key == DB_KEY ==> StringOf(x).None?
    ensures NotedAll(r, es + [e] + after).db == StringOf(e).value
    decreases |after|
  {
    var all := es + [e] + after;
    if after == [] {
      assert all[..|all| - 1] == es && all[|all| - 1] == e;
    } else {
      var front := after[..|after| - 1];
      DatabaseIsLast(r, es, e, front);
      assert all[..|all| - 1] == es + [e] + front && all[|all| - 1] == after[|after| - 1];
    }
  }

  /** Without such a string the database is the one the request came with. */
  lemma {:induction false} DatabaseStays(r: Request, es: seq<Elem>)
    requires forall x :: x in es && x.key == DB_KEY ==> StringOf(x).None?
    ensures NotedAll(r, es).db == r.db
  {
    if es != [] {
      DatabaseStays(r, es[..|es| - 1]);
    }
  }
}
