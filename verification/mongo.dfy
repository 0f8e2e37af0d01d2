/** MongoDB wire messages: reading, parsing a command and framing a reply. */
module Mongo {
  import opened Fifo
  import opened Bytes
  import opened Bson

  const MAX_MESSAGE := 0x1_0000
  const HEADER_LEN := 16
  const MAX_NAMESPACE := 256
  const OP_REPLY := 1
  const OP_QUERY := 2004
  const OP_MSG := 2013
  const DOT: byte := 0x2e
  const CMD_SUFFIX: seq<byte> := [0x2e, 0x24, 0x63, 0x6d, 0x64]          // .$cmd
  const QUERY: seq<byte> := [0x71, 0x75, 0x65, 0x72, 0x79]               // query
  const DB_KEY: seq<byte> := [0x24, 0x64, 0x62]                          // $db
  const MECHANISM_KEY: seq<byte> := [0x6d, 0x65, 0x63, 0x68, 0x61, 0x6e, 0x69, 0x73, 0x6d]
  const USER_KEY: seq<byte> := [0x75, 0x73, 0x65, 0x72]
  const PAYLOAD_KEY: seq<byte> := [0x70, 0x61, 0x79, 0x6c, 0x6f, 0x61, 0x64]

  /** A 32-bit pattern as a signed number. */
  function AsInt32(n: nat): int {
    if n < 0x8000_0000 then n else n - 0x1_0000_0000
  }

  predicate IsInt32(v: int) {
    -0x8000_0000 <= v < 0x8000_0000
  }

  datatype Header = Header(length: nat, requestID: int, responseTo: int, opCode: int)

  /** What is read off a stream: the message and the bytes behind it, or why there is none. */
  datatype Read = Message(header: Header, body: seq<byte>, rest: seq<byte>) | Ended | TooLong | Malformed

  function HeaderOf(input: seq<byte>): Header
    requires |input| >= HEADER_LEN
  {
    Header(LittleEndian32(input), AsInt32(LittleEndian32(input[4..])), AsInt32(LittleEndian32(input[8..])), AsInt32(LittleEndian32(input[12..])))
  }

  /** One message off the bytes that arrive before the stream ends. */
  function ReadMessage(input: seq<byte>): Read {
    if |input| < HEADER_LEN then Ended
    else
      var n := LittleEndian32(input);
      if n > MAX_MESSAGE then TooLong
      else if n < HEADER_LEN then Malformed
      else if |input| < n then Ended
      else Message(HeaderOf(input), input[HEADER_LEN..n], input[n..])
  }

  datatype Request = Request(opCode: int, command: seq<byte>, db: seq<byte>, mechanism: seq<byte>, user: seq<byte>, payload: seq<byte>, noReply: bool)

  datatype Parsed = Ok(request: Request) | Invalid | Unsupported

  /** The command document: the first section of kind 0. */
  function CommandSection(rest: seq<byte>): (doc: Option<seq<byte>>)
    decreases |rest|
  {
    if |rest| < 5 then None
    else
      var kind, size := rest[0], LittleEndian32(rest[1..]);
      if size < 4 || size > |rest| - 1 then None
      else if kind == 0 then Some(rest[1..1 + size])
      else if kind == 1 then CommandSection(rest[1 + size..])
      else None
  }

  /** The section loop. */
  method FindSection(sections: seq<byte>) returns (doc: Option<seq<byte>>)
    ensures doc == CommandSection(sections)
  {
    var rest := sections;
    doc := None;
    while |rest| > 0 && doc.None?
      invariant doc.None? ==> CommandSection(sections) == CommandSection(rest)
      invariant doc.Some? ==> CommandSection(sections) == doc
      decreases |rest|
    {
      var kind := rest[0];
      ghost var before := rest;
      rest := rest[1..];
      if |rest| < 4 {
        return None;
      }
      var size := LittleEndian32(rest);
      if size < 4 || size > |rest| {
        return None;
      }
      if kind == 0 {
        doc := Some(rest[..size]);
      } else if kind != 1 {
        return None;
      }
      rest := rest[size..];
      assert rest == before[1 + size..] && before[1..1 + size] == before[1..][..size];
    }
  }

  /** What an element after the first adds to the request. */
  function Noted(r: Request, e: Elem): Request {
    if e.key == DB_KEY then (if StringOf(e).Some? then r.(db := StringOf(e).value) else r)
    else if e.key == MECHANISM_KEY then (if StringOf(e).Some? then r.(mechanism := StringOf(e).value) else r)
    else if e.key == USER_KEY then (if StringOf(e).Some? then r.(user := StringOf(e).value) else r)
    else if e.key == PAYLOAD_KEY then (if BinaryOf(e).Some? then r.(payload := BinaryOf(e).value) else r)
    else r
  }

  function NotedAll(r: Request, es: seq<Elem>): Request {
    if es == [] then r else Noted(NotedAll(r, es[..|es| - 1]), es[|es| - 1])
  }

  /** The command is the key of the first element; later elements fill the fields. */
  ghost function FromDocument(r: Request, doc: seq<byte>): Parsed {
    var w := Walk(doc);
    if !w.ok || w.elems == [] then Invalid
    else Ok(NotedAll(r.(command := w.elems[0].key), w.elems[1..]))
  }

  method NoteElems(r: Request, es: seq<Elem>) returns (req: Request)
    ensures req == NotedAll(r, es)
  {
    req := r;
    var i := 0;
    while i < |es|
      invariant 0 <= i <= |es| && req == NotedAll(r, es[..i])
    {
      assert es[..i + 1][..i] == es[..i];
      req := Noted(req, es[i]);
      i := i + 1;
    }
    assert es[..i] == es;
  }

  method ReadDocument(r: Request, doc: seq<byte>) returns (p: Parsed)
    ensures p == FromDocument(r, doc)
  {
    var elems, ok := BsonWalk(doc);
    if !ok || elems == [] {
      return Invalid;
    }
    var req := NoteElems(r.(command := elems[0].key), elems[1..]);
    return Ok(req);
  }

  /** Bits 0 and 1 of the flags are known; bits 2 to 15 must be clear. */
  predicate KnownFlags(flags: nat) {
    flags % 0x1_0000 < 4
  }

  /** The document that holds a command and the request so far, or a verdict without one. */
  datatype Located = At(request: Request, doc: seq<byte>) | Now(parsed: Parsed)

  function LocateMsg(body: seq<byte>): Located {
    if |body| < 4 then Now(Invalid)
    else
      var flags := LittleEndian32(body);
      var sections := if flags % 2 == 1 then (if |body| < 8 then [] else body[4..|body| - 4]) else body[4..];
      if !KnownFlags(flags) || CommandSection(sections).None? then Now(Invalid)
      else At(Request(OP_MSG, [], [], [], [], [], flags / 2 % 2 == 1), CommandSection(sections).value)
  }

  predicate EndsWith(s: seq<byte>, t: seq<byte>) {
    |t| <= |s| && s[|s| - |t|..] == t
  }

  ghost function LocateQuery(body: seq<byte>): Located {
    if |body| < 4 then Now(Invalid)
    else
      var end := IndexOfByte(body, 0, 4);
      if end.None? || end.value - 4 > MAX_NAMESPACE || |body| < end.value + 9 then Now(Invalid)
      else
        var ns, empty := body[4..end.value], Request(OP_QUERY, [], [], [], [], [], false);
        if EndsWith(ns, CMD_SUFFIX) then At(empty.(db := ns[..|ns| - |CMD_SUFFIX|]), body[end.value + 9..])
        else
          var dot := IndexOfByte(ns, DOT, 0);
          Now(Ok(empty.(command := QUERY, db := if dot.None? then ns else ns[..dot.value])))
  }

  ghost function Locate(h: Header, body: seq<byte>): Located {
    if h.opCode == OP_MSG then LocateMsg(body)
    else if h.opCode == OP_QUERY then LocateQuery(body)
    else Now(Unsupported)
  }

  ghost function Parse(h: Header, body: seq<byte>): Parsed {
    match Locate(h, body)
    case At(r, doc) => FromDocument(r, doc)
    case Now(p) => p
  }

  method FindMsgDocument(body: seq<byte>) returns (l: Located)
    ensures l == LocateMsg(body)
  {
    if |body| < 4 {
      return Now(Invalid);
    }
    var flags := LittleEndian32(body);
    if !KnownFlags(flags) {
      return Now(Invalid);
    }
    var rest := body[4..];
    if flags % 2 == 1 {
      if |rest| < 4 {
        return Now(Invalid);
      }
      rest := rest[..|rest| - 4];
      assert rest == body[4..|body| - 4];
    }
    var doc := FindSection(rest);
    if doc.None? {
      return Now(Invalid);
    }
    return At(Request(OP_MSG, [], [], [], [], [], flags / 2 % 2 == 1), doc.value);
  }

  method FindQueryDocument(body: seq<byte>) returns (l: Located)
    ensures l == LocateQuery(body)
  {
    if |body| < 4 {
      return Now(Invalid);
    }
    var end := FindByte(body, 0, 4);
    if end < 0 || end - 4 > MAX_NAMESPACE {
      return Now(Invalid);
    }
    var ns := body[4..end];
    if |body| - (end + 1) < 8 {
      return Now(Invalid);
    }
    var req := Request(OP_QUERY, [], [], [], [], [], false);
    if !EndsWith(ns, CMD_SUFFIX) {
      var dot := FindByte(ns, DOT, 0);
      return Now(Ok(req.(command := QUERY, db := if dot < 0 then ns else ns[..dot])));
    }
    return At(req.(db := ns[..|ns| - |CMD_SUFFIX|]), body[end + 9..]);
  }

  method ParseMongoMessage(h: Header, body: seq<byte>) returns (p: Parsed)
    ensures p == Parse(h, body)
  {
    var l := Now(Unsupported);
    if h.opCode == OP_MSG {
      l := FindMsgDocument(body);
    } else if h.opCode == OP_QUERY {
      l := FindQueryDocument(body);
    }
    match l {
      case Now(verdict) => return verdict;
      case At(request, doc) => p := ReadDocument(request, doc);
    }
  }

  /** A reply to a request: OP_REPLY for OP_QUERY, else OP_MSG. */
  function ReplyPayload(opCode: int, doc: seq<byte>): seq<byte> {
    if opCode == OP_QUERY then
      PutLittleEndian32(8) + [0, 0, 0, 0, 0, 0, 0, 0] + PutLittleEndian32(0) + PutLittleEndian32(1) + doc
    else PutLittleEndian32(0) + ([0] + doc)
  }

  /** A message: the four numbers of the header, then the payload. */
  function Frame(n: int, id: int, to: int, op: int, payload: seq<byte>): seq<byte> {
    PutLittleEndian32(n) + (PutLittleEndian32(id) + (PutLittleEndian32(to) + (PutLittleEndian32(op) + payload)))
  }

  function Reply(opCode: int, h: Header, respID: int, doc: seq<byte>): seq<byte> {
    var payload := ReplyPayload(opCode, doc);
    Frame(HEADER_LEN + |payload|, respID, h.requestID, if opCode == OP_QUERY then OP_REPLY else OP_MSG, payload)
  }
}
