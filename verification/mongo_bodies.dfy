/** Exactly which message bodies hold a command, and which command. */
module MongoBodies {
  import opened Fifo
  import opened Bytes
  import opened Bson
  import opened BsonWriter
  import opened Mongo
  import opened MongoFrames

  // ---- OP_QUERY ----

  /** An OP_QUERY body: the flags, a namespace that ends in a zero byte, two numbers and a document. */
  function QueryBody(flags: seq<byte>, ns: seq<byte>, numbers: seq<byte>, doc: seq<byte>): seq<byte> {
    flags + (ns + ([0] + (numbers + doc)))
  }

  ghost predicate GoodQuery(flags: seq<byte>, ns: seq<byte>, numbers: seq<byte>) {
    |flags| == 4 && 0 !in ns && |ns| <= MAX_NAMESPACE && |numbers| == 8
  }

  lemma QueryLayout(flags: seq<byte>, ns: seq<byte>, numbers: seq<byte>, doc: seq<byte>)
    requires GoodQuery(flags, ns, numbers)
    ensures var body, end := QueryBody(flags, ns, numbers, doc), 4 + |ns|;
      && |body| >= end + 9 && body[4..end] == ns && body[end] == 0 && body[end + 9..] == doc
  {
  }

  lemma QueryEnds(flags: seq<byte>, ns: seq<byte>, numbers: seq<byte>, doc: seq<byte>)
    requires GoodQuery(flags, ns, numbers)
    ensures IndexOfByte(QueryBody(flags, ns, numbers, doc), 0, 4) == Some(4 + |ns|)
  {
    QueryLayout(flags, ns, numbers, doc);
    KeyEnds(QueryBody(flags, ns, numbers, doc), 4, ns);
  }

  /** A command namespace leads to the document, with the database in front of it. */
  lemma CommandLocates(flags: seq<byte>, db: seq<byte>, numbers: seq<byte>, doc: seq<byte>)
    requires GoodQuery(flags, db + CMD_SUFFIX, numbers)
    ensures LocateQuery(QueryBody(flags, db + CMD_SUFFIX, numbers, doc)) == At(Request(OP_QUERY, [], db, [], [], [], false), doc)
  {
    var ns := db + CMD_SUFFIX;
    QueryLayout(flags, ns, numbers, doc);
    QueryEnds(flags, ns, numbers, doc);
    assert ns[|ns| - |CMD_SUFFIX|..] == CMD_SUFFIX && ns[..|ns| - |CMD_SUFFIX|] == db;
  }

  lemma PlainLocates(flags: seq<byte>, ns: seq<byte>, numbers: seq<byte>, doc: seq<byte>)
    requires GoodQuery(flags, ns, numbers) && !EndsWith(ns, CMD_SUFFIX)
    ensures var dot := IndexOfByte(ns, DOT, 0);
      LocateQuery(QueryBody(flags, ns, numbers, doc)) ==
        Now(Ok(Request(OP_QUERY, QUERY, if dot.None? then ns else ns[..dot.value], [], [], [], false)))
  {
    QueryLayout(flags, ns, numbers, doc);
    QueryEnds(flags, ns, numbers, doc);
  }

  /** A document sent to db.$cmd parses to the key of its first element and the fields of the next ones. */
  lemma CommandParsesBack(h: Header, flags: seq<byte>, db: seq<byte>, numbers: seq<byte>, es: seq<Elem>)
    requires h.opCode == OP_QUERY && GoodQuery(flags, db + CMD_SUFFIX, numbers)
    requires es != [] && (forall e :: e in es ==> Complete(e)) && |Document(es)| < MAX_LENGTH
    ensures Parse(h, QueryBody(flags, db + CMD_SUFFIX, numbers, Document(es))) ==
      Ok(NotedAll(Request(OP_QUERY, es[0].key, db, [], [], [], false), Take(es, MAX_ELEMENTS)[1..]))
  {
    CommandLocates(flags, db, numbers, Document(es));
    DocumentReadsBack(es);
  }

  lemma FirstDot(db: seq<byte>, rest: seq<byte>)
    requires DOT !in db
    ensures IndexOfByte(db + ([DOT] + rest), DOT, 0) == Some(|db|)
  {
    assert FirstAt(db + ([DOT] + rest), DOT, 0, |db|);
  }

  /** A query on a collection parses to "query" and the part before the first dot, whatever document it carries. */
  lemma QueryParsesBack(h: Header, flags: seq<byte>, db: seq<byte>, rest: seq<byte>, numbers: seq<byte>, doc: seq<byte>)
    requires var ns := db + ([DOT] + rest);
      h.opCode == OP_QUERY && GoodQuery(flags, ns, numbers) && DOT !in db && !EndsWith(ns, CMD_SUFFIX)
    ensures Parse(h, QueryBody(flags, db + ([DOT] + rest), numbers, doc)) ==
      Ok(Request(OP_QUERY, QUERY, db, [], [], [], false))
  {
    PlainLocates(flags, db + ([DOT] + rest), numbers, doc);
    FirstDot(db, rest);
    assert (db + ([DOT] + rest))[..|db|] == db;
  }

  /** A namespace without a dot is the database. */
  lemma DotlessParsesBack(h: Header, flags: seq<byte>, ns: seq<byte>, numbers: seq<byte>, doc: seq<byte>)
    requires h.opCode == OP_QUERY && GoodQuery(flags, ns, numbers) && DOT !in ns
    ensures Parse(h, QueryBody(flags, ns, numbers, doc)) == Ok(Request(OP_QUERY, QUERY, ns, [], [], [], false))
  {
    assert |ns| >= |CMD_SUFFIX| ==> ns[|ns| - |CMD_SUFFIX|..][0] == ns[|ns| - |CMD_SUFFIX|];
    PlainLocates(flags, ns, numbers, doc);
  }

  /** Every other body is malformed: what is located came from a good body. */
  lemma LocatedIsGood(body: seq<byte>) returns (flags: seq<byte>, ns: seq<byte>, numbers: seq<byte>, doc: seq<byte>)
    requires LocateQuery(body) != Now(Invalid)
    ensures GoodQuery(flags, ns, numbers) && body == QueryBody(flags, ns, numbers, doc)
  {
    var end := IndexOfByte(body, 0, 4).value;
    flags, ns, numbers, doc := body[..4], body[4..end], body[end + 1..end + 9], body[end + 9..];
    assert body[end..end + 1] == [0];
    assert body == body[..4] + (body[4..end] + (body[end..end + 1] + (body[end + 1..end + 9] + body[end + 9..])));
  }

  // ---- OP_MSG ----

  /** The sections of kind 1, each with its length in front. */
  function Sequences(seqs: seq<seq<byte>>): seq<byte> {
    if seqs == [] then [] else [1] + (PutLittleEndian32(4 + |seqs[0]|) + seqs[0]) + Sequences(seqs[1..])
  }

  ghost predicate Fit(seqs: seq<seq<byte>>) {
    forall i :: 0 <= i < |seqs| ==> 4 + |seqs[i]| < MAX_LENGTH
  }

  /** A document whose length is its own. */
  ghost predicate Sized(doc: seq<byte>) {
    |doc| >= 4 && LittleEndian32(doc) == |doc|
  }

  lemma SkipAt(s: seq<byte>, size: nat)
    requires |s| >= 5 && s[0] == 1 && LittleEndian32(s[1..]) == size && 4 <= size <= |s| - 1
    ensures CommandSection(s) == CommandSection(s[1 + size..])
  {
  }

  lemma SkipOne(first: seq<byte>, rest: seq<byte>)
    requires 4 + |first| < MAX_LENGTH
    ensures CommandSection([1] + (PutLittleEndian32(4 + |first|) + first) + rest) == CommandSection(rest)
  {
    var size := 4 + |first|;
    var s := [1] + (PutLittleEndian32(size) + first) + rest;
    assert s[1..] == PutLittleEndian32(size) + (first + rest);
    NumberThen(size, first + rest);
    assert s[1 + size..] == rest;
    SkipAt(s, size);
  }

  lemma CommandFirst(doc: seq<byte>, more: seq<byte>)
    requires Sized(doc)
    ensures CommandSection([0] + doc + more) == Some(doc)
  {
    var s := [0] + doc + more;
    assert s[1..] == doc + more && s[1..1 + |doc|] == doc;
    FrontStays(doc, more);
  }

  /** Sections of kind 1 in front of the command document are skipped, and what follows it is not read. */
  lemma {:induction false} SequencesSkipped(seqs: seq<seq<byte>>, doc: seq<byte>, more: seq<byte>)
    requires Fit(seqs) && Sized(doc)
    ensures CommandSection(Sequences(seqs) + ([0] + doc + more)) == Some(doc)
    decreases |seqs|
  {
    var tail := [0] + doc + more;
    if seqs == [] {
      CommandFirst(doc, more);
      assert [] + tail == tail;
    } else {
      var first, rest := [1] + (PutLittleEndian32(4 + |seqs[0]|) + seqs[0]), Sequences(seqs[1..]);
      SequencesSkipped(seqs[1..], doc, more);
      SkipOne(seqs[0], rest + tail);
      assert (first + rest) + tail == first + (rest + tail);
    }
  }

  lemma SectionSplits(rest: seq<byte>, size: nat)
    requires |rest| >= 5 && LittleEndian32(rest[1..]) == size && 4 <= size <= |rest| - 1
    ensures rest[1..1 + size] == PutLittleEndian32(4 + |rest[5..1 + size]|) + rest[5..1 + size]
    ensures rest == [rest[0]] + rest[1..1 + size] + rest[1 + size..]
    ensures LittleEndian32(rest[1..1 + size]) == size
  {
    NumberIs(rest[1..]);
    assert rest[1..1 + size][..4] == rest[1..][..4];
  }

  lemma LowByte(low: int, high: int)
    requires 0 <= low < 0x100
    ensures (low + 0x100 * high) % 0x100 == low && (low + 0x100 * high) / 0x100 == high
  {
  }

  lemma Halves(n: nat)
    ensures n / 0x1_0000 == n / 0x100 / 0x100 && n / 0x100_0000 == n / 0x100 / 0x100 / 0x100
  {
  }

  /** Four bytes are those of their number. */
  lemma NumberIs(s: seq<byte>)
    requires |s| >= 4
    ensures PutLittleEndian32(LittleEndian32(s)) == s[..4]
  {
    var a: int, b: int, c: int, d: int := s[0], s[1], s[2], s[3];
    LowByte(a, b + 0x100 * (c + 0x100 * d));
    LowByte(b, c + 0x100 * d);
    LowByte(c, d);
    var n := LittleEndian32(s);
    assert n == a + 0x100 * (b + 0x100 * (c + 0x100 * d));
    Halves(n);
    assert n % MAX_LENGTH == n;
  }

  /** A command document is only found behind sections of kind 1. */
  lemma {:induction false} CommandIsBehind(rest: seq<byte>) returns (seqs: seq<seq<byte>>, doc: seq<byte>, more: seq<byte>)
    requires CommandSection(rest).Some?
    ensures Fit(seqs) && Sized(doc) && rest == Sequences(seqs) + ([0] + doc + more) && CommandSection(rest) == Some(doc)
    decreases |rest|
  {
    var size := LittleEndian32(rest[1..]);
    SectionSplits(rest, size);
    if rest[0] == 0 {
      seqs, doc, more := [], rest[1..1 + size], rest[1 + size..];
      assert [] + ([0] + doc + more) == rest;
    } else {
      var tail;
      tail, doc, more := CommandIsBehind(rest[1 + size..]);
      var first := rest[5..1 + size];
      seqs := [first] + tail;
      assert seqs[1..] == tail;
      assert rest == ([1] + (PutLittleEndian32(4 + |first|) + first) + Sequences(tail)) + ([0] + doc + more);
    }
  }

  /** An OP_MSG body: the flags, sections, the command document, more sections and, by flag, a checksum. */
  function MsgBody(flags: int, seqs: seq<seq<byte>>, doc: seq<byte>, more: seq<byte>, checksum: seq<byte>): seq<byte> {
    PutLittleEndian32(flags) + (Sequences(seqs) + ([0] + doc + more) + checksum)
  }

  lemma MsgLayout(flags: nat, sections: seq<byte>, checksum: seq<byte>)
    requires flags < MAX_LENGTH
    ensures var body := PutLittleEndian32(flags) + (sections + checksum);
      |body| == 4 + |sections| + |checksum| && LittleEndian32(body) == flags && body[4..|body| - |checksum|] == sections
  {
    NumberThen(flags, sections + checksum);
    assert flags % MAX_LENGTH == flags;
  }

  lemma LocatesIn(body: seq<byte>, flags: nat, sections: seq<byte>, doc: seq<byte>)
    requires |body| >= 4 && LittleEndian32(body) == flags && KnownFlags(flags) && CommandSection(sections) == Some(doc)
    requires var n := if flags % 2 == 1 then 4 else 0; |body| >= 4 + n && body[4..|body| - n] == sections
    ensures LocateMsg(body) == At(Request(OP_MSG, [], [], [], [], [], flags / 2 % 2 == 1), doc)
  {
    assert body[4..|body|] == body[4..];
  }

  lemma MsgLocates(flags: nat, seqs: seq<seq<byte>>, doc: seq<byte>, more: seq<byte>, checksum: seq<byte>)
    requires flags < MAX_LENGTH && KnownFlags(flags) && Fit(seqs) && Sized(doc)
    requires |checksum| == if flags % 2 == 1 then 4 else 0
    ensures LocateMsg(MsgBody(flags, seqs, doc, more, checksum)) ==
      At(Request(OP_MSG, [], [], [], [], [], flags / 2 % 2 == 1), doc)
  {
    var sections := Sequences(seqs) + ([0] + doc + more);
    SequencesSkipped(seqs, doc, more);
    MsgLayout(flags, sections, checksum);
    LocatesIn(MsgBody(flags, seqs, doc, more, checksum), flags, sections, doc);
  }

  /** A document in an OP_MSG parses to the key of its first element and the fields of the next ones, with any
      sections around it and with or without a checksum. */
  lemma MsgBodyParsesBack(h: Header, flags: nat, seqs: seq<seq<byte>>, es: seq<Elem>, more: seq<byte>, checksum: seq<byte>)
    requires h.opCode == OP_MSG && flags < MAX_LENGTH && KnownFlags(flags) && Fit(seqs)
    requires |checksum| == if flags % 2 == 1 then 4 else 0
    requires es != [] && (forall e :: e in es ==> Complete(e)) && |Document(es)| < MAX_LENGTH
    ensures Parse(h, MsgBody(flags, seqs, Document(es), more, checksum)) ==
      Ok(NotedAll(Request(OP_MSG, es[0].key, [], [], [], [], flags / 2 % 2 == 1), Take(es, MAX_ELEMENTS)[1..]))
  {
    DocumentLayout(es);
    MsgLocates(flags, seqs, Document(es), more, checksum);
    DocumentReadsBack(es);
  }

  /** A body with this command document: of the low sixteen flags only the first two may be set. */
  ghost predicate IsMsg(body: seq<byte>, flags: nat, seqs: seq<seq<byte>>, doc: seq<byte>, more: seq<byte>, checksum: seq<byte>) {
    && flags < MAX_LENGTH && flags % 0x1_0000 <= 3 && Fit(seqs) && Sized(doc)
    && |checksum| == (if flags % 2 == 1 then 4 else 0) && body == MsgBody(flags, seqs, doc, more, checksum)
  }

  lemma LocatedIn(body: seq<byte>, n: nat)
    requires LocateMsg(body).At? && n == if LittleEndian32(body) % 2 == 1 then 4 else 0
    ensures |body| >= 4 + n && LittleEndian32(body) % 0x1_0000 <= 3
    ensures CommandSection(body[4..|body| - n]) == Some(LocateMsg(body).doc)
    ensures LocateMsg(body).request.noReply == (LittleEndian32(body) / 2 % 2 == 1)
  {
    assert CommandSection([]) == None;
    assert body[4..|body|] == body[4..];
  }

  lemma BodySplits(body: seq<byte>, n: nat)
    requires |body| >= 4 + n
    ensures body == PutLittleEndian32(LittleEndian32(body)) + (body[4..|body| - n] + body[|body| - n..])
  {
    NumberIs(body);
  }

  lemma LocatedIsMsg(body: seq<byte>) returns (flags: nat, seqs: seq<seq<byte>>, more: seq<byte>, checksum: seq<byte>)
    requires LocateMsg(body).At?
    ensures IsMsg(body, flags, seqs, LocateMsg(body).doc, more, checksum)
    ensures LocateMsg(body).request.noReply == (flags / 2 % 2 == 1)
  {
    flags := LittleEndian32(body);
    var n := if flags % 2 == 1 then 4 else 0;
    LocatedIn(body, n);
    BodySplits(body, n);
    checksum := body[|body| - n..];
    var doc;
    seqs, doc, more := CommandIsBehind(body[4..|body| - n]);
  }

  /** A command document is located in an OP_MSG if and only if the body has that form around it. */
  lemma MsgLocatedIff(body: seq<byte>, quiet: bool, doc: seq<byte>)
    ensures LocateMsg(body) == At(Request(OP_MSG, [], [], [], [], [], quiet), doc) <==>
      exists flags: nat, seqs, more, checksum :: IsMsg(body, flags, seqs, doc, more, checksum) && quiet == (flags / 2 % 2 == 1)
  {
    if LocateMsg(body) == At(Request(OP_MSG, [], [], [], [], [], quiet), doc) {
      var flags, seqs, more, checksum := LocatedIsMsg(body);
      assert IsMsg(body, flags, seqs, doc, more, checksum);
    }
    if exists flags: nat, seqs, more, checksum :: IsMsg(body, flags, seqs, doc, more, checksum) && quiet == (flags / 2 % 2 == 1) {
      var flags: nat, seqs, more, checksum :| IsMsg(body, flags, seqs, doc, more, checksum) && quiet == (flags / 2 % 2 == 1);
      MsgLocates(flags, seqs, doc, more, checksum);
    }
  }
}
