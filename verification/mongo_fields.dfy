/** The fields a command document fills in a request. */
module MongoFields {
  import opened Fifo
  import opened Bytes
  import opened Bson
  import opened Mongo

  datatype Field = Database | Mechanism | User | Payload

  /** The key a field is read from. */
  function Name(f: Field): string {
    match f
    case Database => "$db"
    case Mechanism => "mechanism"
    case User => "user"
    case Payload => "payload"
  }

  predicate Spells(key: seq<byte>, name: string) {
    |key| == |name| && forall i :: 0 <= i < |key| ==> key[i] as int == name[i] as int
  }

  function Value(r: Request, f: Field): seq<byte> {
    match f
    case Database => r.db
    case Mechanism => r.mechanism
    case User => r.user
    case Payload => r.payload
  }

  /** The element has the text for the field: a string behind its length and before its zero byte, or, for the
      payload, also binary data behind its length and subtype. */
  ghost predicate Says(e: Elem, f: Field, text: seq<byte>) {
    && Spells(e.key, Name(f))
    && ((e.typ == 2 && exists size, zero :: |size| == 4 && e.val == size + text + [zero])
        || (f == Payload && e.typ == 5 && exists head :: |head| == 5 && e.val == head + text))
  }

  ghost predicate Silent(e: Elem, f: Field) {
    forall text :: !Says(e, f, text)
  }

  // ---------- one element ----------

  function Key(f: Field): seq<byte> {
    match f
    case Database => DB_KEY
    case Mechanism => MECHANISM_KEY
    case User => USER_KEY
    case Payload => PAYLOAD_KEY
  }

  lemma KeySpells(key: seq<byte>, f: Field)
    ensures Spells(key, Name(f)) <==> key == Key(f)
  {
    if Spells(key, Name(f)) {
      assert |key| == |Key(f)| && forall i :: 0 <= i < |key| ==> key[i] == Key(f)[i];
    }
  }

  function Read(e: Elem, f: Field): Option<seq<byte>> {
    if f == Payload then BinaryOf(e) else StringOf(e)
  }

  lemma ReadsText(e: Elem, f: Field, text: seq<byte>)
    ensures Says(e, f, text) <==> Spells(e.key, Name(f)) && Read(e, f) == Some(text)
  {
    if Spells(e.key, Name(f)) {
      if e.typ == 2 && |e.val| >= 5 {
        assert e.val == e.val[..4] + e.val[4..|e.val| - 1] + [e.val[|e.val| - 1]];
      }
      if f == Payload && e.typ == 5 && |e.val| >= 5 {
        assert e.val == e.val[..5] + e.val[5..];
      }
      if Says(e, f, text) && e.typ == 2 {
        var size, zero :| |size| == 4 && e.val == size + text + [zero];
        assert e.val[4..|e.val| - 1] == text;
      }
      if Says(e, f, text) && e.typ == 5 {
        var head :| |head| == 5 && e.val == head + text;
        assert e.val[5..] == text;
      }
    }
  }

  lemma NotedSays(r: Request, e: Elem, f: Field, text: seq<byte>)
    requires Says(e, f, text)
    ensures Value(Noted(r, e), f) == text
  {
    ReadsText(e, f, text);
    KeySpells(e.key, f);
  }

  lemma NotedSilent(r: Request, e: Elem, f: Field)
    requires Silent(e, f)
    ensures Value(Noted(r, e), f) == Value(r, f)
  {
    KeySpells(e.key, f);
    if e.key == Key(f) && Read(e, f).Some? {
      ReadsText(e, f, Read(e, f).value);
      assert false;
    }
  }

  // ---------- all elements ----------

  /** The i-th element is the last that has a text for the field. */
  ghost predicate LastSays(es: seq<Elem>, i: nat, f: Field, text: seq<byte>) {
    i < |es| && Says(es[i], f, text) && forall j :: i < j < |es| ==> Silent(es[j], f)
  }

  lemma {:induction false} FieldIsLast(r: Request, es: seq<Elem>, i: nat, f: Field, text: seq<byte>)
    requires LastSays(es, i, f, text)
    ensures Value(NotedAll(r, es), f) == text
  {
    var front, last := es[..|es| - 1], es[|es| - 1];
    if i == |es| - 1 {
      NotedSays(NotedAll(r, front), last, f, text);
    } else {
      FieldIsLast(r, front, i, f, text);
      NotedSilent(NotedAll(r, front), last, f);
    }
  }

  lemma {:induction false} FieldStays(r: Request, es: seq<Elem>, f: Field)
    requires forall i :: 0 <= i < |es| ==> Silent(es[i], f)
    ensures Value(NotedAll(r, es), f) == Value(r, f)
  {
    if es != [] {
      FieldStays(r, es[..|es| - 1], f);
      NotedSilent(NotedAll(r, es[..|es| - 1]), es[|es| - 1], f);
    }
  }

  lemma {:induction false} RestStays(r: Request, es: seq<Elem>)
    ensures var q := NotedAll(r, es); q.opCode == r.opCode && q.command == r.command && q.noReply == r.noReply
  {
    if es != [] {
      RestStays(r, es[..|es| - 1]);
    }
  }

  /** The document names the command by its first key, and each field by the last later element that has a text
      for it; a field without one keeps what the message said. */
  ghost predicate Fills(before: Request, es: seq<Elem>, after: Request, f: Field)
    requires es != []
  {
    && (forall i: nat, text :: LastSays(es[1..], i, f, text) ==> Value(after, f) == text)
    && ((forall i :: 1 <= i < |es| ==> Silent(es[i], f)) ==> Value(after, f) == Value(before, f))
  }

  lemma ElementsFill(before: Request, es: seq<Elem>, f: Field)
    requires es != []
    ensures Fills(before, es, NotedAll(before.(command := es[0].key), es[1..]), f)
  {
    var r, rest := before.(command := es[0].key), es[1..];
    forall i: nat, text | LastSays(rest, i, f, text) ensures Value(NotedAll(r, rest), f) == text {
      FieldIsLast(r, rest, i, f, text);
    }
    if forall i :: 1 <= i < |es| ==> Silent(es[i], f) {
      assert forall i :: 0 <= i < |rest| ==> rest[i] == es[i + 1];
      FieldStays(r, rest, f);
    }
  }

  /** A message with a command document parses if and only if the document is well formed and not empty, and then
      every field of the request is what the document says. */
  lemma DocumentFills(h: Header, body: seq<byte>, f: Field)
    requires Locate(h, body).At?
    ensures var at := Locate(h, body);
      var w := Walk(at.doc);
      if !w.ok || w.elems == [] then Parse(h, body) == Invalid
      else Parse(h, body).Ok? && var q := Parse(h, body).request;
        && Fills(at.request, w.elems, q, f)
        && q.command == w.elems[0].key && q.opCode == at.request.opCode && q.noReply == at.request.noReply
  {
    var at := Locate(h, body);
    var es := Walk(at.doc).elems;
    if es != [] {
      ElementsFill(at.request, es, f);
      RestStays(at.request.(command := es[0].key), es[1..]);
    }
  }

  // ---------- messages ----------

  /** Four bytes, least significant first, as a number from 0. */
  function Number(w: seq<byte>): int
    requires |w| == 4
  {
    w[0] as int + w[1] as int * 0x100 + w[2] as int * 0x1_0000 + w[3] as int * 0x100_0000
  }

  /** The same as a two's complement number. */
  function SignedNumber(w: seq<byte>): int
    requires |w| == 4
  {
    if w[3] >= 0x80 then Number(w) - 0x1_0000_0000 else Number(w)
  }

  predicate IsHeader(head: seq<byte>, h: Header) {
    && |head| == 16 && h.length == Number(head[..4]) && h.requestID == SignedNumber(head[4..8])
    && h.responseTo == SignedNumber(head[8..12]) && h.opCode == SignedNumber(head[12..16])
  }

  lemma HeaderIs(input: seq<byte>)
    requires |input| >= 16
    ensures IsHeader(input[..16], HeaderOf(input))
    ensures Number(input[..4]) == LittleEndian32(input)
  {
    assert input[..16][..4] == input[..4];
    assert input[..16][4..8] == input[4..][..4];
    assert input[..16][8..12] == input[8..][..4];
    assert input[..16][12..16] == input[12..][..4];
  }

  /** A message is a header whose length counts all of it, at most 65536, and the body; what is behind stays. */
  lemma MessageIff(input: seq<byte>, h: Header, body: seq<byte>, rest: seq<byte>)
    ensures ReadMessage(input) == Message(h, body, rest) <==>
      exists head :: IsHeader(head, h) && h.length == 16 + |body| <= 65536 && input == head + body + rest
  {
    if ReadMessage(input) == Message(h, body, rest) {
      HeaderIs(input);
      assert input == input[..16] + body + rest;
    }
    if head :| IsHeader(head, h) && h.length == 16 + |body| <= 65536 && input == head + body + rest {
      assert input[..16] == head && input[16..16 + |body|] == body && input[16 + |body|..] == rest;
      HeaderIs(input);
      assert head[..4] == input[..4];
      OneHeader(head, h, HeaderOf(input));
    }
  }

  lemma OneHeader(head: seq<byte>, g: Header, h: Header)
    requires IsHeader(head, g) && IsHeader(head, h)
    ensures g == h
  {
  }

  /** Otherwise the length is out of range, or the bytes end first. */
  lemma NoMessageIff(input: seq<byte>)
    ensures ReadMessage(input) == TooLong <==> |input| >= 16 && Number(input[..4]) > 65536
    ensures ReadMessage(input) == Malformed <==> |input| >= 16 && Number(input[..4]) < 16
    ensures ReadMessage(input) == Ended <==> |input| < 16 || |input| < Number(input[..4]) <= 65536
  {
    if |input| >= 16 {
      HeaderIs(input);
    }
  }
}
