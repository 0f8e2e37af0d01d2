/** Which bytes a BSON walk takes, by the layouts of section "Specification Version 1.1" of bsonspec.org. */
module BsonForms {
  import opened Fifo
  import opened Bytes
  import opened Bson
  import opened BsonWriter

  // ---- values ----

  /** The first four bytes are n, least significant first. */
  predicate Starts(v: seq<byte>, n: int) {
    |v| >= 4 && v[0] as int + v[1] as int * 0x100 + v[2] as int * 0x1_0000 + v[3] as int * 0x100_0000 == n
  }

  /** Two strings without a zero byte, each with one behind it. */
  ghost predicate IsTwoStrings(v: seq<byte>) {
    exists a: seq<byte>, b: seq<byte> :: 0 !in a && 0 !in b && v == a + [0] + b + [0]
  }

  /** The bytes are one whole value of the type. */
  ghost predicate IsValue(typ: int, v: seq<byte>) {
    if typ in {1, 9, 17, 18} then |v| == 8                      // double, date, timestamp, 64-bit integer
    else if typ == 16 then |v| == 4                             // 32-bit integer
    else if typ == 7 then |v| == 12                             // object id
    else if typ == 8 then |v| == 1                              // boolean
    else if typ == 19 then |v| == 16                            // decimal
    else if typ in {6, 10, 127, 255} then v == []               // undefined, null, maximum key, minimum key
    else if typ in {2, 13, 14} then |v| >= 5 && Starts(v, |v| - 4)  // string, code, symbol
    else if typ in {3, 4, 15} then |v| >= 5 && Starts(v, |v|)       // document, array, code with scope
    else if typ == 5 then |v| >= 5 && Starts(v, |v| - 5)            // binary
    else if typ == 11 then IsTwoStrings(v)                      // regular expression
    else typ == 12 && |v| >= 17 && Starts(v, |v| - 16)          // database reference
  }

  lemma NumberStays(rest: seq<byte>, n: nat)
    requires 4 <= n <= |rest|
    ensures forall k :: Starts(rest[..n], k) <==> LittleEndian32(rest) == k
  {
  }

  lemma TwoStringsIff(rest: seq<byte>, n: nat)
    requires n <= |rest|
    ensures TwoStrings(rest) == Some(n) <==> IsTwoStrings(rest[..n])
  {
    if TwoStrings(rest) == Some(n) {
      var i := IndexOfByte(rest, 0, 0).value;
      var a, b := rest[..i], rest[i + 1..n - 1];
      assert rest[..n] == a + [0] + b + [0];
      assert IsTwoStrings(rest[..n]);
    }
    if IsTwoStrings(rest[..n]) {
      var a: seq<byte>, b: seq<byte> :| 0 !in a && 0 !in b && rest[..n] == a + [0] + b + [0];
      TwoStringsFound(rest, n, a, b);
    }
  }

  lemma TwoStringsFound(rest: seq<byte>, n: nat, a: seq<byte>, b: seq<byte>)
    requires n <= |rest| && 0 !in a && 0 !in b && rest[..n] == a + [0] + b + [0]
    ensures TwoStrings(rest) == Some(n)
  {
    var i, v := |a|, rest[..n];
    forall j | 0 <= j < i ensures rest[j] != 0 {
      assert rest[j] == v[j] == a[j];
    }
    forall j | i < j < n - 1 ensures rest[j] != 0 {
      assert rest[j] == v[j] == b[j - i - 1];
    }
    assert rest[i] == v[i] == 0 && rest[n - 1] == v[n - 1] == 0;
    assert FirstAt(rest, 0, 0, i) && FirstAt(rest, 0, i + 1, n - 1);
  }

  /** The size found is that of the value at the front, for every type. */
  lemma ValueSizeIff(typ: byte, rest: seq<byte>, n: nat)
    ensures ValueSize(typ, rest) == Some(n) <==> n <= |rest| && IsValue(typ, rest[..n])
  {
    if n <= |rest| {
      if n >= 4 {
        NumberStays(rest, n);
      }
      if typ == 11 {
        TwoStringsIff(rest, n);
      }
    }
  }

  // ---- elements ----

  ghost predicate IsElem(e: Elem) {
    0 !in e.key && IsValue(e.typ, e.val)
  }

  lemma IsElemIsComplete(e: Elem)
    ensures IsElem(e) <==> Complete(e)
  {
    ValueSizeIff(e.typ, e.val, |e.val|);
    assert e.val[..|e.val|] == e.val;
  }

  /** What is found at a position stands there, and is one element. */
  lemma FoundStands(body: seq<byte>, pos: nat)
    requires pos < |body| && ElemAt(body, pos).Next?
    ensures var r := ElemAt(body, pos);
      r.after <= |body| && body[pos..r.after] == [r.elem.typ] + r.elem.key + [0] + r.elem.val && IsElem(r.elem)
  {
    var r, end := ElemAt(body, pos), IndexOfByte(body, 0, pos + 1).value;
    var rest := body[end + 1..];
    var size := ValueSize(body[pos], rest).value;
    ValueSizeIff(body[pos], rest, size);
    assert rest[..size] == r.elem.val;
    assert 0 !in r.elem.key by {
      forall j | 0 <= j < |r.elem.key| ensures r.elem.key[j] != 0 {
        assert r.elem.key[j] == body[pos + 1 + j];
      }
    }
  }

  /** Where nothing is found no element stands. */
  lemma BadHasNone(body: seq<byte>, pos: nat, e: Elem, more: seq<byte>)
    requires pos < |body| && ElemAt(body, pos).Bad? && IsElem(e)
    ensures body[pos..] != EncodeElem(e) + more
  {
    IsElemIsComplete(e);
    if body[pos..] == EncodeElem(e) + more {
      FirstStands(body, pos, EncodeElem(e), more);
      ElemReadsBack(body, pos, e);
      assert false;
    }
  }

  // ---- documents ----

  ghost predicate AllElems(es: seq<Elem>) {
    forall i :: 0 <= i < |es| ==> IsElem(es[i])
  }

  ghost predicate NoElemAt(rest: seq<byte>) {
    forall e, more :: IsElem(e) ==> rest != EncodeElem(e) + more
  }

  /** The walk visits the elements in front of rest; it stops without an error at the end or after the last it may
      visit, and with an error where no element stands. */
  ghost predicate Visits(bytes: seq<byte>, w: Walked, left: nat, rest: seq<byte>) {
    && bytes == EncodeElems(w.elems) + rest && AllElems(w.elems) && |w.elems| <= left
    && if w.ok then rest == [] || |w.elems| == left else rest != [] && |w.elems| < left && NoElemAt(rest)
  }

  lemma VisitsOne(bytes: seq<byte>, e: Elem, w: Walked, left: nat, rest: seq<byte>, tail: seq<byte>)
    requires bytes == EncodeElem(e) + tail && IsElem(e) && Visits(tail, w, left, rest)
    ensures Visits(bytes, Resumed([e], w), left + 1, rest)
  {
    var es := [e] + w.elems;
    assert es[1..] == w.elems;
    assert EncodeElem(e) + (EncodeElems(w.elems) + rest) == EncodeElem(e) + EncodeElems(w.elems) + rest;
    assert forall i :: 0 < i < |es| ==> es[i] == w.elems[i - 1];
  }

  lemma VisitsNone(body: seq<byte>, pos: nat, left: nat)
    requires pos <= |body|
    ensures pos == |body| || left == 0 ==> Visits(body[pos..], Walked([], true), left, body[pos..])
    ensures pos < |body| && left > 0 && ElemAt(body, pos).Bad? ==> Visits(body[pos..], Walked([], false), left, body[pos..])
  {
    assert [] + body[pos..] == body[pos..];
    if pos < |body| && ElemAt(body, pos).Bad? {
      forall e, more | IsElem(e) ensures body[pos..] != EncodeElem(e) + more {
        BadHasNone(body, pos, e, more);
      }
    }
  }

  lemma FoundFirst(body: seq<byte>, pos: nat)
    requires pos < |body| && ElemAt(body, pos).Next?
    ensures var r := ElemAt(body, pos); r.after <= |body| && body[pos..] == EncodeElem(r.elem) + body[r.after..] && IsElem(r.elem)
  {
    FoundStands(body, pos);
    var r := ElemAt(body, pos);
    assert body[pos..] == body[pos..r.after] + body[r.after..];
  }

  lemma {:induction false} WalkVisits(next: nat -> Next, body: seq<byte>, pos: nat, left: nat) returns (rest: seq<byte>)
    requires Reads(next, body) && pos <= |body|
    ensures Visits(body[pos..], WalkVia(next, |body|, pos, left), left, rest)
    decreases left
  {
    rest := body[pos..];
    VisitsNone(body, pos, left);
    if pos < |body| && left > 0 && ElemAt(body, pos).Next? {
      var r := ElemAt(body, pos);
      FoundFirst(body, pos);
      rest := WalkVisits(next, body, r.after, left - 1);
      VisitsOne(body[pos..], r.elem, WalkVia(next, |body|, r.after, left - 1), left - 1, rest, body[r.after..]);
    }
  }

  /** The bytes between the length and the closing zero byte of a document. */
  ghost predicate HasBody(doc: seq<byte>, body: seq<byte>) {
    exists behind :: Starts(doc, |body| + 5) && |doc| >= 4 && doc[4..] == body + [0] + behind
  }

  lemma BodyFrames(doc: seq<byte>, body: seq<byte>)
    requires HasBody(doc, body)
    ensures Framed(doc)
  {
    var behind :| Starts(doc, |body| + 5) && |doc| >= 4 && doc[4..] == body + [0] + behind;
    assert doc[4..][|body|] == 0;
  }

  lemma FrameHasBody(doc: seq<byte>)
    requires Framed(doc)
    ensures HasBody(doc, doc[4..LittleEndian32(doc) - 1])
  {
    var n := LittleEndian32(doc);
    assert doc[4..] == doc[4..n - 1] + [0] + doc[n..];
  }

  /** A document that is not framed is refused; of any other the walk visits the elements, at most 64. */
  lemma WalkTells(doc: seq<byte>) returns (body: seq<byte>, rest: seq<byte>)
    ensures if exists b :: HasBody(doc, b) then HasBody(doc, body) && Visits(body, Walk(doc), 64, rest)
            else Walk(doc) == Walked([], false)
  {
    if b :| HasBody(doc, b) {
      BodyFrames(doc, b);
    }
    body, rest := [], [];
    if Framed(doc) {
      var inner := doc[..LittleEndian32(doc) - 1];
      body := doc[4..LittleEndian32(doc) - 1];
      FrameHasBody(doc);
      rest := WalkVisits(Reader(inner), inner, 4, MAX_ELEMENTS);
      assert inner[4..] == body;
    }
  }
}
