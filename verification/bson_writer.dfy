/** The BSON writer of the replies, and its round trip through the walk. */
module BsonWriter {
  import opened Fifo
  import opened Bytes
  import opened Bson

  const MAX_LENGTH := 0x1_0000_0000

  function EncodeElem(e: Elem): seq<byte> {
    [e.typ] + e.key + [0] + e.val
  }

  function EncodeElems(es: seq<Elem>): seq<byte> {
    if es == [] then [] else EncodeElem(es[0]) + EncodeElems(es[1..])
  }

  /** A finished document: its length, the elements and a zero byte. */
  function Document(es: seq<Elem>): (d: seq<byte>)
    ensures |d| == |EncodeElems(es)| + 5
  {
    PutLittleEndian32(|EncodeElems(es)| + 5) + (EncodeElems(es) + [0])
  }

  // ---- the values the writer appends ----

  function StringValue(v: seq<byte>): seq<byte> {
    PutLittleEndian32(|v| + 1) + v + [0]
  }

  function IntElem(k: seq<byte>, v: int): Elem {
    Elem(0x10, k, PutLittleEndian32(v))
  }

  /** Decimal digits, as the keys of an array. */
  function Decimal(n: nat): seq<byte> {
    (if n < 10 then [] else Decimal(n / 10)) + [0x30 + n % 10]
  }

  function IntElems(vs: seq<int>): (es: seq<Elem>)
    ensures |es| == |vs|
  {
    if vs == [] then [] else IntElems(vs[..|vs| - 1]) + [IntElem(Decimal(|vs| - 1), vs[|vs| - 1])]
  }

  lemma {:induction false} EncodeAppends(es: seq<Elem>, e: Elem)
    ensures EncodeElems(es + [e]) == EncodeElems(es) + EncodeElem(e)
  {
    if es == [] {
      assert es + [e] == [e] && [e][1..] == [];
    } else {
      assert (es + [e])[1..] == es[1..] + [e];
      EncodeAppends(es[1..], e);
    }
  }

  class BsonDoc {
    var b: seq<byte>
    ghost var elems: seq<Elem>

    /** The buffer is four bytes for the length and the elements appended so far. */
    ghost predicate Valid()
      reads this
    {
      |b| >= 4 && b[4..] == EncodeElems(elems)
    }

    /** Every element appended so far is complete. */
    ghost predicate AllRead()
      reads this
    {
      forall e :: e in elems ==> Complete(e)
    }

    constructor ()
      ensures Valid() && elems == [] && AllRead()
    {
      b, elems := [0, 0, 0, 0], [];
    }

    /** Appends type, key and value. */
    method Append(typ: byte, k: seq<byte>, v: seq<byte>)
      requires Valid()
      modifies this
      ensures Valid() && elems == old(elems) + [Elem(typ, k, v)]
      ensures old(AllRead()) && Complete(Elem(typ, k, v)) ==> AllRead()
    {
      EncodeAppends(elems, Elem(typ, k, v));
      ghost var before := b;
      b := b + [typ];
      b := b + k;
      b := b + [0];
      b := b + v;
      elems := elems + [Elem(typ, k, v)];
      assert b[4..] == before[4..] + EncodeElem(Elem(typ, k, v));
    }

    method Str(k: seq<byte>, v: seq<byte>)
      requires Valid()
      modifies this
      ensures Valid() && elems == old(elems) + [Elem(0x02, k, StringValue(v))]
      ensures old(AllRead()) && 0 !in k && |v| + 1 < MAX_LENGTH ==> AllRead()
    {
      if 0 !in k && |v| + 1 < MAX_LENGTH {
        StringComplete(k, v);
      }
      Append(0x02, k, PutLittleEndian32(|v| + 1) + v + [0]);
    }

    method I32(k: seq<byte>, v: int)
      requires Valid()
      modifies this
      ensures Valid() && elems == old(elems) + [IntElem(k, v)]
      ensures old(AllRead()) && 0 !in k ==> AllRead()
    {
      FixedComplete(0x10, k, PutLittleEndian32(v));
      Append(0x10, k, PutLittleEndian32(v));
    }

    method Boolean(k: seq<byte>, v: bool)
      requires Valid()
      modifies this
      ensures Valid() && elems == old(elems) + [Elem(0x08, k, [if v then 1 else 0])]
      ensures old(AllRead()) && 0 !in k ==> AllRead()
    {
      FixedComplete(0x08, k, [if v then 1 else 0]);
      Append(0x08, k, [if v then 1 else 0]);
    }

    /** A double by its 64 bits, or a date by its milliseconds. */
    method Wide(typ: byte, k: seq<byte>, bits: seq<byte>)
      requires Valid() && typ in [0x01, 0x09] && |bits| == 8
      modifies this
      ensures Valid() && elems == old(elems) + [Elem(typ, k, bits)]
      ensures old(AllRead()) && 0 !in k ==> AllRead()
    {
      FixedComplete(typ, k, bits);
      Append(typ, k, bits);
    }

    /** An array of integers, itself written as a document with the indexes as keys. */
    method Ints(k: seq<byte>, vs: seq<int>)
      requires Valid()
      modifies this
      ensures Valid() && elems == old(elems) + [Elem(0x04, k, Document(IntElems(vs)))]
      ensures old(AllRead()) && 0 !in k && |Document(IntElems(vs))| < MAX_LENGTH ==> AllRead()
      ensures |Document(IntElems(vs))| < MAX_LENGTH ==>
        Walk(Document(IntElems(vs))) == Walked(Take(IntElems(vs), MAX_ELEMENTS), true)
    {
      var arr := new BsonDoc();
      var i := 0;
      while i < |vs|
        invariant 0 <= i <= |vs| && arr.Valid() && arr.elems == IntElems(vs[..i]) && fresh(arr)
        invariant Valid() && elems == old(elems) && (old(AllRead()) ==> AllRead())
        modifies arr
      {
        arr.I32(Decimal(i), vs[i]);
        assert vs[..i + 1][..i] == vs[..i];
        i := i + 1;
      }
      assert vs[..i] == vs;
      IntsComplete(vs);
      var doc := arr.Bytes();
      if 0 !in k && |doc| < MAX_LENGTH {
        ArrayComplete(k, IntElems(vs));
      }
      Append(0x04, k, doc);
    }

    method Bytes() returns (out: seq<byte>)
      requires Valid()
      ensures out == Document(elems)
      ensures AllRead() && |out| < MAX_LENGTH ==> Walk(out) == Walked(Take(elems, MAX_ELEMENTS), true)
    {
      out := b + [0];
      out := PutLittleEndian32(|out|) + out[4..];
      if AllRead() && |out| < MAX_LENGTH {
        DocumentReadsBack(elems);
      }
    }
  }

  // ---- round trip ----

  /** The value is exactly one value of its type. */
  ghost predicate Complete(e: Elem) {
    0 !in e.key && ValueSize(e.typ, e.val) == Some(|e.val|)
  }

  /** The size of a complete value does not depend on what follows it. */
  lemma SizeLocal(typ: byte, val: seq<byte>, more: seq<byte>)
    requires ValueSize(typ, val) == Some(|val|)
    ensures ValueSize(typ, val + more) == Some(|val|)
  {
    if typ == 0x0B {
      var i := IndexOfByte(val, 0, 0).value;
      IndexStays(val, more, 0, 0);
      IndexStays(val, more, 0, i + 1);
    } else if |val| >= 4 {
      assert LittleEndian32(val + more) == LittleEndian32(val);
    }
  }

  /** The bytes x stand in body at pos. */
  ghost predicate Stands(body: seq<byte>, pos: nat, x: seq<byte>) {
    pos + |x| <= |body| && body[pos..pos + |x|] == x
  }

  lemma PartStands(body: seq<byte>, pos: nat, x: seq<byte>, i: nat, n: nat)
    requires Stands(body, pos, x) && i <= n <= |x|
    ensures body[pos + i..pos + n] == x[i..n] && (i < n ==> body[pos + i] == x[i])
  {
    var y, z := body[pos + i..pos + n], x[i..n];
    forall j | 0 <= j < |z| ensures y[j] == z[j] {
      assert body[pos..pos + |x|][i + j] == y[j];
    }
    assert i < n ==> y[0] == z[0];
  }

  lemma ElemParts(e: Elem)
    ensures var x, k := EncodeElem(e), 1 + |e.key|;
      |x| == k + 1 + |e.val| && x[0] == e.typ && x[1..k] == e.key && x[k] == 0 && x[k + 1..|x|] == e.val
  {
  }

  /** Where the parts of an encoded element stand. */
  lemma ElemLayout(body: seq<byte>, pos: nat, e: Elem)
    requires Stands(body, pos, EncodeElem(e))
    ensures var end := pos + 1 + |e.key|;
      && end + 1 + |e.val| == pos + |EncodeElem(e)| && body[pos] == e.typ && body[end] == 0
      && body[pos + 1..end] == e.key && body[end + 1..end + 1 + |e.val|] == e.val
  {
    var x, k := EncodeElem(e), 1 + |e.key|;
    ElemParts(e);
    PartStands(body, pos, x, 0, 1);
    PartStands(body, pos, x, 1, k);
    PartStands(body, pos, x, k, k + 1);
    PartStands(body, pos, x, k + 1, |x|);
  }

  lemma KeyEnds(body: seq<byte>, from: nat, key: seq<byte>)
    requires from + |key| < |body| && body[from..from + |key|] == key && body[from + |key|] == 0 && 0 !in key
    ensures IndexOfByte(body, 0, from) == Some(from + |key|)
  {
    forall j | from <= j < from + |key| ensures body[j] != 0 { assert body[j] == body[from..from + |key|][j - from]; }
    assert FirstAt(body, 0, from, from + |key|);
  }

  lemma SizeInPlace(body: seq<byte>, start: nat, typ: byte, val: seq<byte>)
    requires start + |val| <= |body| && body[start..start + |val|] == val && ValueSize(typ, val) == Some(|val|)
    ensures ValueSize(typ, body[start..]) == Some(|val|)
  {
    assert body[start..] == val + body[start + |val|..];
    SizeLocal(typ, val, body[start + |val|..]);
  }

  lemma ElemAtIs(body: seq<byte>, pos: nat, end: nat, size: nat)
    requires pos < |body| && IndexOfByte(body, 0, pos + 1) == Some(end)
    requires ValueSize(body[pos], body[end + 1..]) == Some(size)
    ensures ElemAt(body, pos) == Next(Elem(body[pos], body[pos + 1..end], body[end + 1..end + 1 + size]), end + 1 + size)
  {
  }

  /** A complete element is read where it stands, whatever surrounds it. */
  lemma ElemReadsBack(body: seq<byte>, pos: nat, e: Elem)
    requires Complete(e) && Stands(body, pos, EncodeElem(e))
    ensures ElemAt(body, pos) == Next(e, pos + |EncodeElem(e)|)
  {
    var end := pos + 1 + |e.key|;
    ElemLayout(body, pos, e);
    KeyEnds(body, pos + 1, e.key);
    SizeInPlace(body, end + 1, e.typ, e.val);
    ElemAtIs(body, pos, end, |e.val|);
  }

  function Take(es: seq<Elem>, n: nat): seq<Elem> {
    if |es| <= n then es else es[..n]
  }

  lemma FirstStands(body: seq<byte>, pos: nat, first: seq<byte>, rest: seq<byte>)
    requires pos <= |body| && body[pos..] == first + rest
    ensures Stands(body, pos, first) && body[pos + |first|..] == rest
  {
    assert body[pos..pos + |first|] == body[pos..][..|first|];
    assert body[pos + |first|..] == body[pos..][|first|..];
  }

  ghost predicate AllComplete(es: seq<Elem>) {
    es == [] || (Complete(es[0]) && AllComplete(es[1..]))
  }

  /** One element off the front of those that stand at pos. */
  lemma TakeFirst(body: seq<byte>, pos: nat, es: seq<Elem>)
    requires pos <= |body| && body[pos..] == EncodeElems(es) && es != [] && Complete(es[0])
    ensures var after := pos + |EncodeElem(es[0])|;
      && pos < after <= |body| && ElemAt(body, pos) == Next(es[0], after) && body[after..] == EncodeElems(es[1..])
  {
    FirstStands(body, pos, EncodeElem(es[0]), EncodeElems(es[1..]));
    ElemReadsBack(body, pos, es[0]);
  }

  /** Reading element after element from pos on gives es and reaches the end. */
  ghost predicate Chain(next: nat -> Next, end: nat, pos: nat, es: seq<Elem>)
    decreases |es|
  {
    if es == [] then pos == end
    else pos < end && next(pos).Next? && next(pos).elem == es[0] && Chain(next, end, next(pos).after, es[1..])
  }

  ghost predicate Reads(next: nat -> Next, body: seq<byte>) {
    forall p: nat {:trigger ElemAt(body, p)} :: p < |body| ==> next(p) == ElemAt(body, p)
  }

  lemma NextIsFirst(next: nat -> Next, body: seq<byte>, pos: nat, es: seq<Elem>)
    requires Reads(next, body) && pos <= |body| && body[pos..] == EncodeElems(es) && es != [] && Complete(es[0])
    ensures var after := pos + |EncodeElem(es[0])|;
      pos < after <= |body| && next(pos) == Next(es[0], after) && body[after..] == EncodeElems(es[1..])
  {
    TakeFirst(body, pos, es);
  }

  lemma {:induction false} EncodedIsChain(next: nat -> Next, body: seq<byte>, pos: nat, es: seq<Elem>)
    requires Reads(next, body) && AllComplete(es) && pos <= |body| && body[pos..] == EncodeElems(es)
    ensures Chain(next, |body|, pos, es)
    decreases |es|
  {
    if es != [] {
      NextIsFirst(next, body, pos, es);
      EncodedIsChain(next, body, pos + |EncodeElem(es[0])|, es[1..]);
    }
  }

  lemma {:induction false} ChainIsWalk(next: nat -> Next, end: nat, pos: nat, es: seq<Elem>, left: nat)
    requires Chain(next, end, pos, es)
    ensures WalkVia(next, end, pos, left) == Walked(Take(es, left), true)
    decreases |es|
  {
    if es != [] && left > 0 {
      ChainIsWalk(next, end, next(pos).after, es[1..], left - 1);
      assert [es[0]] + Take(es[1..], left - 1) == Take(es, left);
    }
  }

  lemma {:induction false} CompleteEach(es: seq<Elem>)
    ensures AllComplete(es) <==> forall e :: e in es ==> Complete(e)
  {
    if es != [] {
      CompleteEach(es[1..]);
      assert forall e :: e in es <==> e == es[0] || e in es[1..];
    }
  }

  lemma DocumentLayout(es: seq<Elem>)
    requires |Document(es)| < MAX_LENGTH
    ensures var doc := Document(es);
      LittleEndian32(doc) == |doc| && doc[|doc| - 1] == 0 && doc[..|doc| - 1][4..] == EncodeElems(es)
  {
    LittleEndian32Reads(|Document(es)|, EncodeElems(es) + [0]);
  }

  lemma WalkIs(doc: seq<byte>)
    requires |doc| >= 5 && LittleEndian32(doc) == |doc| && doc[|doc| - 1] == 0
    ensures Walk(doc) == WalkFrom(doc[..|doc| - 1], 4)
  {
  }

  /** Walking a built document yields its elements in order, up to the first 64. */
  lemma DocumentReadsBack(es: seq<Elem>)
    requires (forall e :: e in es ==> Complete(e)) && |Document(es)| < MAX_LENGTH
    ensures Walk(Document(es)) == Walked(Take(es, MAX_ELEMENTS), true)
  {
    CompleteEach(es);
    DocumentLayout(es);
    WalkIs(Document(es));
    BodyReadsBack(Document(es)[..|Document(es)| - 1], es);
  }

  lemma BodyReadsBack(body: seq<byte>, es: seq<Elem>)
    requires AllComplete(es) && |body| >= 4 && body[4..] == EncodeElems(es)
    ensures WalkFrom(body, 4) == Walked(Take(es, MAX_ELEMENTS), true)
  {
    EncodedIsChain(Reader(body), body, 4, es);
    ChainIsWalk(Reader(body), |body|, 4, es, MAX_ELEMENTS);
  }

  // ---- what the writer appends is complete ----

  lemma StringComplete(k: seq<byte>, v: seq<byte>)
    requires 0 !in k && |v| + 1 < MAX_LENGTH
    ensures Complete(Elem(0x02, k, StringValue(v))) && StringOf(Elem(0x02, k, StringValue(v))) == Some(v)
  {
    var val := StringValue(v);
    assert val == PutLittleEndian32(|v| + 1) + (v + [0]);
    LittleEndian32Reads(|v| + 1, v + [0]);
    StringSize(val, |v| + 1);
    assert val[4..|val| - 1] == v;
  }

  lemma StringSize(val: seq<byte>, n: nat)
    requires |val| == 4 + n && n >= 1 && LittleEndian32(val) == n
    ensures ValueSize(0x02, val) == Some(|val|)
  {
  }

  lemma FixedComplete(typ: byte, k: seq<byte>, val: seq<byte>)
    requires ShapeOf(typ) == Fixed(|val|)
    ensures 0 !in k ==> Complete(Elem(typ, k, val))
  {
  }

  lemma ArrayComplete(k: seq<byte>, es: seq<Elem>)
    requires 0 !in k && |Document(es)| < MAX_LENGTH
    ensures Complete(Elem(0x04, k, Document(es)))
  {
    LittleEndian32Reads(|Document(es)|, EncodeElems(es) + [0]);
  }

  lemma {:induction false} DecimalHasNoZero(n: nat)
    ensures 0 !in Decimal(n)
  {
    if n >= 10 {
      DecimalHasNoZero(n / 10);
    }
  }

  lemma {:induction false} IntsComplete(vs: seq<int>)
    ensures forall e :: e in IntElems(vs) ==> Complete(e)
  {
    if vs != [] {
      IntsComplete(vs[..|vs| - 1]);
      DecimalHasNoZero(|vs| - 1);
    }
  }

  // ---- an error reply ----

  const OK_KEY: seq<byte> := [0x6f, 0x6b]                                              // ok
  const ERRMSG_KEY: seq<byte> := [0x65, 0x72, 0x72, 0x6d, 0x73, 0x67]                  // errmsg
  const CODE_KEY: seq<byte> := [0x63, 0x6f, 0x64, 0x65]                                // code
  const CODE_NAME_KEY: seq<byte> := [0x63, 0x6f, 0x64, 0x65, 0x4e, 0x61, 0x6d, 0x65]   // codeName

  function ErrorElems(msg: seq<byte>, code: int, name: seq<byte>): seq<Elem> {
    [Elem(0x01, OK_KEY, [0, 0, 0, 0, 0, 0, 0, 0]), Elem(0x02, ERRMSG_KEY, StringValue(msg)), IntElem(CODE_KEY, code),
     Elem(0x02, CODE_NAME_KEY, StringValue(name))]
  }

  lemma SizeAppends(es: seq<Elem>, e: Elem, all: seq<Elem>)
    requires all == es + [e]
    ensures |EncodeElems(all)| == |EncodeElems(es)| + 2 + |e.key| + |e.val|
  {
    EncodeAppends(es, e);
  }

  lemma ErrorSize(msg: seq<byte>, code: int, name: seq<byte>)
    ensures |Document(ErrorElems(msg, code, name))| == 55 + |msg| + |name|
  {
    var es := ErrorElems(msg, code, name);
    SizeAppends([], es[0], es[..1]);
    SizeAppends(es[..1], es[1], es[..2]);
    SizeAppends(es[..2], es[2], es[..3]);
    SizeAppends(es[..3], es[3], es);
  }

  /** The error reply reads back to its four elements, the message and the name among them. */
  method ErrorDoc(msg: seq<byte>, code: int, name: seq<byte>) returns (out: seq<byte>)
    ensures out == Document(ErrorElems(msg, code, name))
    ensures |msg| + |name| + 55 < MAX_LENGTH ==>
      var es := ErrorElems(msg, code, name);
      Walk(out) == Walked(es, true) && StringOf(es[1]) == Some(msg) && StringOf(es[3]) == Some(name)
  {
    var d := new BsonDoc();
    d.Wide(0x01, OK_KEY, [0, 0, 0, 0, 0, 0, 0, 0]);
    d.Str(ERRMSG_KEY, msg);
    d.I32(CODE_KEY, code);
    d.Str(CODE_NAME_KEY, name);
    assert d.elems == ErrorElems(msg, code, name);
    out := d.Bytes();
    ErrorSize(msg, code, name);
    if |msg| + |name| + 55 < MAX_LENGTH {
      StringComplete(ERRMSG_KEY, msg);
      StringComplete(CODE_NAME_KEY, name);
    }
  }
}
