/** BSON documents, top level only (BSON specification 1.1). */
module Bson {
  import opened Fifo
  import opened Bytes

  const MAX_ELEMENTS := 64

  datatype Elem = Elem(typ: byte, key: seq<byte>, val: seq<byte>)

  /** How a value of a type is laid out. */
  datatype Shape = Fixed(size: nat) | Str | Doc | Binary | Scoped | Regex | Unknown

  function ShapeOf(typ: byte): Shape {
    match typ
    case 0x01 | 0x09 | 0x11 | 0x12 => Fixed(8)
    case 0x10 => Fixed(4)
    case 0x07 => Fixed(12)
    case 0x08 => Fixed(1)
    case 0x13 => Fixed(16)
    case 0x06 | 0x0A | 0x7F | 0xFF => Fixed(0)
    case 0x02 | 0x0D | 0x0E => Str
    case 0x03 | 0x04 | 0x0F => Doc
    case 0x05 => Binary
    case 0x0B => Regex
    case 0x0C => Scoped
    case _ => Unknown
  }

  /** Two strings that end in a zero byte each. */
  ghost function TwoStrings(rest: seq<byte>): (r: Option<nat>)
    ensures r.Some? ==> r.value <= |rest|
  {
    var i := IndexOfByte(rest, 0, 0);
    if i.None? then None
    else
      var j := IndexOfByte(rest, 0, i.value + 1);
      if j.None? then None else Some(j.value + 1)
  }

  /** The encoded size of a value at the start of rest: a length in front counts what follows it,
      or the whole of a document. */
  ghost function SizeOf(shape: Shape, rest: seq<byte>): (r: Option<nat>)
    ensures r.Some? ==> r.value <= |rest|
  {
    match shape
    case Fixed(n) => if |rest| < n then None else Some(n)
    case Str => if |rest| < 4 || LittleEndian32(rest) < 1 || LittleEndian32(rest) > |rest| - 4 then None else Some(4 + LittleEndian32(rest))
    case Doc => if |rest| < 4 || LittleEndian32(rest) < 5 || LittleEndian32(rest) > |rest| then None else Some(LittleEndian32(rest))
    case Binary => if |rest| < 5 || LittleEndian32(rest) > |rest| - 5 then None else Some(5 + LittleEndian32(rest))
    case Scoped => if |rest| < 4 || LittleEndian32(rest) < 1 || LittleEndian32(rest) > |rest| - 16 then None else Some(LittleEndian32(rest) + 16)
    case Regex => TwoStrings(rest)
    case Unknown => None
  }

  ghost function ValueSize(typ: byte, rest: seq<byte>): (r: Option<nat>)
    ensures r.Some? ==> r.value <= |rest|
  {
    SizeOf(ShapeOf(typ), rest)
  }

  function FixedSize(n: nat, rest: seq<byte>): Option<nat> {
    if |rest| < n then None else Some(n)
  }

  method BsonValueSize(typ: byte, rest: seq<byte>) returns (r: Option<nat>)
    ensures r == ValueSize(typ, rest)
  {
    match typ {
      case 0x01 | 0x09 | 0x11 | 0x12 =>
        return FixedSize(8, rest);
      case 0x10 =>
        return FixedSize(4, rest);
      case 0x07 =>
        return FixedSize(12, rest);
      case 0x08 =>
        return FixedSize(1, rest);
      case 0x13 =>
        return FixedSize(16, rest);
      case 0x06 | 0x0A | 0x7F | 0xFF =>
        return Some(0);
      case 0x02 | 0x0D | 0x0E =>
        if |rest| < 4 {
          return None;
        }
        var n := LittleEndian32(rest);
        if n < 1 || n > |rest| - 4 {
          return None;
        }
        return Some(4 + n);
      case 0x03 | 0x04 | 0x0F =>
        if |rest| < 4 {
          return None;
        }
        var n := LittleEndian32(rest);
        if n < 5 || n > |rest| {
          return None;
        }
        return Some(n);
      case 0x05 =>
        if |rest| < 5 {
          return None;
        }
        var n := LittleEndian32(rest);
        if n > |rest| - 5 {
          return None;
        }
        return Some(5 + n);
      case 0x0B =>
        var i := FindByte(rest, 0, 0);
        if i < 0 {
          return None;
        }
        var j := FindByte(rest, 0, i + 1);
        if j < 0 {
          return None;
        }
        return Some(j + 1);
      case 0x0C =>
        if |rest| < 4 {
          return None;
        }
        var n := LittleEndian32(rest);
        if n < 1 || n > |rest| - 16 {
          return None;
        }
        return Some(4 + n + 12);
      case _ =>
        return None;
    }
  }

  /** The elements a walk visits, and whether it reaches its end without an error. */
  datatype Walked = Walked(elems: seq<Elem>, ok: bool)

  /** The element at pos, with the position behind it. */
  datatype Next = Bad | Next(elem: Elem, after: nat)

  ghost function ElemAt(body: seq<byte>, pos: nat): (r: Next)
    requires pos < |body|
    ensures r.Next? ==> pos < r.after <= |body|
  {
    var end := IndexOfByte(body, 0, pos + 1);
    if end.None? then Bad
    else
      var start := end.value + 1;
      var size := ValueSize(body[pos], body[start..]);
      if size.None? then Bad
      else Next(Elem(body[pos], body[pos + 1..end.value], body[start..start + size.value]), start + size.value)
  }

  /** The walk over whatever elements next finds, at most left of them, until end. */
  ghost function WalkVia(next: nat -> Next, end: nat, pos: nat, left: nat): Walked
    decreases left
  {
    if pos >= end || left == 0 then Walked([], true)
    else
      match next(pos)
      case Bad => Walked([], false)
      case Next(e, after) => Resumed([e], WalkVia(next, end, after, left - 1))
  }

  /** A walk as seen in the middle of it: seen first, then what is left. */
  ghost function Resumed(seen: seq<Elem>, w: Walked): Walked {
    Walked(seen + w.elems, w.ok)
  }

  ghost function Reader(body: seq<byte>): nat -> Next {
    (p: nat) => if p < |body| then ElemAt(body, p) else Bad
  }

  ghost function WalkFrom(body: seq<byte>, pos: nat): Walked {
    WalkVia(Reader(body), |body|, pos, MAX_ELEMENTS)
  }

  /** The declared length fits the data, and the document ends in a zero byte. */
  predicate Framed(doc: seq<byte>) {
    |doc| >= 5 && 5 <= LittleEndian32(doc) <= |doc| && doc[LittleEndian32(doc) - 1] == 0
  }

  ghost function Walk(doc: seq<byte>): Walked {
    if Framed(doc) then WalkFrom(doc[..LittleEndian32(doc) - 1], 4) else Walked([], false)
  }

  lemma WalkUnfolds(next: nat -> Next, end: nat, pos: nat, left: nat, seen: seq<Elem>)
    requires pos < end && left > 0
    ensures Resumed(seen, WalkVia(next, end, pos, left)) ==
      match next(pos)
      case Bad => Walked(seen, false)
      case Next(e, after) => Resumed(seen + [e], WalkVia(next, end, after, left - 1))
  {
    assert seen + [] == seen;
    if next(pos).Next? {
      var e, more := next(pos).elem, WalkVia(next, end, next(pos).after, left - 1).elems;
      assert seen + ([e] + more) == seen + [e] + more;
    }
  }

  method ReadElem(body: seq<byte>, pos: nat) returns (r: Next)
    requires pos < |body|
    ensures r == ElemAt(body, pos)
  {
    var end := FindByte(body, 0, pos + 1);
    if end < 0 {
      return Bad;
    }
    var start := end + 1;
    var size := BsonValueSize(body[pos], body[start..]);
    if size.None? {
      return Bad;
    }
    return Next(Elem(body[pos], body[pos + 1..end], body[start..start + size.value]), start + size.value);
  }

  /** The walk loop over the elements from pos on, in order. */
  method WalkElems(body: seq<byte>, from: nat) returns (elems: seq<Elem>, ok: bool)
    requires from <= |body|
    ensures Walked(elems, ok) == WalkFrom(body, from)
  {
    elems := [];
    ghost var next, end := Reader(body), |body|;
    ghost var whole := WalkVia(next, end, from, MAX_ELEMENTS);
    assert [] + whole.elems == whole.elems;
    var pos, count := from, 0;
    while pos < |body| && count < MAX_ELEMENTS
      invariant 0 <= pos <= |body| && 0 <= count <= MAX_ELEMENTS
      invariant whole == Resumed(elems, WalkVia(next, end, pos, MAX_ELEMENTS - count))
    {
      WalkUnfolds(next, end, pos, MAX_ELEMENTS - count, elems);
      var found := ReadElem(body, pos);
      if found.Bad? {
        return elems, false;
      }
      elems := elems + [found.elem];
      pos, count := found.after, count + 1;
    }
    assert whole == Resumed(elems, Walked([], true));
    assert elems + [] == elems;
    return elems, true;
  }

  method BsonWalk(doc: seq<byte>) returns (elems: seq<Elem>, ok: bool)
    ensures Walked(elems, ok) == Walk(doc)
  {
    if |doc| < 5 {
      return [], false;
    }
    var n := LittleEndian32(doc);
    if n < 5 || n > |doc| || doc[n - 1] != 0 {
      return [], false;
    }
    elems, ok := WalkElems(doc[..n - 1], 4);
  }

  function StringOf(e: Elem): Option<seq<byte>> {
    if e.typ != 0x02 || |e.val| < 5 then None else Some(e.val[4..|e.val| - 1])
  }

  function BinaryOf(e: Elem): Option<seq<byte>> {
    if e.typ == 0x05 then if |e.val| < 5 then None else Some(e.val[5..])
    else StringOf(e)
  }
}
