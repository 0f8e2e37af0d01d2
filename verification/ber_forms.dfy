/** Which bytes the BER readers take, and as what. */
module BerForms {
  import opened Fifo
  import opened Bytes
  import opened Ber

  // ---- numbers ----

  function Power(n: nat): (p: int)
    ensures p > 0
  {
    if n == 0 then 1 else 0x100 * Power(n - 1)
  }

  /** The bytes as an unsigned number, each with the weight of its place. */
  function Unsigned(bs: seq<byte>): int {
    if bs == [] then 0 else bs[0] * Power(|bs| - 1) + Unsigned(bs[1..])
  }

  /** As a two's complement number: a set first bit counts negative. */
  function Signed(bs: seq<byte>): int {
    if bs != [] && bs[0] >= 0x80 then Unsigned(bs) - Power(|bs|) else Unsigned(bs)
  }

  lemma {:induction false} UnsignedLast(bs: seq<byte>, last: byte)
    ensures Unsigned(bs + [last]) == Unsigned(bs) * 0x100 + last
  {
    if bs == [] {
      assert (bs + [last])[1..] == [];
    } else {
      UnsignedLast(bs[1..], last);
      assert (bs + [last])[1..] == bs[1..] + [last];
      Scales(bs[0], Power(|bs| - 1));
    }
  }

  lemma Scales(a: int, p: int)
    ensures a * (0x100 * p) == (a * p) * 0x100
  {
  }

  lemma {:induction false} SpellIs(high: int, bs: seq<byte>)
    ensures Spell(high, bs) == high * Power(|bs|) + Unsigned(bs)
  {
    if bs != [] {
      var front, last := bs[..|bs| - 1], bs[|bs| - 1];
      SpellIs(high, front);
      UnsignedLast(front, last);
      assert front + [last] == bs;
      Scales(high, Power(|front|));
    }
  }

  // ---- lengths ----

  /** The bytes of a length n: one below 128, or the number of bytes that follow, at most four, and these. */
  predicate IsLength(head: seq<byte>, n: int) {
    || (|head| == 1 && head[0] < 0x80 && n == head[0])
    || (1 <= |head| <= 5 && head[0] == 0x80 + |head| - 1 && n == Unsigned(head[1..]))
  }

  lemma LengthIs(data: seq<byte>, head: seq<byte>, n: nat)
    requires |data| >= 2 && 1 + |head| <= |data| && data[1..1 + |head|] == head
    ensures IsLength(head, n) <==> LengthAt(data) == Some(Length(n, 1 + |head|))
  {
    if head != [] {
      assert head[0] == data[1];
      assert head[1..] == data[2..1 + |head|];
      SpellIs(0, head[1..]);
    }
  }

  // ---- elements ----

  lemma Parts(tag: byte, head: seq<byte>, value: seq<byte>, rest: seq<byte>)
    ensures var data := [tag] + head + value + rest;
      && data[0] == tag && data[1..1 + |head|] == head
      && data[1 + |head|..1 + |head| + |value|] == value && data[1 + |head| + |value|..] == rest
  {
  }

  lemma Whole(data: seq<byte>, i: nat, j: nat)
    requires 1 <= i <= j <= |data|
    ensures data == [data[0]] + data[1..i] + data[i..j] + data[j..]
  {
  }

  /** An element is a tag, a length and that many bytes; what follows does not matter. */
  lemma ReadTlvIff(data: seq<byte>, tag: byte, value: seq<byte>)
    ensures ReadTlv(data) == Some(Element(tag, value)) <==>
      exists head, rest :: IsLength(head, |value|) && data == [tag] + head + value + rest
  {
    if ReadTlv(data) == Some(Element(tag, value)) {
      var at := LengthAt(data).value.at;
      Whole(data, at, at + |value|);
      LengthIs(data, data[1..at], |value|);
      assert IsLength(data[1..at], |value|) && data == [tag] + data[1..at] + value + data[at + |value|..];
    }
    if exists head, rest :: IsLength(head, |value|) && data == [tag] + head + value + rest {
      var head, rest :| IsLength(head, |value|) && data == [tag] + head + value + rest;
      Parts(tag, head, value, rest);
      LengthIs(data, head, |value|);
    }
  }

  /** Off a stream a long length is one to four bytes and at most 65536, and the rest is left. */
  predicate IsStreamLength(head: seq<byte>, n: int) {
    IsLength(head, n) && head[0] != 0x80 && (|head| > 1 ==> n <= 65536)
  }

  lemma ReadElementIff(input: seq<byte>, tag: byte, value: seq<byte>, rest: seq<byte>)
    ensures ReadElement(input) == Some(Streamed(tag, value, rest)) <==>
      exists head :: IsStreamLength(head, |value|) && input == [tag] + head + value + rest
  {
    if ReadElement(input) == Some(Streamed(tag, value, rest)) {
      var at := LengthAt(input).value.at;
      Whole(input, at, at + |value|);
      LengthIs(input, input[1..at], |value|);
      assert IsStreamLength(input[1..at], |value|) && input == [tag] + input[1..at] + value + rest;
    }
    if exists head :: IsStreamLength(head, |value|) && input == [tag] + head + value + rest {
      var head :| IsStreamLength(head, |value|) && input == [tag] + head + value + rest;
      Parts(tag, head, value, rest);
      LengthIs(input, head, |value|);
    }
  }

  // ---- integers ----

  lemma SpellSigned(bs: seq<byte>)
    ensures Spell(SignOf(bs), bs) == Signed(bs)
  {
    SpellIs(SignOf(bs), bs);
  }

  /** The tag 2, a length from 1 to 8 and that many bytes of two's complement. */
  predicate IsInteger(data: seq<byte>, bs: seq<byte>, v: int, rest: seq<byte>) {
    1 <= |bs| <= 8 && data == [2, |bs|] + bs + rest && v == Signed(bs)
  }

  lemma IntegerReads(data: seq<byte>, bs: seq<byte>, v: int, rest: seq<byte>)
    requires IsInteger(data, bs, v, rest)
    ensures ReadInteger(data) == Some(Int(v, rest))
  {
    SpellSigned(bs);
    assert data[0] == 2 && data[1] == |bs|;
    assert data[2..2 + |bs|] == bs;
    assert data[2 + |bs|..] == rest;
  }

  lemma ReadIntegerIff(data: seq<byte>, v: int, rest: seq<byte>)
    ensures ReadInteger(data) == Some(Int(v, rest)) <==> exists bs :: IsInteger(data, bs, v, rest)
  {
    if ReadInteger(data) == Some(Int(v, rest)) {
      var bs := data[2..2 + data[1]];
      SpellSigned(bs);
      assert IsInteger(data, bs, v, rest);
    }
    if bs :| IsInteger(data, bs, v, rest) {
      IntegerReads(data, bs, v, rest);
    }
  }
}
