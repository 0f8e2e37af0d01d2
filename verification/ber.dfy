/** BER encoding and decoding (sections 8.1.3 and 8.3 of X.690). */
module Ber {
  import opened Fifo
  import opened Bytes

  const MAX_LEN := 0x1_0000
  const INTEGER: byte := 0x02
  const WRAP := 0x1_0000_0000

  /** The number the bytes spell, most significant first, behind high. */
  function Spell(high: int, bs: seq<byte>): int {
    if bs == [] then high else Spell(high, bs[..|bs| - 1]) * 0x100 + bs[|bs| - 1]
  }

  // ---- lengths ----

  /** Leading zero bytes that a long length leaves out. */
  function LeadingZeros(buf: seq<byte>): (i: nat)
    requires |buf| == 4
    ensures i <= 3 && (forall j :: 0 <= j < i ==> buf[j] == 0) && (i < 3 ==> buf[i] != 0)
  {
    if buf[0] != 0 then 0 else if buf[1] != 0 then 1 else if buf[2] != 0 then 2 else 3
  }

  /** A length: one byte below 128, else the number of bytes and the low 32 bits without leading zeros. */
  function LengthBytes(n: nat): seq<byte> {
    if n < 0x80 then [n]
    else
      var buf := PutBigEndian32(n % WRAP);
      [0x80 + (4 - LeadingZeros(buf))] + buf[LeadingZeros(buf)..]
  }

  method BerLength(n: nat) returns (r: seq<byte>)
    ensures r == LengthBytes(n)
  {
    if n < 0x80 {
      return [n];
    }
    var buf, i := PutBigEndian32(n % WRAP), 0;
    while i < 3 && buf[i] == 0
      invariant 0 <= i <= LeadingZeros(buf)
    {
      i := i + 1;
    }
    r := [0x80 + (4 - i)] + buf[i..];
  }

  // ---- integers ----

  /** One byte holds v: nothing but its sign is left above it. */
  predicate Fits(v: int) {
    -0x80 <= v < 0x80
  }

  function Magnitude(v: int): nat {
    if v >= 0 then v else -v - 1
  }

  /** The shortest two's complement form of v. */
  function IntBytes(v: int): (bs: seq<byte>)
    ensures |bs| > 0
    decreases Magnitude(v)
  {
    if Fits(v) then [v % 0x100] else IntBytes(v / 0x100) + [v % 0x100]
  }

  lemma Shifts(v: int)
    ensures v == v / 0x100 * 0x100 + v % 0x100
    ensures Fits(v) <==> (v / 0x100 == 0 && v % 0x100 < 0x80) || (v / 0x100 == -1 && v % 0x100 >= 0x80)
    ensures !Fits(v) ==> Magnitude(v / 0x100) < Magnitude(v)
  {
  }

  /** The byte loop: prepends the low byte until the rest is the sign of the first byte. */
  method TwosComplement(v: int) returns (bs: seq<byte>)
    ensures bs == IntBytes(v)
  {
    bs := [];
    var tmp, last := v, false;
    while !last
      invariant last ==> bs == IntBytes(v)
      invariant !last ==> IntBytes(v) == IntBytes(tmp) + bs
      decreases !last, Magnitude(tmp)
    {
      Shifts(tmp);
      ghost var before := bs;
      bs := [tmp % 0x100] + bs;
      assert IntBytes(tmp / 0x100) + [tmp % 0x100] + before == IntBytes(tmp / 0x100) + bs;
      last := (tmp / 0x100 == 0 && bs[0] < 0x80) || (tmp / 0x100 == -1 && bs[0] >= 0x80);
      tmp := tmp / 0x100;
    }
  }

  // ---- elements ----

  function Tlv(tag: byte, value: seq<byte>): seq<byte> {
    [tag] + LengthBytes(|value|) + value
  }

  function Integer(tag: byte, v: int): seq<byte> {
    Tlv(tag, IntBytes(v))
  }

  method BerOctetString(tag: byte, data: seq<byte>) returns (r: seq<byte>)
    ensures r == Tlv(tag, data)
  {
    var len := BerLength(|data|);
    r := [tag] + len + data;
  }

  method BerInteger(tag: byte, v: int) returns (r: seq<byte>)
    ensures r == Integer(tag, v)
  {
    var bs := TwosComplement(v);
    r := BerOctetString(tag, bs);
  }

  method BerSequence(tag: byte, children: seq<seq<byte>>) returns (r: seq<byte>)
    ensures r == Tlv(tag, Flatten(children))
  {
    var payload, i := [], 0;
    while i < |children|
      invariant 0 <= i <= |children| && payload + Flatten(children[i..]) == Flatten(children)
    {
      ghost var before := payload;
      assert children[i..][1..] == children[i + 1..];
      payload := payload + children[i];
      assert payload + Flatten(children[i + 1..]) == before + (children[i] + Flatten(children[i + 1..]));
      i := i + 1;
    }
    assert payload + [] == payload;
    r := BerOctetString(tag, payload);
  }

  // ---- reading ----

  /** A decoded length and the offset of the value behind it. */
  datatype Length = Length(n: nat, at: nat)

  /** The length at the second byte; a long form has at most four bytes. */
  function LengthAt(data: seq<byte>): (r: Option<Length>)
    requires |data| >= 2
    ensures r.Some? ==> 2 <= r.value.at <= |data|
  {
    if data[1] < 0x80 then Some(Length(data[1], 2))
    else
      var k := data[1] - 0x80;
      if k > 4 || 2 + k > |data| then None
      else
        SpellNat(data[2..2 + k]);
        Some(Length(Spell(0, data[2..2 + k]), 2 + k))
  }

  lemma {:induction false} SpellNat(bs: seq<byte>)
    ensures Spell(0, bs) >= 0
  {
    if bs != [] {
      SpellNat(bs[..|bs| - 1]);
    }
  }

  datatype Element = Element(tag: byte, value: seq<byte>)

  function ReadTlv(data: seq<byte>): Option<Element> {
    if |data| < 2 then None
    else
      var len := LengthAt(data);
      if len.None? || len.value.n > |data| - len.value.at then None
      else Some(Element(data[0], data[len.value.at..len.value.at + len.value.n]))
  }

  /** The length loop over the bytes of a long form. */
  method ReadRaw(buf: seq<byte>) returns (raw: nat)
    ensures raw == Spell(0, buf)
  {
    var val: int, i := 0, 0;
    while i < |buf|
      invariant 0 <= i <= |buf| && val == Spell(0, buf[..i])
    {
      assert buf[..i + 1][..i] == buf[..i];
      val := val * 0x100 + buf[i];
      i := i + 1;
    }
    assert buf[..i] == buf;
    SpellNat(buf);
    raw := val;
  }

  method BerReadTlv(data: seq<byte>) returns (r: Option<Element>)
    ensures r == ReadTlv(data)
  {
    if |data| < 2 {
      return None;
    }
    if data[1] < 0x80 {
      var length := data[1];
      if 2 + length > |data| {
        return None;
      }
      return Some(Element(data[0], data[2..2 + length]));
    }
    var numBytes := data[1] - 0x80;
    if numBytes > 4 || 2 + numBytes > |data| {
      return None;
    }
    var raw := ReadRaw(data[2..2 + numBytes]);
    var offset := 2 + numBytes;
    if raw > |data| - offset {
      return None;
    }
    return Some(Element(data[0], data[offset..offset + raw]));
  }

  datatype Int = Int(value: int, rest: seq<byte>)

  function SignOf(bs: seq<byte>): int {
    if bs != [] && bs[0] >= 0x80 then -1 else 0
  }

  function ReadInteger(data: seq<byte>): Option<Int> {
    if |data| < 2 || data[0] != INTEGER then None
    else
      var n := data[1];
      if n == 0 || n > 8 || 2 + n > |data| then None
      else
        var bs := data[2..2 + n];
        Some(Int(Spell(SignOf(bs), bs), data[2 + n..]))
  }

  method BerReadInteger(data: seq<byte>) returns (r: Option<Int>)
    ensures r == ReadInteger(data)
  {
    if |data| < 2 || data[0] != INTEGER {
      return None;
    }
    var length := data[1];
    if length == 0 || length > 8 || 2 + length > |data| {
      return None;
    }
    ghost var bs := data[2..2 + length];
    var val: int, i := 0, 0;
    if data[2] >= 0x80 {
      val := -1;
    }
    while i < length
      invariant 0 <= i <= length && val == Spell(SignOf(bs), bs[..i])
    {
      assert bs[..i + 1][..i] == bs[..i];
      val := val * 0x100 + data[2 + i];
      i := i + 1;
    }
    assert bs[..i] == bs;
    return Some(Int(val, data[2 + length..]));
  }

  /** An element off a stream, with the bytes behind it; only lengths up to the cap are read. */
  datatype Streamed = Streamed(tag: byte, value: seq<byte>, rest: seq<byte>)

  function ReadElement(input: seq<byte>): Option<Streamed> {
    if |input| < 2 || input[1] == 0x80 then None
    else
      var len := LengthAt(input);
      if len.None? || len.value.n > |input| - len.value.at || (input[1] > 0x80 && len.value.n > MAX_LEN) then None
      else
        var at, n := len.value.at, len.value.n;
        Some(Streamed(input[0], input[at..at + n], input[at + n..]))
  }

  method BerReadElement(input: seq<byte>) returns (r: Option<Streamed>)
    ensures r == ReadElement(input)
  {
    if |input| < 2 {
      return None;
    }
    var length: nat, at := input[1], 2;
    if input[1] >= 0x80 {
      var numBytes := input[1] - 0x80;
      if numBytes == 0 || numBytes > 4 || 2 + numBytes > |input| {
        return None;
      }
      length := ReadRaw(input[2..2 + numBytes]);
      at := 2 + numBytes;
      if length > MAX_LEN {
        return None;
      }
    }
    if length > |input| - at {
      return None;
    }
    return Some(Streamed(input[0], input[at..at + length], input[at + length..]));
  }
}
