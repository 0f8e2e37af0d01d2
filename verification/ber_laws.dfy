/** Reading undoes writing, for integers, elements and LDAP responses. */
module BerLaws {
  import opened Fifo
  import opened Bytes
  import opened Ber

  // ---- integers ----

  /** Half the range of n bytes. */
  function Half(n: nat): (h: int)
    ensures h > 0
  {
    if n <= 1 then 0x80 else Half(n - 1) * 0x100
  }

  lemma HalfOfEight()
    ensures Half(8) == 0x8000_0000_0000_0000
  {
    assert Half(2) == 0x8000 && Half(3) == 0x80_0000 && Half(4) == 0x8000_0000;
    assert Half(5) == Half(4) * 0x100 && Half(6) == Half(5) * 0x100 && Half(7) == Half(6) * 0x100 && Half(8) == Half(7) * 0x100;
  }

  /** The bytes of v spell v behind their own sign. */
  lemma {:induction false} IntBytesSpell(v: int)
    ensures Spell(SignOf(IntBytes(v)), IntBytes(v)) == v
    decreases Magnitude(v)
  {
    Shifts(v);
    var bs := IntBytes(v);
    if Fits(v) {
      assert bs[..|bs| - 1] == [];
    } else {
      IntBytesSpell(v / 0x100);
      assert bs[..|bs| - 1] == IntBytes(v / 0x100);
    }
  }

  lemma DivideRange(v: int, h: int)
    requires -(h * 0x100) <= v < h * 0x100
    ensures -h <= v / 0x100 < h
  {
  }

  /** A number in the range of n bytes takes at most n bytes. */
  lemma {:induction false} IntBytesFit(v: int, n: nat)
    requires n > 0 && -Half(n) <= v < Half(n)
    ensures |IntBytes(v)| <= n
    decreases n
  {
    if !Fits(v) {
      DivideRange(v, Half(n - 1));
      IntBytesFit(v / 0x100, n - 1);
    }
  }

  /** No shorter form exists: the first nine bits are never all equal. */
  lemma {:induction false} IntBytesShortest(v: int)
    ensures var bs := IntBytes(v);
      |bs| > 1 ==> !(bs[0] == 0 && bs[1] < 0x80) && !(bs[0] == 0xff && bs[1] >= 0x80)
    decreases Magnitude(v)
  {
    Shifts(v);
    if !Fits(v) {
      Shifts(v / 0x100);
      if !Fits(v / 0x100) {
        IntBytesShortest(v / 0x100);
      }
    }
  }

  /** Spelling at most eight bytes stays within 64 bits, at every byte. */
  lemma {:induction false} SpellInRange(bs: seq<byte>, i: nat)
    requires 0 < i <= |bs|
    ensures -Half(i) <= Spell(SignOf(bs), bs[..i]) < Half(i)
  {
    assert bs[..i][..i - 1] == bs[..i - 1];
    if i > 1 {
      SpellInRange(bs, i - 1);
    } else {
      assert bs[..0] == [];
    }
  }

  /** No byte string shorter than the encoding of v spells v. */
  lemma NoShorterForm(v: int, bs: seq<byte>)
    requires bs != [] && Spell(SignOf(bs), bs) == v
    ensures |IntBytes(v)| <= |bs|
  {
    assert bs[..|bs|] == bs;
    SpellInRange(bs, |bs|);
    IntBytesFit(v, |bs|);
  }

  predicate IsInt64(v: int) {
    -0x8000_0000_0000_0000 <= v < 0x8000_0000_0000_0000
  }

  /** Every 64-bit integer is read back, with what follows it, from its shortest form. */
  lemma IntegerReadsBack(v: int, rest: seq<byte>)
    requires IsInt64(v)
    ensures ReadInteger(Integer(INTEGER, v) + rest) == Some(Int(v, rest))
    ensures |IntBytes(v)| <= 8
  {
    var bs := IntBytes(v);
    HalfOfEight();
    IntBytesFit(v, 8);
    IntBytesSpell(v);
    var data := Integer(INTEGER, v) + rest;
    assert data == [INTEGER, |bs|] + bs + rest;
    assert data[2..2 + |bs|] == bs && data[2 + |bs|..] == rest;
  }

  // ---- elements ----

  lemma {:induction false} SpellZero(bs: seq<byte>)
    requires forall i :: 0 <= i < |bs| ==> bs[i] == 0
    ensures Spell(0, bs) == 0
  {
    if bs != [] {
      SpellZero(bs[..|bs| - 1]);
    }
  }

  /** Leading zeros do not change the number. */
  lemma {:induction false} SpellSkips(bs: seq<byte>, i: nat)
    requires i <= |bs| && forall j :: 0 <= j < i ==> bs[j] == 0
    ensures Spell(0, bs[i..]) == Spell(0, bs)
    decreases |bs|
  {
    if i == |bs| {
      SpellZero(bs);
    } else {
      var front := bs[..|bs| - 1];
      SpellSkips(front, i);
      assert bs[i..][..|bs| - i - 1] == front[i..];
    }
  }

  lemma SpellFour(n: nat)
    requires n < WRAP
    ensures Spell(0, PutBigEndian32(n)) == n
  {
    var s := PutBigEndian32(n);
    var a: int, b: int, c: int, d: int := s[0], s[1], s[2], s[3];
    assert s[..3][..2] == s[..2] && s[..2][..1] == s[..1] && s[..1][..0] == [];
    assert Spell(0, s[..1]) == a;
    assert Spell(0, s[..2]) == a * 0x100 + b;
    assert Spell(0, s[..3]) == (a * 0x100 + b) * 0x100 + c;
    assert Spell(0, s) == ((a * 0x100 + b) * 0x100 + c) * 0x100 + d;
    Digits(n);
  }

  lemma LongForm(data: seq<byte>, k: nat)
    requires 0 < k <= 4 && |data| >= 2 + k && data[1] == 0x80 + k
    requires 0 <= Spell(0, data[2..2 + k])
    ensures LengthAt(data) == Some(Length(Spell(0, data[2..2 + k]), 2 + k))
  {
  }

  lemma LengthReadsBack(tag: byte, n: nat, rest: seq<byte>)
    requires n < WRAP
    ensures var data := [tag] + LengthBytes(n) + rest;
      |data| >= 2 && data[1] != 0x80 && LengthAt(data) == Some(Length(n, 1 + |LengthBytes(n)|))
  {
    var data := [tag] + LengthBytes(n) + rest;
    assert n % WRAP == n;
    if n >= 0x80 {
      var buf := PutBigEndian32(n);
      var k := 4 - LeadingZeros(buf);
      assert data == [tag, 0x80 + k] + buf[4 - k..] + rest;
      assert data[2..2 + k] == buf[4 - k..];
      SpellSkips(buf, 4 - k);
      SpellFour(n);
      LongForm(data, k);
    }
  }

  /** Reading an element undoes writing it, for every length below 2^32. */
  lemma TlvReadsBack(tag: byte, value: seq<byte>, rest: seq<byte>)
    requires |value| < WRAP
    ensures ReadTlv(Tlv(tag, value) + rest) == Some(Element(tag, value))
  {
    var len := LengthBytes(|value|);
    var data := Tlv(tag, value) + rest;
    assert data == [tag] + len + (value + rest);
    LengthReadsBack(tag, |value|, value + rest);
    assert data[1 + |len|..1 + |len| + |value|] == value;
  }

  /** An element within the cap is read off a stream, and the stream goes on behind it. */
  lemma ElementReadsBack(tag: byte, value: seq<byte>, rest: seq<byte>)
    requires |value| <= MAX_LEN
    ensures ReadElement(Tlv(tag, value) + rest) == Some(Streamed(tag, value, rest))
  {
    var len := LengthBytes(|value|);
    var data := Tlv(tag, value) + rest;
    assert data == [tag] + len + (value + rest);
    LengthReadsBack(tag, |value|, value + rest);
    assert data[1 + |len|..1 + |len| + |value|] == value && data[1 + |len| + |value|..] == rest;
  }

  // ---- LDAP responses ----

  const ENUMERATED: byte := 0x0a
  const OCTET_STRING: byte := 0x04
  const SEQUENCE: byte := 0x30
  const BIND_RESPONSE: byte := 0x61
  const SEARCH_DONE: byte := 0x65

  /** The body of an LDAPResult (section 4.1.9 of RFC 4511). */
  function ResultBody(code: int, matchedDN: seq<byte>, diagnostic: seq<byte>): seq<byte> {
    Integer(ENUMERATED, code) + (Tlv(OCTET_STRING, matchedDN) + Tlv(OCTET_STRING, diagnostic))
  }

  function Response(msgID: int, op: byte, body: seq<byte>): seq<byte> {
    Tlv(SEQUENCE, Integer(INTEGER, msgID) + Tlv(op, body))
  }

  method BuildResponse(msgID: int, op: byte, code: int, matchedDN: seq<byte>, diagnostic: seq<byte>) returns (r: seq<byte>)
    ensures r == Response(msgID, op, ResultBody(code, matchedDN, diagnostic))
  {
    var msgIDBytes := BerInteger(INTEGER, msgID);
    var codeBytes := BerInteger(ENUMERATED, code);
    var dnBytes := BerOctetString(OCTET_STRING, matchedDN);
    var diagnosticBytes := BerOctetString(OCTET_STRING, diagnostic);
    var parts := [codeBytes, dnBytes, diagnosticBytes];
    FlattenThree(codeBytes, dnBytes, diagnosticBytes);
    var result := BerSequence(op, parts);
    FlattenTwo(msgIDBytes, result);
    r := BerSequence(SEQUENCE, [msgIDBytes, result]);
  }

  method BerBuildBindResponse(msgID: int, code: int, matchedDN: seq<byte>, diagnostic: seq<byte>) returns (r: seq<byte>)
    ensures r == Response(msgID, BIND_RESPONSE, ResultBody(code, matchedDN, diagnostic))
  {
    r := BuildResponse(msgID, BIND_RESPONSE, code, matchedDN, diagnostic);
  }

  method BerBuildSearchDone(msgID: int, code: int) returns (r: seq<byte>)
    ensures r == Response(msgID, SEARCH_DONE, ResultBody(code, [], []))
  {
    r := BuildResponse(msgID, SEARCH_DONE, code, [], []);
  }

  lemma FlattenTwo(a: seq<byte>, b: seq<byte>)
    ensures Flatten([a, b]) == a + b
  {
    var two, one := [a, b], [b];
    assert two[1..] == one && one[1..] == [];
    assert Flatten(one) == b;
  }

  lemma FlattenThree(a: seq<byte>, b: seq<byte>, c: seq<byte>)
    ensures Flatten([a, b, c]) == a + (b + c)
  {
    var three := [a, b, c];
    assert three[1..] == [b, c];
    FlattenTwo(b, c);
  }

  /** A response on a stream reads back to its own message ID, operation and result. */
  lemma ResponseReadsBack(msgID: int, op: byte, code: int, matchedDN: seq<byte>, diagnostic: seq<byte>, rest: seq<byte>)
    requires IsInt64(msgID) && IsInt64(code)
    requires var body := ResultBody(code, matchedDN, diagnostic); |Integer(INTEGER, msgID) + Tlv(op, body)| <= MAX_LEN
    ensures var body := ResultBody(code, matchedDN, diagnostic);
      var e := ReadElement(Response(msgID, op, body) + rest);
      && e.Some? && e.value.tag == SEQUENCE && e.value.rest == rest
      && ReadInteger(e.value.value) == Some(Int(msgID, Tlv(op, body)))
      && ReadTlv(Tlv(op, body)) == Some(Element(op, body))
      && ReadTlv(body) == Some(Element(ENUMERATED, IntBytes(code)))
  {
    var body := ResultBody(code, matchedDN, diagnostic);
    ElementReadsBack(SEQUENCE, Integer(INTEGER, msgID) + Tlv(op, body), rest);
    IntegerReadsBack(msgID, Tlv(op, body));
    TlvReadsBack(op, body, []);
    assert Tlv(op, body) + [] == Tlv(op, body);
    IntegerReadsBack(code, []);
    TlvReadsBack(ENUMERATED, IntBytes(code), Tlv(OCTET_STRING, matchedDN) + Tlv(OCTET_STRING, diagnostic));
  }
}
