/** Bytes as the wire formats use them. */
module Bytes {
  import opened Fifo

  type byte = b: int | 0 <= b < 256

  /** The unsigned 32-bit number at i, most significant byte first. */
  function BigEndian32(s: seq<byte>, i: nat): (n: nat)
    requires i + 4 <= |s|
    ensures n < 0x1_0000_0000
  {
    var a: int, b: int, c: int := s[i], s[i + 1], s[i + 2];
    a * 0x100_0000 + b * 0x1_0000 + c * 0x100 + s[i + 3]
  }

  function PutBigEndian32(n: nat): (s: seq<byte>)
    requires n < 0x1_0000_0000
    ensures |s| == 4
  {
    [n / 0x100_0000, n / 0x1_0000 % 0x100, n / 0x100 % 0x100, n % 0x100]
  }

  /** The four digits of n in base 256 make up n. */
  lemma Digits(n: nat)
    ensures n / 0x100_0000 * 0x100_0000 + n / 0x1_0000 % 0x100 * 0x1_0000 + n / 0x100 % 0x100 * 0x100 + n % 0x100 == n
  {
    var a, b, c := n / 0x100, n / 0x1_0000, n / 0x100_0000;
    assert b == a / 0x100 && c == b / 0x100;
  }

  lemma BigEndian32Reads(n: nat, pre: seq<byte>, post: seq<byte>)
    requires n < 0x1_0000_0000
    ensures BigEndian32(pre + PutBigEndian32(n) + post, |pre|) == n
  {
    var s, b := pre + PutBigEndian32(n) + post, PutBigEndian32(n);
    Digits(n);
    assert s[|pre|] == b[0] && s[|pre| + 1] == b[1] && s[|pre| + 2] == b[2] && s[|pre| + 3] == b[3];
  }

  /** The unsigned 32-bit number at the front, least significant byte first. */
  function LittleEndian32(s: seq<byte>): (n: nat)
    requires |s| >= 4
    ensures n < 0x1_0000_0000
  {
    var b: int, c: int, d: int := s[1], s[2], s[3];
    s[0] + b * 0x100 + c * 0x1_0000 + d * 0x100_0000
  }

  /** The low 32 bits of v, least significant byte first. */
  function PutLittleEndian32(v: int): (s: seq<byte>)
    ensures |s| == 4
  {
    var n := v % 0x1_0000_0000;
    [n % 0x100, n / 0x100 % 0x100, n / 0x1_0000 % 0x100, n / 0x100_0000]
  }

  lemma LittleEndian32Reads(v: int, post: seq<byte>)
    ensures LittleEndian32(PutLittleEndian32(v) + post) == v % 0x1_0000_0000
  {
    var s, b := PutLittleEndian32(v) + post, PutLittleEndian32(v);
    Digits(v % 0x1_0000_0000);
    assert s[0] == b[0] && s[1] == b[1] && s[2] == b[2] && s[3] == b[3];
  }

  /** i is the first position at or after from that holds b. */
  predicate FirstAt(s: seq<byte>, b: byte, from: nat, i: int) {
    from <= i < |s| && s[i] == b && forall j :: from <= j < i ==> s[j] != b
  }

  ghost function IndexOfByte(s: seq<byte>, b: byte, from: nat): (r: Option<nat>)
    ensures r.Some? ==> FirstAt(s, b, from, r.value)
    ensures r.None? ==> forall i :: !FirstAt(s, b, from, i)
  {
    if i :| FirstAt(s, b, from, i) then Some(i) else None
  }

  method FindByte(s: seq<byte>, b: byte, from: nat) returns (i: int)
    requires from <= |s|
    ensures i < 0 ==> IndexOfByte(s, b, from) == None
    ensures i >= 0 ==> IndexOfByte(s, b, from) == Some(i)
  {
    i := from;
    while i < |s|
      invariant from <= i <= |s| && forall j :: from <= j < i ==> s[j] != b
    {
      if s[i] == b {
        assert FirstAt(s, b, from, i);
        return;
      }
      i := i + 1;
    }
    i := -1;
  }

  /** More bytes behind a found byte do not change where it is found. */
  lemma IndexStays(s: seq<byte>, more: seq<byte>, b: byte, from: nat)
    requires IndexOfByte(s, b, from).Some?
    ensures IndexOfByte(s + more, b, from) == IndexOfByte(s, b, from)
  {
    var i := IndexOfByte(s, b, from).value;
    assert forall j :: from <= j <= i ==> (s + more)[j] == s[j];
    assert FirstAt(s + more, b, from, i);
  }

  ghost function Flatten<T>(chunks: seq<seq<T>>): seq<T> {
    if chunks == [] then [] else chunks[0] + Flatten(chunks[1..])
  }
}
