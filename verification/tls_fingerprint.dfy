/** The JA3 and JA4 fingerprints of a parsed ClientHello; the digests are parameters. */
module TlsFingerprint {
  import opened Bytes
  import opened Sort16
  import opened Texts

  datatype Hello = Hello(version: u16, ciphers: seq<u16>, extensions: seq<u16>, curves: seq<u16>, points: seq<byte>,
    sigAlgs: seq<u16>, versions: seq<u16>, alpn: seq<seq<byte>>, hasSNI: bool)

  /** Both bytes are equal and end in the digit a. */
  predicate IsGrease(v: u16) {
    v / 0x100 == v % 0x100 && v % 0x10 == 0xa
  }

  /** The GREASE values are the sixteen of section 2 of RFC 8701. */
  lemma GreaseValues(v: u16)
    ensures IsGrease(v) <==> exists k :: 0 <= k < 16 && v == 0x0a0a + 0x1010 * k
  {
    if IsGrease(v) {
      var k := v % 0x100 / 0x10;
      assert v == 0x0a0a + 0x1010 * k;
    }
  }

  /** The elements p accepts, in order. */
  function Filter(p: u16 -> bool, s: seq<u16>): seq<u16> {
    if s == [] then [] else Filter(p, s[..|s| - 1]) + if p(s[|s| - 1]) then [s[|s| - 1]] else []
  }

  const PLAIN: u16 -> bool := (v: u16) => !IsGrease(v)
  const HASHED: u16 -> bool := (v: u16) => v != 0 && v != 16

  function Plain(s: seq<u16>): seq<u16> {
    Filter(PLAIN, s)
  }

  /** The extensions JA4 hashes: all but server_name and ALPN. */
  function Hashed(s: seq<u16>): seq<u16> {
    Filter(HASHED, s)
  }

  function DecList(s: seq<u16>): (r: seq<string>)
    ensures |r| == |s|
  {
    if s == [] then [] else [Dec(s[0])] + DecList(s[1..])
  }

  function PointList(s: seq<byte>): (r: seq<string>)
    ensures |r| == |s|
  {
    if s == [] then [] else [Dec(s[0])] + PointList(s[1..])
  }

  function HexList(s: seq<u16>): (r: seq<string>)
    ensures |r| == |s|
  {
    if s == [] then [] else [Hex4(s[0])] + HexList(s[1..])
  }

  // ---- JA3 ----

  function Ja3Text(h: Hello): string {
    Join([Dec(h.version), Join(DecList(Plain(h.ciphers)), '-'), Join(DecList(Plain(h.extensions)), '-'),
          Join(DecList(Plain(h.curves)), '-'), Join(PointList(h.points), '-')], ',')
  }

  function Ja3(h: Hello, md5: string -> string): string {
    md5(Ja3Text(h))
  }

  // ---- JA4 ----

  /** The highest plain value, 0 without one. */
  function Highest(s: seq<u16>): u16 {
    if s == [] then 0
    else
      var m := Highest(s[..|s| - 1]);
      if s[|s| - 1] > m then s[|s| - 1] else m
  }

  function VersionCode(v: u16): string {
    match v
    case 0x0304 => "13"
    case 0x0303 => "12"
    case 0x0302 => "11"
    case 0x0301 => "10"
    case 0x0300 => "s3"
    case 0x0002 => "s2"
    case _ => "00"
  }

  function Ja4Version(h: Hello): string {
    var best := Highest(Plain(h.versions));
    VersionCode(if best != 0 then best else h.version)
  }

  predicate IsAlnum(b: byte) {
    0x30 <= b <= 0x39 || 0x61 <= b <= 0x7a || 0x41 <= b <= 0x5a
  }

  function Ja4Alpn(alpn: seq<seq<byte>>): string {
    if alpn == [] || alpn[0] == [] then "00"
    else
      var first, last := alpn[0][0], alpn[0][|alpn[0]| - 1];
      if IsAlnum(first) && IsAlnum(last) then [first as char, last as char]
      else [DIGITS[first / 0x10], DIGITS[last % 0x10]]
  }

  function Count2(n: nat): string {
    var m := if n > 99 then 99 else n;
    [DIGITS[m / 10], DIGITS[m % 10]]
  }

  function Hex12(text: string, sha: string -> string): string {
    if text == "" then "000000000000" else sha(text)
  }

  ghost function CipherText(h: Hello): string {
    Join(HexList(InOrder(Plain(h.ciphers))), ',')
  }

  ghost function ExtensionText(h: Hello): string {
    var es, sa := HexList(InOrder(Hashed(Plain(h.extensions)))), HexList(Plain(h.sigAlgs));
    if es == [] then "" else Join(es, ',') + if sa == [] then "" else "_" + Join(sa, ',')
  }

  ghost function Ja4(h: Hello, sha: string -> string): string {
    "t" + Ja4Version(h) + (if h.hasSNI then "d" else "i") + Count2(|Plain(h.ciphers)|) + Count2(|Plain(h.extensions)|)
    + Ja4Alpn(h.alpn) + "_" + Hex12(CipherText(h), sha) + "_" + Hex12(ExtensionText(h), sha)
  }

  // ---- as the code computes them ----

  method Keep(p: u16 -> bool, s: seq<u16>) returns (r: seq<u16>)
    ensures r == Filter(p, s)
  {
    r := [];
    var i := 0;
    while i < |s|
      invariant 0 <= i <= |s| && r == Filter(p, s[..i])
    {
      assert s[..i + 1][..i] == s[..i];
      if p(s[i]) {
        r := r + [s[i]];
      }
      i := i + 1;
    }
    assert s[..i] == s;
  }

  /** A copy of s, sorted in place. */
  method SortedCopy(s: seq<u16>) returns (r: seq<u16>)
    ensures r == InOrder(s)
  {
    var v := new u16[|s|](i requires 0 <= i < |s| => s[i]);
    assert v[..] == s;
    SortU16(v);
    r := v[..];
  }

  method BestVersion(s: seq<u16>) returns (best: u16)
    ensures best == Highest(Plain(s))
  {
    best := 0;
    var i := 0;
    while i < |s|
      invariant 0 <= i <= |s| && best == Highest(Plain(s[..i]))
    {
      var front := s[..i];
      assert s[..i + 1][..i] == front;
      if !IsGrease(s[i]) {
        assert (Plain(front) + [s[i]])[..|Plain(front)|] == Plain(front);
      } else {
        assert Plain(s[..i + 1]) == Plain(front);
      }
      if !IsGrease(s[i]) && s[i] > best {
        best := s[i];
      }
      i := i + 1;
    }
    assert s[..i] == s;
  }

  method Ja4Of(h: Hello, sha: string -> string) returns (r: string)
    ensures r == Ja4(h, sha)
  {
    var ciphers := Keep(PLAIN, h.ciphers);
    var exts := Keep(PLAIN, h.extensions);
    var hashed := Keep(HASHED, exts);
    var sorted := SortedCopy(ciphers);
    var cs := HexList(sorted);
    sorted := SortedCopy(hashed);
    var es := HexList(sorted);
    var plain := Keep(PLAIN, h.sigAlgs);
    var sa := HexList(plain);
    var extPart := Join(es, ',');
    if |sa| > 0 {
      extPart := extPart + "_" + Join(sa, ',');
    }
    if |es| == 0 {
      extPart := "";
    }
    assert extPart == ExtensionText(h);
    var best := BestVersion(h.versions);
    var version := VersionCode(if best != 0 then best else h.version);
    r := "t" + version + (if h.hasSNI then "d" else "i") + Count2(|ciphers|) + Count2(|exts|)
      + Ja4Alpn(h.alpn) + "_" + Hex12(Join(cs, ','), sha) + "_" + Hex12(extPart, sha);
  }
}
