/** What the fingerprint texts contain, by reading them back. */
module TlsLayout {
  import opened Bytes
  import opened Sort16
  import opened Texts
  import opened TlsFingerprint
  import opened TlsLaws

  // ---- reading numbers ----

  /** The value of a lower-case digit, -1 for other characters. */
  function DigitValue(c: char): int {
    if '0' <= c <= '9' then c as int - '0' as int
    else if 'a' <= c <= 'f' then c as int - 'a' as int + 10
    else -1
  }

  function Value(s: string, base: nat): int {
    if s == "" then 0 else Value(s[..|s| - 1], base) * base + DigitValue(s[|s| - 1])
  }

  lemma DigitReads(i: nat)
    requires i < 16
    ensures DigitValue(DIGITS[i]) == i
  {
  }

  lemma ValueAppends(s: string, c: char, base: nat)
    ensures Value(s + [c], base) == Value(s, base) * base + DigitValue(c)
  {
    assert (s + [c])[..|s|] == s;
  }

  /** A number is written in decimal, without leading zeros. */
  lemma {:induction false} DecReads(n: nat)
    ensures Value(Dec(n), 10) == n && (Dec(n)[0] == '0' ==> n == 0)
  {
    var front := if n < 10 then "" else Dec(n / 10);
    if n >= 10 {
      DecReads(n / 10);
    }
    DigitReads(n % 10);
    ValueAppends(front, DIGITS[n % 10], 10);
    assert n >= 10 ==> Dec(n)[0] == front[0];
  }

  lemma FourDigits(w: char, x: char, y: char, z: char, base: nat)
    ensures Value([w, x, y, z], base) == ((DigitValue(w) * base + DigitValue(x)) * base + DigitValue(y)) * base + DigitValue(z)
  {
    var s := [w, x, y, z];
    ValueAppends(s[..3], z, base);
    ValueAppends(s[..2], y, base);
    ValueAppends(s[..1], x, base);
    ValueAppends("", w, base);
    assert s[..3] + [z] == s && s[..2] + [y] == s[..3] && s[..1] + [x] == s[..2] && "" + [w] == s[..1];
  }

  /** A code is written as four hexadecimal digits. */
  lemma HexReads(v: u16)
    ensures Value(Hex4(v), 16) == v
  {
    var a, b, c, d := v / 0x1000, v / 0x100 % 0x10, v / 0x10 % 0x10, v % 0x10;
    DigitReads(a);
    DigitReads(b);
    DigitReads(c);
    DigitReads(d);
    FourDigits(DIGITS[a], DIGITS[b], DIGITS[c], DIGITS[d], 16);
    HexDigits(v);
  }

  // ---- reading lists ----

  /** The parts between the separators; an empty text has no part. */
  function Split(s: string, sep: char): (parts: seq<string>)
    ensures |parts| > 0
  {
    if s == "" then [""]
    else
      var rest := Split(s[1..], sep);
      if s[0] == sep then [""] + rest else [[s[0]] + rest[0]] + rest[1..]
  }

  lemma {:induction false} SplitPlain(a: string, sep: char)
    requires sep !in a
    ensures Split(a, sep) == [a]
  {
    if a != "" {
      SplitPlain(a[1..], sep);
      assert a == [a[0]] + a[1..];
    }
  }

  lemma {:induction false} SplitFirst(a: string, x: string, sep: char)
    requires sep !in a
    ensures Split(a + [sep] + x, sep) == [a] + Split(x, sep)
  {
    var s := a + [sep] + x;
    if a == "" {
      assert s[1..] == x;
    } else {
      assert s[1..] == a[1..] + [sep] + x && s[0] == a[0];
      SplitFirst(a[1..], x, sep);
      assert a == [a[0]] + a[1..];
    }
  }

  lemma {:induction false} SplitJoin(parts: seq<string>, sep: char)
    requires parts != [] && Free(parts, sep)
    ensures Split(Join(parts, sep), sep) == parts
  {
    FreeTail(parts, sep);
    if |parts| == 1 {
      SplitPlain(parts[0], sep);
    } else {
      SplitFirst(parts[0], Join(parts[1..], sep), sep);
      SplitJoin(parts[1..], sep);
    }
  }

  /** The text lists the numbers in that base, in order; no text for no number. */
  ghost predicate Lists(text: string, sep: char, base: nat, s: seq<int>) {
    if s == [] then text == ""
    else
      var parts := Split(text, sep);
      |parts| == |s| && forall i :: 0 <= i < |s| ==> parts[i] != "" && Value(parts[i], base) == s[i]
  }

  lemma {:induction false} DecListAt(s: seq<u16>, i: nat)
    requires i < |s|
    ensures DecList(s)[i] == Dec(s[i])
  {
    if i > 0 {
      DecListAt(s[1..], i - 1);
    }
  }

  lemma {:induction false} PointListAt(s: seq<byte>, i: nat)
    requires i < |s|
    ensures PointList(s)[i] == Dec(s[i])
  {
    if i > 0 {
      PointListAt(s[1..], i - 1);
    }
  }

  lemma {:induction false} HexListAt(s: seq<u16>, i: nat)
    requires i < |s|
    ensures HexList(s)[i] == Hex4(s[i])
  {
    if i > 0 {
      HexListAt(s[1..], i - 1);
    }
  }

  lemma DecTextReads(s: seq<u16>)
    ensures Lists(Join(DecList(s), '-'), '-', 10, s)
  {
    if s != [] {
      DecListFree(s, '-');
      SplitJoin(DecList(s), '-');
      forall i | 0 <= i < |s| ensures DecList(s)[i] != "" && Value(DecList(s)[i], 10) == s[i] {
        DecListAt(s, i);
        DecReads(s[i]);
      }
    }
  }

  lemma PointTextReads(s: seq<byte>)
    ensures Lists(Join(PointList(s), '-'), '-', 10, s)
  {
    if s != [] {
      PointListFree(s, '-');
      SplitJoin(PointList(s), '-');
      forall i | 0 <= i < |s| ensures PointList(s)[i] != "" && Value(PointList(s)[i], 10) == s[i] {
        PointListAt(s, i);
        DecReads(s[i]);
      }
    }
  }

  lemma HexTextReads(s: seq<u16>)
    ensures ListsCodes(Join(HexList(s), ','), s)
  {
    if s != [] {
      HexListFree(s, ',');
      SplitJoin(HexList(s), ',');
      forall i | 0 <= i < |s| ensures |HexList(s)[i]| == 4 && Value(HexList(s)[i], 16) == s[i] {
        HexListAt(s, i);
        HexReads(s[i]);
      }
    }
  }

  // ---- JA3 ----

  /** One of the sixteen values of RFC 8701. */
  ghost predicate Reserved(v: int) {
    exists g: nat :: g < 16 && v == 0x0a0a + 0x1010 * g
  }

  /** Which values of a list are kept, in order. */
  ghost predicate WithoutGrease(s: seq<u16>, t: seq<u16>) {
    exists at: seq<nat> :: Keeps(s, t, at)
  }

  ghost predicate Keeps(s: seq<u16>, t: seq<u16>, at: seq<nat>) {
    && |at| == |t| && (forall i :: 0 <= i < |at| ==> at[i] < |s| && t[i] == s[at[i]])
    && (forall i, j :: 0 <= i < j < |at| ==> at[i] < at[j])
    && forall k: nat :: k < |s| ==> (k in at <==> !Reserved(s[k]))
  }

  lemma GreaseIs(v: u16)
    ensures IsGrease(v) <==> Reserved(v)
  {
    GreaseValues(v);
    if IsGrease(v) {
      var k :| 0 <= k < 16 && v == 0x0a0a + 0x1010 * k;
      var g: nat := k;
      assert v == 0x0a0a + 0x1010 * g;
    }
  }

  lemma KeepsNext(s: seq<u16>, t: seq<u16>, at: seq<nat>, v: u16)
    requires Keeps(s, t, at)
    ensures Reserved(v) ==> Keeps(s + [v], t, at)
    ensures !Reserved(v) ==> Keeps(s + [v], t + [v], at + [|s|])
  {
    assert forall k: nat :: k < |s| ==> (s + [v])[k] == s[k];
    assert |s| !in at;
    assert forall k: nat :: k < |s| ==> (k in at + [|s|] <==> k in at);
  }

  lemma {:induction false} PlainKeeps(s: seq<u16>) returns (at: seq<nat>)
    ensures Keeps(s, Plain(s), at)
  {
    if s == [] {
      at := [];
    } else {
      var n := |s| - 1;
      at := PlainKeeps(s[..n]);
      GreaseIs(s[n]);
      KeepsNext(s[..n], Plain(s[..n]), at, s[n]);
      assert s[..n] + [s[n]] == s;
      at := if IsGrease(s[n]) then at else at + [n];
    }
  }

  lemma PlainIs(s: seq<u16>)
    ensures WithoutGrease(s, Plain(s))
  {
    var at := PlainKeeps(s);
  }

  lemma Ja3Splits(h: Hello)
    ensures Split(Ja3Text(h), ',') == Ja3Parts(h)
  {
    Ja3PartsFree(h);
    SplitJoin(Ja3Parts(h), ',');
  }

  /** What the five parts list. */
  ghost predicate ListsParts(parts: seq<string>, version: int, ciphers: seq<int>, extensions: seq<int>, curves: seq<int>, points: seq<int>) {
    && |parts| == 5 && Value(parts[0], 10) == version
    && Lists(parts[1], '-', 10, ciphers) && Lists(parts[2], '-', 10, extensions) && Lists(parts[3], '-', 10, curves)
    && Lists(parts[4], '-', 10, points)
  }

  lemma Ja3PartsRead(h: Hello)
    ensures ListsParts(Ja3Parts(h), h.version, Plain(h.ciphers), Plain(h.extensions), Plain(h.curves), h.points)
  {
    var parts := Ja3Parts(h);
    assert Value(parts[0], 10) == h.version by {
      DecReads(h.version);
    }
    assert Lists(parts[1], '-', 10, Plain(h.ciphers)) by {
      DecTextReads(Plain(h.ciphers));
    }
    assert Lists(parts[2], '-', 10, Plain(h.extensions)) by {
      DecTextReads(Plain(h.extensions));
    }
    assert Lists(parts[3], '-', 10, Plain(h.curves)) by {
      DecTextReads(Plain(h.curves));
    }
    assert Lists(parts[4], '-', 10, h.points) by {
      PointTextReads(h.points);
    }
  }

  /** The JA3 text: version, ciphers, extensions, groups and point formats, all in decimal and in wire order, without
      the sixteen GREASE values. */
  lemma Ja3Layout(h: Hello) returns (ciphers: seq<u16>, extensions: seq<u16>, curves: seq<u16>)
    ensures WithoutGrease(h.ciphers, ciphers) && WithoutGrease(h.extensions, extensions) && WithoutGrease(h.curves, curves)
    ensures ListsParts(Split(Ja3Text(h), ','), h.version, ciphers, extensions, curves, h.points)
  {
    ciphers, extensions, curves := Plain(h.ciphers), Plain(h.extensions), Plain(h.curves);
    PlainIs(h.ciphers);
    PlainIs(h.extensions);
    PlainIs(h.curves);
    Ja3Splits(h);
    Ja3PartsRead(h);
  }

  // ---- JA4 ----

  /** The version a hello offers: the highest of its list without GREASE, or its own field if there is none but zero. */
  ghost predicate Offers(h: Hello, v: u16) {
    || (v in h.versions && v > 0 && !IsGrease(v) && forall w :: w in h.versions && !IsGrease(w) ==> w <= v)
    || (v == h.version && forall w :: w in h.versions && !IsGrease(w) ==> w == 0)
  }

  ghost predicate ShowsVersion(v: u16, s: string) {
    |s| == 2 &&
    if 0x0301 <= v <= 0x0304 then s[0] == '1' && DigitValue(s[1]) == v - 0x0301
    else if v == 0x0300 then s == "s3"
    else if v == 0x0002 then s == "s2"
    else s == "00"
  }

  /** How many values are not GREASE. */
  ghost function PlainCount(s: seq<u16>): nat {
    |set i | 0 <= i < |s| && !IsGrease(s[i])|
  }

  ghost predicate ShowsCount(n: nat, s: string) {
    |s| == 2 && Value(s, 10) == if n > 99 then 99 else n
  }

  predicate Alphanumeric(b: int) {
    '0' as int <= b <= '9' as int || 'a' as int <= b <= 'z' as int || 'A' as int <= b <= 'Z' as int
  }

  ghost predicate ShowsAlpn(alpn: seq<seq<byte>>, s: string) {
    |s| == 2 &&
    if alpn == [] || alpn[0] == [] then s == "00"
    else
      var first, last := alpn[0][0], alpn[0][|alpn[0]| - 1];
      if Alphanumeric(first) && Alphanumeric(last) then s[0] as int == first && s[1] as int == last
      else DigitValue(s[0]) == first / 0x10 && DigitValue(s[1]) == last % 0x10
  }

  /** The head of a JA4 text of ten characters. */
  ghost predicate ShowsHead(h: Hello, r: string) {
    && |r| >= 10 && r[0] == 't' && (exists v: u16 :: Offers(h, v) && ShowsVersion(v, r[1..3]))
    && r[3] == (if h.hasSNI then 'd' else 'i')
    && ShowsCount(PlainCount(h.ciphers), r[4..6]) && ShowsCount(PlainCount(h.extensions), r[6..8])
    && ShowsAlpn(h.alpn, r[8..10])
  }

  /** The text lists the codes of s that p accepts as four hexadecimal digits each, in ascending order. */
  ghost predicate ListsSorted(text: string, p: u16 -> bool, s: seq<u16>) {
    exists codes: seq<u16> :: IsSortedPart(p, s, codes) && ListsCodes(text, codes)
  }

  /** Four digits for each code. */
  ghost predicate ListsCodes(text: string, codes: seq<int>) {
    Lists(text, ',', 16, codes) && (codes != [] ==> forall i :: 0 <= i < |codes| ==> |Split(text, ',')[i]| == 4)
  }

  ghost predicate IsSortedPart(p: u16 -> bool, s: seq<u16>, codes: seq<u16>) {
    Sorted(codes) && forall x: u16 :: multiset(codes)[x] == if p(x) then multiset(s)[x] else 0
  }

  lemma {:induction false} PlainSize(s: seq<u16>)
    ensures |Plain(s)| == PlainCount(s)
  {
    var all := set i | 0 <= i < |s| && !IsGrease(s[i]);
    if s != [] {
      var n := |s| - 1;
      PlainSize(s[..n]);
      var front := set i | 0 <= i < n && !IsGrease(s[..n][i]);
      assert all == if IsGrease(s[n]) then front else front + {n};
    } else {
      assert all == {};
    }
  }

  lemma {:induction false} PlainHas(s: seq<u16>, v: u16)
    ensures v in Plain(s) <==> v in s && !IsGrease(v)
  {
    if s != [] {
      PlainHas(s[..|s| - 1], v);
      assert s == s[..|s| - 1] + [s[|s| - 1]];
    }
  }

  lemma VersionOffered(h: Hello)
    ensures exists v: u16 :: Offers(h, v) && ShowsVersion(v, Ja4Version(h))
  {
    var plain := Plain(h.versions);
    HighestIsMax(plain);
    forall w: u16 ensures w in plain <==> w in h.versions && !IsGrease(w) {
      PlainHas(h.versions, w);
    }
    var v: u16 := if Highest(plain) != 0 then Highest(plain) else h.version;
    assert Offers(h, v);
    VersionShown(v);
  }

  lemma VersionShown(v: u16)
    ensures ShowsVersion(v, VersionCode(v))
  {
  }

  lemma CountShown(n: nat)
    ensures ShowsCount(n, Count2(n))
  {
    var m := if n > 99 then 99 else n;
    DigitReads(m / 10);
    DigitReads(m % 10);
    ValueAppends("", DIGITS[m / 10], 10);
    ValueAppends([DIGITS[m / 10]], DIGITS[m % 10], 10);
  }

  lemma AlpnShown(alpn: seq<seq<byte>>)
    ensures ShowsAlpn(alpn, Ja4Alpn(alpn))
  {
    if alpn != [] && alpn[0] != [] {
      DigitReads(alpn[0][0] / 0x10);
      DigitReads(alpn[0][|alpn[0]| - 1] % 0x10);
    }
  }

  /** The head as the parts build it. */
  ghost function Head(h: Hello): string {
    "t" + Ja4Version(h) + (if h.hasSNI then "d" else "i") + Count2(|Plain(h.ciphers)|) + Count2(|Plain(h.extensions)|)
    + Ja4Alpn(h.alpn)
  }

  lemma HeadParts(a: string, v: string, d: string, n: string, m: string, p: string)
    requires |a| == |d| == 1 && |v| == |n| == |m| == |p| == 2
    ensures var r := a + v + d + n + m + p;
      && |r| == 10 && r[0] == a[0] && r[1..3] == v && r[3] == d[0] && r[4..6] == n && r[6..8] == m && r[8..10] == p
  {
  }

  lemma HeadShown(h: Hello)
    ensures |Head(h)| == 10 && ShowsHead(h, Head(h))
  {
    VersionOffered(h);
    CountShown(|Plain(h.ciphers)|);
    CountShown(|Plain(h.extensions)|);
    PlainSize(h.ciphers);
    PlainSize(h.extensions);
    AlpnShown(h.alpn);
    HeadParts("t", Ja4Version(h), if h.hasSNI then "d" else "i", Count2(|Plain(h.ciphers)|), Count2(|Plain(h.extensions)|), Ja4Alpn(h.alpn));
  }

  lemma CipherTextReads(h: Hello)
    ensures ListsSorted(CipherText(h), PLAIN, h.ciphers)
  {
    var codes: seq<u16> := InOrder(Plain(h.ciphers));
    InOrderSorts(Plain(h.ciphers));
    forall x: u16 ensures multiset(codes)[x] == if PLAIN(x) then multiset(h.ciphers)[x] else 0 {
      FilterCounts(PLAIN, h.ciphers, x);
    }
    HexTextReads(codes);
    assert IsSortedPart(PLAIN, h.ciphers, codes);
  }

  /** Neither GREASE nor server_name nor ALPN. */
  const NAMED: u16 -> bool := (v: u16) => !IsGrease(v) && v != 0x0000 && v != 0x0010

  lemma ExtensionPartReads(h: Hello)
    ensures ListsSorted(ExtensionPart(h), NAMED, h.extensions)
  {
    var part := Hashed(Plain(h.extensions));
    var codes: seq<u16> := InOrder(part);
    InOrderSorts(part);
    forall x: u16 ensures multiset(codes)[x] == if NAMED(x) then multiset(h.extensions)[x] else 0 {
      FilterCounts(PLAIN, h.extensions, x);
      FilterCounts(HASHED, Plain(h.extensions), x);
    }
    HexTextReads(codes);
    assert IsSortedPart(NAMED, h.extensions, codes);
  }

  /** The text is es and, if there are any of both, an underscore and the list of sa. */
  ghost predicate Appends(text: string, es: string, sa: seq<int>) {
    if es == "" || sa == [] then text == es
    else |text| > |es| && text[..|es|] == es && text[|es|] == '_' && ListsCodes(text[|es| + 1..], sa)
  }

  /** The extension text: the extensions but server_name and ALPN in ascending order, then, if there are any of both,
      an underscore and the signature algorithms in wire order. */
  ghost predicate ShowsExtensions(h: Hello, text: string) {
    exists es: string, sa: seq<u16> ::
      ListsSorted(es, NAMED, h.extensions) && WithoutGrease(h.sigAlgs, sa) && Appends(text, es, sa)
  }

  lemma SuffixReads(es: string, sa: seq<u16>)
    requires es != ""
    ensures Appends(Suffixed(es, sa), es, sa)
  {
    HexTextReads(sa);
    var list := Join(HexList(sa), ',');
    if sa != [] {
      assert (es + "_" + list)[|es| + 1..] == list;
      assert Suffixed(es, sa) == es + "_" + list;
    } else {
      assert es + "" == es;
    }
  }

  lemma ExtensionTextReads(h: Hello)
    ensures ShowsExtensions(h, ExtensionText(h))
  {
    var es: string, sa: seq<u16> := ExtensionPart(h), Plain(h.sigAlgs);
    ExtensionPartReads(h);
    ExtensionTextIs(h);
    PlainIs(h.sigAlgs);
    if es != "" {
      SuffixReads(es, sa);
    }
    assert Appends(ExtensionText(h), es, sa);
  }

  /** The digests of the two texts, twelve zeros for an empty one, behind the head. */
  ghost predicate ShowsDigests(r: string, ct: string, et: string, sha: string -> string) {
    var a, b := if ct == "" then "000000000000" else sha(ct), if et == "" then "000000000000" else sha(et);
    && |r| == 12 + |a| + |b| && r[10] == '_' && r[11..11 + |a|] == a && r[11 + |a|] == '_' && r[12 + |a|..] == b
  }

  lemma DigestParts(head: string, a: string, b: string)
    requires |head| == 10
    ensures var r := head + "_" + a + "_" + b;
      && |r| == 12 + |a| + |b| && r[..10] == head && r[10] == '_' && r[11..11 + |a|] == a && r[11 + |a|] == '_' && r[12 + |a|..] == b
  {
  }

  /** A JA4 text: protocol, version, server name, number of ciphers, number of extensions and ALPN, then the digest of
      the ciphers, then that of the extensions. */
  lemma Ja4Layout(h: Hello, sha: string -> string) returns (ct: string, et: string)
    ensures var r := Ja4(h, sha);
      && |r| >= 10 && ShowsHead(h, r[..10]) && ShowsDigests(r, ct, et, sha)
      && ListsSorted(ct, PLAIN, h.ciphers) && ShowsExtensions(h, et)
  {
    ct, et := CipherText(h), ExtensionText(h);
    HeadShown(h);
    CipherTextReads(h);
    ExtensionTextReads(h);
    var a, b := Hex12(ct, sha), Hex12(et, sha);
    assert Ja4(h, sha) == Head(h) + "_" + a + "_" + b;
    DigestParts(Head(h), a, b);
  }
}
