/** Which hellos share a fingerprint. */
module TlsLaws {
  import opened Bytes
  import opened Sort16
  import opened Texts
  import opened TlsFingerprint

  // ---- lists of numbers as text ----

  lemma {:induction false} DecListInjective(a: seq<u16>, b: seq<u16>)
    requires DecList(a) == DecList(b)
    ensures a == b
  {
    if a != [] {
      var x, y := DecList(a), DecList(b);
      assert |a| == |x| == |y| == |b|;
      assert x[0] == y[0] && x[1..] == y[1..];
      assert x[0] == Dec(a[0]) && y[0] == Dec(b[0]) && x[1..] == DecList(a[1..]) && y[1..] == DecList(b[1..]);
      DecInjective(a[0], b[0]);
      DecListInjective(a[1..], b[1..]);
      assert a == [a[0]] + a[1..] && b == [b[0]] + b[1..];
    }
  }

  lemma {:induction false} PointListInjective(a: seq<byte>, b: seq<byte>)
    requires PointList(a) == PointList(b)
    ensures a == b
  {
    if a != [] {
      var x, y := PointList(a), PointList(b);
      assert |a| == |x| == |y| == |b|;
      assert x[0] == y[0] && x[1..] == y[1..];
      assert x[0] == Dec(a[0]) && y[0] == Dec(b[0]) && x[1..] == PointList(a[1..]) && y[1..] == PointList(b[1..]);
      DecInjective(a[0], b[0]);
      PointListInjective(a[1..], b[1..]);
      assert a == [a[0]] + a[1..] && b == [b[0]] + b[1..];
    }
  }

  lemma {:induction false} HexListInjective(a: seq<u16>, b: seq<u16>)
    requires HexList(a) == HexList(b)
    ensures a == b
  {
    if a != [] {
      var x, y := HexList(a), HexList(b);
      assert |a| == |x| == |y| == |b|;
      assert x[0] == y[0] && x[1..] == y[1..];
      assert x[0] == Hex4(a[0]) && y[0] == Hex4(b[0]) && x[1..] == HexList(a[1..]) && y[1..] == HexList(b[1..]);
      Hex4Injective(a[0], b[0]);
      HexListInjective(a[1..], b[1..]);
      assert a == [a[0]] + a[1..] && b == [b[0]] + b[1..];
    }
  }

  lemma {:induction false} DecListFree(s: seq<u16>, c: char)
    requires c !in DIGITS
    ensures Free(DecList(s), c) && "" !in DecList(s)
  {
    if s != [] {
      DecPlain(s[0], c);
      DecListFree(s[1..], c);
    }
  }

  lemma {:induction false} PointListFree(s: seq<byte>, c: char)
    requires c !in DIGITS
    ensures Free(PointList(s), c) && "" !in PointList(s)
  {
    if s != [] {
      DecPlain(s[0], c);
      PointListFree(s[1..], c);
    }
  }

  lemma {:induction false} HexListFree(s: seq<u16>, c: char)
    requires c !in DIGITS
    ensures Free(HexList(s), c) && "" !in HexList(s)
  {
    if s != [] {
      Hex4Plain(s[0], c);
      HexListFree(s[1..], c);
    }
  }

  /** A list of numbers joined by dashes determines the list, and holds no comma. */
  lemma DecTextIff(a: seq<u16>, b: seq<u16>)
    ensures Join(DecList(a), '-') == Join(DecList(b), '-') <==> a == b
  {
    if Join(DecList(a), '-') == Join(DecList(b), '-') {
      DecListFree(a, '-');
      DecListFree(b, '-');
      JoinInjective(DecList(a), DecList(b), '-');
      DecListInjective(a, b);
    }
  }

  lemma PointTextIff(a: seq<byte>, b: seq<byte>)
    ensures Join(PointList(a), '-') == Join(PointList(b), '-') <==> a == b
  {
    if Join(PointList(a), '-') == Join(PointList(b), '-') {
      PointListFree(a, '-');
      PointListFree(b, '-');
      JoinInjective(PointList(a), PointList(b), '-');
      PointListInjective(a, b);
    }
  }

  lemma HexTextIff(a: seq<u16>, b: seq<u16>)
    ensures Join(HexList(a), ',') == Join(HexList(b), ',') <==> a == b
  {
    if Join(HexList(a), ',') == Join(HexList(b), ',') {
      HexListFree(a, ',');
      HexListFree(b, ',');
      JoinInjective(HexList(a), HexList(b), ',');
      HexListInjective(a, b);
    }
  }

  // ---- JA3 ----

  function Ja3Parts(h: Hello): seq<string> {
    [Dec(h.version), Join(DecList(Plain(h.ciphers)), '-'), Join(DecList(Plain(h.extensions)), '-'),
     Join(DecList(Plain(h.curves)), '-'), Join(PointList(h.points), '-')]
  }

  lemma Ja3PartsFree(h: Hello)
    ensures Free(Ja3Parts(h), ',')
  {
    DecPlain(h.version, ',');
    DecListFree(Plain(h.ciphers), ',');
    DecListFree(Plain(h.extensions), ',');
    DecListFree(Plain(h.curves), ',');
    PointListFree(h.points, ',');
    JoinFree(DecList(Plain(h.ciphers)), '-', ',');
    JoinFree(DecList(Plain(h.extensions)), '-', ',');
    JoinFree(DecList(Plain(h.curves)), '-', ',');
    JoinFree(PointList(h.points), '-', ',');
  }

  /** Two hellos give JA3 the same text exactly when they agree on version, points, and the
      ciphers, extensions and groups in wire order without GREASE. */
  lemma Ja3TextIff(h: Hello, g: Hello)
    ensures Ja3Text(h) == Ja3Text(g) <==>
      && h.version == g.version && h.points == g.points && Plain(h.ciphers) == Plain(g.ciphers)
      && Plain(h.extensions) == Plain(g.extensions) && Plain(h.curves) == Plain(g.curves)
  {
    if Ja3Text(h) == Ja3Text(g) {
      var x, y := Ja3Parts(h), Ja3Parts(g);
      Ja3PartsFree(h);
      Ja3PartsFree(g);
      JoinOfSize(x, y, ',');
      assert x[0] == y[0] && x[1] == y[1] && x[2] == y[2] && x[3] == y[3] && x[4] == y[4];
      DecInjective(h.version, g.version);
      DecTextIff(Plain(h.ciphers), Plain(g.ciphers));
      DecTextIff(Plain(h.extensions), Plain(g.extensions));
      DecTextIff(Plain(h.curves), Plain(g.curves));
      PointTextIff(h.points, g.points);
    }
  }

  // ---- JA4 ----

  lemma {:induction false} FilterCounts(p: u16 -> bool, s: seq<u16>, x: u16)
    ensures multiset(Filter(p, s))[x] == if p(x) then multiset(s)[x] else 0
  {
    if s != [] {
      FilterCounts(p, s[..|s| - 1], x);
      SplitLast(s);
    }
  }

  /** A filter of a permutation is a permutation of the filter. */
  lemma FilterPermutes(p: u16 -> bool, a: seq<u16>, b: seq<u16>)
    requires multiset(a) == multiset(b)
    ensures multiset(Filter(p, a)) == multiset(Filter(p, b))
  {
    forall x: u16 ensures multiset(Filter(p, a))[x] == multiset(Filter(p, b))[x] {
      FilterCounts(p, a, x);
      FilterCounts(p, b, x);
    }
  }

  lemma SameSize(a: seq<u16>, b: seq<u16>)
    requires multiset(a) == multiset(b)
    ensures |a| == |b|
  {
    assert |multiset(a)| == |a| && |multiset(b)| == |b|;
  }

  /** The cipher text of JA4 is the same exactly for the same ciphers in any order, GREASE aside. */
  lemma CipherTextIff(h: Hello, g: Hello)
    ensures CipherText(h) == CipherText(g) <==> multiset(Plain(h.ciphers)) == multiset(Plain(g.ciphers))
  {
    HexTextIff(InOrder(Plain(h.ciphers)), InOrder(Plain(g.ciphers)));
    InOrderIff(Plain(h.ciphers), Plain(g.ciphers));
  }

  /** What the extension text of JA4 keeps of a hello. */
  ghost predicate SameExtensions(h: Hello, g: Hello) {
    var a, b := Hashed(Plain(h.extensions)), Hashed(Plain(g.extensions));
    multiset(a) == multiset(b) && (a == [] || Plain(h.sigAlgs) == Plain(g.sigAlgs))
  }

  function Suffixed(es: string, sa: seq<u16>): string {
    es + if sa == [] then "" else "_" + Join(HexList(sa), ',')
  }

  lemma SuffixedIff(es: string, ds: string, sa: seq<u16>, ta: seq<u16>)
    requires '_' !in es && '_' !in ds
    ensures Suffixed(es, sa) == Suffixed(ds, ta) <==> es == ds && sa == ta
  {
    var x, y := Join(HexList(sa), ','), Join(HexList(ta), ',');
    assert es + "" == es && ds + "" == ds;
    if sa != [] && ta != [] {
      assert Suffixed(es, sa) == es + ['_'] + x && Suffixed(ds, ta) == ds + ['_'] + y;
      if Suffixed(es, sa) == Suffixed(ds, ta) {
        CutOnce(es, x, ds, y, '_');
        HexTextIff(sa, ta);
      }
    } else if sa != [] {
      assert Suffixed(es, sa) == es + ['_'] + x;
      NeverCut(ds, es, x, '_');
    } else if ta != [] {
      assert Suffixed(ds, ta) == ds + ['_'] + y;
      NeverCut(es, ds, y, '_');
    }
  }

  /** The extension text of JA4 is the same exactly for the same hashed extensions in any order and,
      unless there are none, the same signature algorithms in wire order, GREASE aside. */
  lemma ExtensionTextIff(h: Hello, g: Hello)
    ensures ExtensionText(h) == ExtensionText(g) <==> SameExtensions(h, g)
  {
    var a, b := Hashed(Plain(h.extensions)), Hashed(Plain(g.extensions));
    InOrderIff(a, b);
    HexTextIff(InOrder(a), InOrder(b));
    ExtensionTextIs(h);
    ExtensionTextIs(g);
    SuffixedIff(ExtensionPart(h), ExtensionPart(g), Plain(h.sigAlgs), Plain(g.sigAlgs));
    if multiset(a) == multiset(b) {
      SameSize(a, b);
    }
  }

  ghost function ExtensionPart(h: Hello): string {
    Join(HexList(InOrder(Hashed(Plain(h.extensions)))), ',')
  }

  lemma ExtensionTextIs(h: Hello)
    ensures var a := Hashed(Plain(h.extensions));
      && '_' !in ExtensionPart(h) && (ExtensionPart(h) == "" <==> a == [])
      && ExtensionText(h) == if a == [] then "" else Suffixed(ExtensionPart(h), Plain(h.sigAlgs))
  {
    var x := InOrder(Hashed(Plain(h.extensions)));
    HexListFree(x, '_');
    JoinFree(HexList(x), ',', '_');
    JoinEmpty(HexList(x), ',');
  }

  /** Permuting ciphers and extensions leaves JA4 unchanged, whatever the digest. */
  lemma Ja4Permutes(h: Hello, ciphers: seq<u16>, extensions: seq<u16>, sha: string -> string)
    requires multiset(ciphers) == multiset(h.ciphers) && multiset(extensions) == multiset(h.extensions)
    ensures Ja4(h.(ciphers := ciphers, extensions := extensions), sha) == Ja4(h, sha)
  {
    var g := h.(ciphers := ciphers, extensions := extensions);
    FilterPermutes(PLAIN, ciphers, h.ciphers);
    FilterPermutes(PLAIN, extensions, h.extensions);
    FilterPermutes(HASHED, Plain(extensions), Plain(h.extensions));
    SameSize(Plain(ciphers), Plain(h.ciphers));
    SameSize(Plain(extensions), Plain(h.extensions));
    CipherTextIff(g, h);
    ExtensionTextIff(g, h);
  }

  // ---- GREASE ----

  /** b is a with GREASE values inserted anywhere. */
  predicate Greased(a: seq<u16>, b: seq<u16>)
    decreases |b|
  {
    if b == [] then a == []
    else
      var last := b[|b| - 1];
      (IsGrease(last) && Greased(a, b[..|b| - 1]))
      || (a != [] && a[|a| - 1] == last && Greased(a[..|a| - 1], b[..|b| - 1]))
  }

  lemma {:induction false} GreasedIsPlain(a: seq<u16>, b: seq<u16>)
    requires Greased(a, b)
    ensures Plain(a) == Plain(b)
    decreases |b|
  {
    if b != [] {
      var front := b[..|b| - 1];
      if IsGrease(b[|b| - 1]) && Greased(a, front) {
        GreasedIsPlain(a, front);
      } else {
        GreasedIsPlain(a[..|a| - 1], front);
      }
    }
  }

  ghost predicate GreasedHello(h: Hello, g: Hello) {
    && h.version == g.version && h.points == g.points && h.alpn == g.alpn && h.hasSNI == g.hasSNI
    && Greased(h.ciphers, g.ciphers) && Greased(h.extensions, g.extensions) && Greased(h.curves, g.curves)
    && Greased(h.sigAlgs, g.sigAlgs) && Greased(h.versions, g.versions)
  }

  /** Inserting GREASE into any list changes neither JA3 nor JA4, whatever the digests. */
  lemma GreaseChangesNothing(h: Hello, g: Hello, md5: string -> string, sha: string -> string)
    requires GreasedHello(h, g)
    ensures Ja3(g, md5) == Ja3(h, md5) && Ja4(g, sha) == Ja4(h, sha)
  {
    GreasedIsPlain(h.ciphers, g.ciphers);
    GreasedIsPlain(h.extensions, g.extensions);
    GreasedIsPlain(h.curves, g.curves);
    GreasedIsPlain(h.sigAlgs, g.sigAlgs);
    GreasedIsPlain(h.versions, g.versions);
    PlainTexts(h, g);
    Ja4Same(h, g, sha);
  }

  /** The texts depend on the plain lists only. */
  lemma PlainTexts(h: Hello, g: Hello)
    requires h.version == g.version && h.points == g.points && Plain(h.curves) == Plain(g.curves)
    requires Plain(h.ciphers) == Plain(g.ciphers) && Plain(h.extensions) == Plain(g.extensions)
    requires Plain(h.sigAlgs) == Plain(g.sigAlgs) && Plain(h.versions) == Plain(g.versions)
    ensures Ja3Text(h) == Ja3Text(g) && CipherText(h) == CipherText(g) && ExtensionText(h) == ExtensionText(g)
    ensures Ja4Version(h) == Ja4Version(g)
  {
  }

  lemma Ja4Same(h: Hello, g: Hello, sha: string -> string)
    requires Ja4Version(h) == Ja4Version(g) && h.hasSNI == g.hasSNI && h.alpn == g.alpn
    requires |Plain(h.ciphers)| == |Plain(g.ciphers)| && |Plain(h.extensions)| == |Plain(g.extensions)|
    requires CipherText(h) == CipherText(g) && ExtensionText(h) == ExtensionText(g)
    ensures Ja4(g, sha) == Ja4(h, sha)
  {
  }

  /** The version JA4 uses is the highest plain supported version. */
  lemma {:induction false} HighestIsMax(s: seq<u16>)
    ensures (forall v :: v in s ==> v <= Highest(s)) && (Highest(s) in s || Highest(s) == 0)
  {
    if s != [] {
      HighestIsMax(s[..|s| - 1]);
      assert s == s[..|s| - 1] + [s[|s| - 1]];
    }
  }
}
