/** Joined lists of texts, and when they can be told apart. */
module Texts {
  import opened Sort16

  const DIGITS := "0123456789abcdef"

  function Join(parts: seq<string>, sep: char): string {
    if parts == [] then ""
    else if |parts| == 1 then parts[0]
    else parts[0] + [sep] + Join(parts[1..], sep)
  }

  function Dec(n: nat): (s: string)
    ensures s != ""
  {
    (if n < 10 then "" else Dec(n / 10)) + [DIGITS[n % 10]]
  }

  function Hex4(v: u16): (s: string)
    ensures |s| == 4
  {
    [DIGITS[v / 0x1000], DIGITS[v / 0x100 % 0x10], DIGITS[v / 0x10 % 0x10], DIGITS[v % 0x10]]
  }

  // ---- texts around a separator ----

  lemma FirstCut(a: string, x: string, sep: char)
    requires sep !in a
    ensures var s := a + [sep] + x; s[|a|] == sep && forall i :: 0 <= i < |a| ==> s[i] != sep
  {
    var s := a + [sep] + x;
    forall i | 0 <= i < |a| ensures s[i] != sep { assert s[i] == a[i] && a[i] in a; }
  }

  /** The part before the first separator is determined. */
  lemma CutOnce(a: string, x: string, b: string, y: string, sep: char)
    requires sep !in a && sep !in b && a + [sep] + x == b + [sep] + y
    ensures a == b && x == y
  {
    var s, t := a + [sep] + x, b + [sep] + y;
    FirstCut(a, x, sep);
    FirstCut(b, y, sep);
    assert |a| == |b|;
    assert s[..|a|] == a && t[..|b|] == b;
    assert s[|a| + 1..] == x && t[|b| + 1..] == y;
  }

  lemma NeverCut(a: string, b: string, y: string, sep: char)
    requires sep !in a
    ensures a != b + [sep] + y
  {
    var s := b + [sep] + y;
    assert s[|b|] == sep && s[|b|] in s;
  }

  ghost predicate Free(parts: seq<string>, sep: char) {
    forall p :: p in parts ==> sep !in p
  }

  lemma FreeTail(parts: seq<string>, sep: char)
    requires Free(parts, sep) && parts != []
    ensures sep !in parts[0] && Free(parts[1..], sep)
  {
    assert parts[0] in parts;
    forall p | p in parts[1..] ensures sep !in p { assert p in parts; }
  }

  /** A joined list of texts without the separator, none of them empty, determines the list. */
  lemma {:induction false} JoinInjective(a: seq<string>, b: seq<string>, sep: char)
    requires Free(a, sep) && Free(b, sep) && "" !in a && "" !in b && Join(a, sep) == Join(b, sep)
    ensures a == b
    decreases |a|
  {
    if a != [] && b != [] {
      FreeTail(a, sep);
      FreeTail(b, sep);
      JoinHeads(a, b, sep);
      if |a| > 1 {
        JoinInjective(a[1..], b[1..], sep);
      }
      assert a == [a[0]] + a[1..] && b == [b[0]] + b[1..];
    } else {
      JoinEmpty(a, sep);
      JoinEmpty(b, sep);
    }
  }

  lemma JoinEmpty(a: seq<string>, sep: char)
    requires "" !in a
    ensures Join(a, sep) == "" <==> a == []
  {
    if a != [] {
      assert a[0] in a;
    }
  }

  lemma JoinHeads(a: seq<string>, b: seq<string>, sep: char)
    requires a != [] && b != [] && sep !in a[0] && sep !in b[0] && Join(a, sep) == Join(b, sep)
    ensures a[0] == b[0] && (|a| == 1 <==> |b| == 1) && (|a| > 1 ==> Join(a[1..], sep) == Join(b[1..], sep))
  {
    if |a| == 1 && |b| > 1 {
      NeverCut(a[0], b[0], Join(b[1..], sep), sep);
    } else if |a| > 1 && |b| == 1 {
      NeverCut(b[0], a[0], Join(a[1..], sep), sep);
    } else if |a| > 1 {
      CutOnce(a[0], Join(a[1..], sep), b[0], Join(b[1..], sep), sep);
    }
  }

  /** A joined list of a known number of texts, empty ones included, determines the list. */
  lemma {:induction false} JoinOfSize(a: seq<string>, b: seq<string>, sep: char)
    requires |a| == |b| && Free(a, sep) && Free(b, sep) && Join(a, sep) == Join(b, sep)
    ensures a == b
    decreases |a|
  {
    if a != [] {
      FreeTail(a, sep);
      FreeTail(b, sep);
      JoinHeads(a, b, sep);
      if |a| > 1 {
        JoinOfSize(a[1..], b[1..], sep);
      }
      assert a == [a[0]] + a[1..] && b == [b[0]] + b[1..];
    }
  }

  /** Joining keeps out every character that neither separates nor occurs in a part. */
  lemma {:induction false} JoinFree(parts: seq<string>, sep: char, c: char)
    requires Free(parts, c) && c != sep
    ensures c !in Join(parts, sep)
  {
    if parts != [] {
      FreeTail(parts, c);
      JoinFree(parts[1..], sep, c);
    }
  }

  // ---- numbers ----

  lemma DigitsDiffer(i: nat, j: nat)
    requires i < 16 && j < 16 && DIGITS[i] == DIGITS[j]
    ensures i == j
  {
  }

  lemma {:induction false} DecInjective(m: nat, n: nat)
    requires Dec(m) == Dec(n)
    ensures m == n
  {
    var s, t := Dec(m), Dec(n);
    assert s[|s| - 1] == DIGITS[m % 10] && t[|t| - 1] == DIGITS[n % 10];
    DigitsDiffer(m % 10, n % 10);
    assert s[..|s| - 1] == (if m < 10 then "" else Dec(m / 10)) && t[..|t| - 1] == (if n < 10 then "" else Dec(n / 10));
    if m >= 10 && n >= 10 {
      DecInjective(m / 10, n / 10);
    }
  }

  lemma {:induction false} DecPlain(n: nat, c: char)
    requires c !in DIGITS
    ensures c !in Dec(n)
  {
    assert DIGITS[n % 10] in DIGITS;
    if n >= 10 {
      DecPlain(n / 10, c);
    }
  }

  lemma HexDigits(v: u16)
    ensures v == v / 0x1000 * 0x1000 + v / 0x100 % 0x10 * 0x100 + v / 0x10 % 0x10 * 0x10 + v % 0x10
  {
    var a, b, c := v / 0x10, v / 0x100, v / 0x1000;
    assert b == a / 0x10 && c == b / 0x10;
  }

  lemma SameHexDigits(v: u16, w: u16)
    requires v / 0x1000 == w / 0x1000 && v / 0x100 % 0x10 == w / 0x100 % 0x10
    requires v / 0x10 % 0x10 == w / 0x10 % 0x10 && v % 0x10 == w % 0x10
    ensures v == w
  {
    HexDigits(v);
    HexDigits(w);
  }

  lemma Hex4Injective(v: u16, w: u16)
    requires Hex4(v) == Hex4(w)
    ensures v == w
  {
    var s, t := Hex4(v), Hex4(w);
    assert s[0] == t[0] && s[1] == t[1] && s[2] == t[2] && s[3] == t[3];
    DigitsDiffer(v / 0x1000, w / 0x1000);
    DigitsDiffer(v / 0x100 % 0x10, w / 0x100 % 0x10);
    DigitsDiffer(v / 0x10 % 0x10, w / 0x10 % 0x10);
    DigitsDiffer(v % 0x10, w % 0x10);
    SameHexDigits(v, w);
  }

  lemma Hex4Plain(v: u16, c: char)
    requires c !in DIGITS
    ensures c !in Hex4(v)
  {
    assert DIGITS[v / 0x1000] in DIGITS && DIGITS[v / 0x100 % 0x10] in DIGITS;
    assert DIGITS[v / 0x10 % 0x10] in DIGITS && DIGITS[v % 0x10] in DIGITS;
  }
}
