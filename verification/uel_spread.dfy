/** Which streams the chunked removal depends on, told from the bytes of the stream. */
module UelSpread {
  import opened Bytes
  import opened Uel
  import opened UelChunks

  /** s starts with the bytes of u from its k-th on, with whole markers between them; some tells whether there
      was one already, and there must be one. */
  predicate Spread(u: seq<byte>, k: nat, s: seq<byte>, some: bool)
    requires |u| > 0
    decreases |s|
  {
    if k >= |u| then some
    else if s == [] then false
    else if k > 0 && Here(u, 0, s, 0) then Spread(u, k, s[|u|..], true)
    else s[0] == u[k] && Spread(u, k + 1, s[1..], some)
  }

  /** Somewhere in s there is a marker with whole markers inside it. */
  ghost predicate SpreadIn(u: seq<byte>, s: seq<byte>)
    requires |u| > 0
  {
    exists n: nat :: n <= |s| && Spread(u, 0, s[n..], false)
  }

  lemma HereNext(u: seq<byte>, k: nat, s: seq<byte>)
    requires k < |u| && s != []
    ensures Here(u, k, s, 0) <==> s[0] == u[k] && Here(u, k + 1, s[1..], 0)
  {
    if s[0] == u[k] && Here(u, k + 1, s[1..], 0) {
      forall j | k <= j < |u| ensures u[j] == s[j - k] {
        if j > k { HereAt(u, k + 1, s[1..], 0, j); }
      }
    }
    if Here(u, k, s, 0) {
      HereAt(u, k, s, 0, k);
      forall j | k + 1 <= j < |u| ensures u[j] == s[1..][j - k - 1] { HereAt(u, k, s, 0, j); }
    }
  }

  /** With a marker seen, the rest of u is spread over s exactly if the pass leaves it at the front. */
  lemma {:induction false} SpreadAfter(u: seq<byte>, k: nat, s: seq<byte>)
    requires Marker(u) && 0 < k <= |u|
    ensures Spread(u, k, s, true) <==> Here(u, k, StripAll(u, s), 0)
    decreases |s|
  {
    if k < |u| && s != [] {
      if Here(u, 0, s, 0) {
        SpreadAfter(u, k, s[|u|..]);
      } else {
        SpreadAfter(u, k + 1, s[1..]);
        StripOne(u, s);
        HereNext(u, k, StripAll(u, s));
        assert StripAll(u, s)[1..] == StripAll(u, s[1..]);
      }
    }
  }

  /** Without one, exactly if the pass leaves it at the front and it is not there yet. */
  lemma {:induction false} SpreadBefore(u: seq<byte>, k: nat, s: seq<byte>)
    requires Marker(u) && 0 < k <= |u|
    ensures Spread(u, k, s, false) <==> Here(u, k, StripAll(u, s), 0) && !Here(u, k, s, 0)
    decreases |s|
  {
    if k < |u| && s != [] {
      if Here(u, 0, s, 0) {
        SpreadAfter(u, k, s[|u|..]);
        assert s[0] != u[k];
      } else {
        SpreadBefore(u, k + 1, s[1..]);
        StripOne(u, s);
        HereNext(u, k, s);
        HereNext(u, k, StripAll(u, s));
        assert StripAll(u, s)[1..] == StripAll(u, s[1..]);
      }
    }
  }

  lemma SpreadFirst(u: seq<byte>, s: seq<byte>)
    requires Marker(u) && s != []
    ensures Spread(u, 0, s, false) <==> !Here(u, 0, s, 0) && Here(u, 0, StripAll(u, s), 0)
  {
    SpreadBefore(u, 1, s[1..]);
    HereNext(u, 0, s);
    if !Here(u, 0, s, 0) {
      StripOne(u, s);
      HereNext(u, 0, StripAll(u, s));
      assert StripAll(u, s)[1..] == StripAll(u, s[1..]);
    }
  }

  lemma ContainsNext(u: seq<byte>, d: seq<byte>)
    requires |u| > 0 && d != []
    ensures Contains(u, d) <==> Here(u, 0, d, 0) || Contains(u, d[1..])
  {
    if i: int :| Here(u, 0, d, i) && i > 0 {
      HereShift(u, d, 1, i);
    }
    if i: int :| Here(u, 0, d[1..], i) {
      HereShift(u, d, 1, i + 1);
    }
  }

  lemma HereShift(u: seq<byte>, d: seq<byte>, n: nat, i: int)
    requires n <= |d| && i >= n
    ensures Here(u, 0, d, i) <==> Here(u, 0, d[n..], i - n)
  {
    if Here(u, 0, d, i) {
      forall j | 0 <= j < |u| ensures u[j] == d[n..][i - n + j] { HereAt(u, 0, d, i, j); }
    }
    if Here(u, 0, d[n..], i - n) {
      forall j | 0 <= j < |u| ensures u[j] == d[i + j] { HereAt(u, 0, d[n..], i - n, j); }
    }
  }

  lemma SpreadInNext(u: seq<byte>, s: seq<byte>, m: nat)
    requires |u| > 0 && m <= |s| && forall n: nat :: n < m ==> !Spread(u, 0, s[n..], false)
    ensures SpreadIn(u, s) <==> SpreadIn(u, s[m..])
  {
    if n: nat :| n <= |s| && Spread(u, 0, s[n..], false) {
      assert s[m..][n - m..] == s[n..];
    }
    if n: nat :| n <= |s[m..]| && Spread(u, 0, s[m..][n..], false) {
      assert s[m..][n..] == s[n + m..];
    }
  }

  /** No spread marker starts at or inside a whole one. */
  lemma NoneStarts(u: seq<byte>, s: seq<byte>, n: nat)
    requires Marker(u) && Here(u, 0, s, 0) && n < |u|
    ensures !Spread(u, 0, s[n..], false)
  {
    if n == 0 {
      assert s[0..] == s;
      SpreadFirst(u, s);
    } else {
      HereAt(u, 0, s, 0, n);
    }
  }

  lemma SpreadInFirst(u: seq<byte>, s: seq<byte>)
    requires |u| > 0 && s != []
    ensures SpreadIn(u, s) <==> Spread(u, 0, s, false) || SpreadIn(u, s[1..])
  {
    assert s[0..] == s;
    if !Spread(u, 0, s, false) {
      SpreadInNext(u, s, 1);
    }
  }

  /** One pass leaves a marker behind exactly if the stream holds a spread one. */
  lemma {:induction false} LeftIffSpread(u: seq<byte>, s: seq<byte>)
    requires Marker(u)
    ensures Contains(u, StripAll(u, s)) <==> SpreadIn(u, s)
    decreases |s|
  {
    if s == [] {
      assert forall n: nat :: n <= |s| ==> s[n..] == [];
    } else if Here(u, 0, s, 0) {
      LeftIffSpread(u, s[|u|..]);
      forall n: nat | n < |u| ensures !Spread(u, 0, s[n..], false) { NoneStarts(u, s, n); }
      SpreadInNext(u, s, |u|);
    } else {
      LeftIffSpread(u, s[1..]);
      StripOne(u, s);
      SpreadFirst(u, s);
      SpreadInFirst(u, s);
      ContainsNext(u, StripAll(u, s));
      assert StripAll(u, s)[1..] == StripAll(u, s[1..]);
    }
  }

  /** Every chunking agrees with one pass if and only if the stream has no marker with whole markers inside it. */
  lemma ChunkingIrrelevantUnlessSpread(s: seq<byte>)
    ensures ChunkingIrrelevant(UEL, s) <==> !SpreadIn(UEL, s)
  {
    assert Marker(UEL);
    ChunkingIrrelevantIff(s);
    LeftIffSpread(UEL, s);
  }
}
