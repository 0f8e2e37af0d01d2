/** When the chunked removal of a marker agrees with one pass, and what it conserves. */
module UelChunks {
  import opened Bytes
  import opened Uel

  // ---- conservation ----

  /** How often u occurs, at whatever position. */
  function Occurrences(u: seq<byte>, s: seq<byte>): nat {
    if s == [] then 0 else (if Here(u, 0, s, 0) then 1 else 0) + Occurrences(u, s[1..])
  }

  /** No marker starts inside another one. */
  lemma {:induction false} NoneInside(u: seq<byte>, s: seq<byte>, n: nat)
    requires Marker(u) && Here(u, 0, s, 0) && 1 <= n <= |u|
    ensures Occurrences(u, s[n..]) == Occurrences(u, s[|u|..])
    decreases |u| - n
  {
    if n < |u| {
      var t := s[n..];
      assert t[0] == u[n];
      assert t[1..] == s[n + 1..];
      NoneInside(u, s, n + 1);
    }
  }

  lemma Distribute(a: nat, b: nat)
    ensures a * (1 + b) == a + a * b
  {
  }

  /** The pass removes each occurrence and nothing else. */
  lemma {:induction false} PassConserves(u: seq<byte>, s: seq<byte>)
    requires Marker(u)
    ensures |s| == |StripAll(u, s)| + |u| * Occurrences(u, s)
    decreases |s|
  {
    if Here(u, 0, s, 0) {
      PassConserves(u, s[|u|..]);
      NoneInside(u, s, 1);
      Distribute(|u|, Occurrences(u, s[1..]));
    } else if s != [] {
      PassConserves(u, s[1..]);
    }
  }

  /** The number of markers removed from the chunks. */
  ghost function Removals(u: seq<byte>, carry: seq<byte>, chunks: seq<seq<byte>>): nat
    requires |u| > 0
    decreases |chunks|
  {
    if chunks == [] then 0
    else Occurrences(u, carry + chunks[0]) + Removals(u, Strip(u, carry, chunks[0]).carry, chunks[1..])
  }

  /** Bytes in are bytes out, bytes still held and nine for each removal. */
  lemma {:induction false} BytesConserved(carry: seq<byte>, chunks: seq<seq<byte>>)
    ensures |carry| + |Flatten(chunks)| == |Streamed(UEL, carry, chunks)| + 9 * Removals(UEL, carry, chunks)
    decreases |chunks|
  {
    if chunks != [] {
      PassConserves(UEL, carry + chunks[0]);
      BytesConserved(Strip(UEL, carry, chunks[0]).carry, chunks[1..]);
    }
  }

  // ---- chunked against one pass ----

  /** Bytes other than the first of u start no marker and stay. */
  lemma {:induction false} InnerStays(u: seq<byte>, m: seq<byte>, s: seq<byte>)
    requires Marker(u) && forall b :: b in m ==> b != u[0]
    ensures StripAll(u, m + s) == m + StripAll(u, s)
    decreases |m|
  {
    if m == [] {
      assert m + s == s;
    } else {
      var t := m + s;
      assert t[0] == m[0] && m[0] in m && t[1..] == m[1..] + s;
      assert forall b :: b in m[1..] ==> b in m;
      StripOne(u, t);
      InnerStays(u, m[1..], s);
    }
  }

  /** A partial marker followed by something else than its rest stays. */
  lemma PartialStays(u: seq<byte>, k: nat, s: seq<byte>)
    requires Marker(u) && k < |u| && (k == 0 || !Here(u, k, s, 0))
    ensures StripAll(u, u[..k] + s) == u[..k] + StripAll(u, s)
  {
    var t := u[..k] + s;
    if k == 0 {
      assert t == s;
    } else {
      assert t[1..] == u[1..k] + s && t[k..] == s;
      StripOne(u, t);
      InnerStays(u, u[1..k], s);
      assert u[..k] == [u[0]] + u[1..k];
    }
  }

  lemma Parts(x: seq<byte>, y: seq<byte>)
    ensures (x + y)[..|x|] == x && (x + y)[|x|..] == y
  {
  }

  lemma Reassoc(d: seq<byte>, n: nat, r: seq<byte>)
    requires n <= |d|
    ensures d + r == d[..n] + (d[n..] + r)
  {
  }

  lemma Rejoin(u: seq<byte>, h: nat, s: seq<byte>)
    requires h <= |u|
    ensures u[..h] + (u[h..] + s) == u + s
  {
  }

  /** What a chunk lets out and holds, by the length h of the held part. */
  lemma PieceIs(u: seq<byte>, carry: seq<byte>, chunk: seq<byte>)
    requires |u| > 0
    ensures var p, d := Strip(u, carry, chunk), StripAll(u, carry + chunk);
      p.out == d[..|d| - Held(u, d)] && p.carry == u[..Held(u, d)] && p.carry == d[|d| - Held(u, d)..]
  {
    var d := StripAll(u, carry + chunk);
    EndsSlice(u, d, Held(u, d));
  }

  lemma PieceSizes(u: seq<byte>, carry: seq<byte>, chunk: seq<byte>)
    requires |u| > 0
    ensures var p, d := Strip(u, carry, chunk), StripAll(u, carry + chunk);
      |p.out| == |d| - Held(u, d) && p.carry == u[..Held(u, d)]
  {
    PieceIs(u, carry, chunk);
  }

  /** The rest of a marker follows bytes that a removal brought to the end of the chunk. */
  ghost predicate Spliced(u: seq<byte>, a: seq<byte>, rest: seq<byte>)
    requires |u| > 0
  {
    Held(u, a) == 0 && Held(u, StripAll(u, a)) > 0 && Here(u, Held(u, StripAll(u, a)), rest, 0)
  }

  /** What a string holds survives the pass. */
  lemma HeldSurvives(u: seq<byte>, a: seq<byte>)
    requires Marker(u)
    ensures StripAll(u, a) == StripAll(u, a[..|a| - Held(u, a)]) + u[..Held(u, a)]
    ensures Held(u, a) > 0 ==> Held(u, StripAll(u, a)) == Held(u, a)
  {
    var k, d := Held(u, a), StripAll(u, a);
    StripSplit(u, a, []);
    assert a + [] == a;
    PartialStays(u, k, []);
    assert u[..k] + [] == u[..k];
    if k > 0 {
      assert d[|d| - k..] == u[..k];
      EndsSlice(u, d, k);
      HeldUnique(u, d, k);
    }
  }

  /** A string that holds nothing is passed over on its own. */
  lemma SplitAtClean(u: seq<byte>, a: seq<byte>, rest: seq<byte>)
    requires Marker(u) && Held(u, a) == 0
    ensures StripAll(u, a + rest) == StripAll(u, a) + StripAll(u, rest)
  {
    StripSplit(u, a, rest);
    assert a[..|a|] == a && u[..0] + rest == rest;
  }

  /** One chunk leaves the pass over the rest unchanged unless a marker is spliced together. */
  lemma ChunkKeeps(u: seq<byte>, carry: seq<byte>, chunk: seq<byte>, rest: seq<byte>)
    requires Marker(u) && !Spliced(u, carry + chunk, rest)
    ensures var p := Strip(u, carry, chunk);
      StripAll(u, carry + chunk + rest) == p.out + StripAll(u, p.carry + rest)
  {
    var a := carry + chunk;
    var d, k := StripAll(u, a), Held(u, a);
    var h := Held(u, d);
    PieceIs(u, carry, chunk);
    HeldSurvives(u, a);
    if k > 0 {
      StripSplit(u, a, rest);
      Parts(StripAll(u, a[..|a| - k]), u[..k]);
    } else {
      SplitAtClean(u, a, rest);
      PartialStays(u, h, rest);
      Reassoc(d, |d| - h, StripAll(u, rest));
    }
  }

  ghost predicate Contains(u: seq<byte>, s: seq<byte>) {
    exists i :: Here(u, 0, s, i)
  }

  /** Both results after a splice, with more the stream after the spliced marker. */
  lemma SpliceResults(u: seq<byte>, a: seq<byte>, h: nat, more: seq<byte>)
    requires Marker(u) && Held(u, a) == 0 && EndsIn(u, StripAll(u, a), h) && 0 < h < |u|
    ensures var d := StripAll(u, a);
      && StripAll(u, a + (u[h..] + more)) == d[..|d| - h] + (u + StripAll(u, more))
      && StripAll(u, u[..h] + (u[h..] + more)) == StripAll(u, more)
  {
    var d, tail := StripAll(u, a), StripAll(u, more);
    SplitAtClean(u, a, u[h..] + more);
    InnerStays(u, u[h..], more);
    assert d + (u[h..] + tail) == d[..|d| - h] + (u + tail) by {
      Rejoin(u, h, tail);
      EndsSlice(u, d, h);
      Reassoc(d, |d| - h, u[h..] + tail);
    }
    Rejoin(u, h, more);
    MarkerFirst(u, more);
  }

  lemma MarkerFirst(u: seq<byte>, more: seq<byte>)
    requires Marker(u)
    ensures StripAll(u, u + more) == StripAll(u, more)
  {
    Parts(u, more);
    StripHead(u, u + more);
  }

  lemma SpliceSizes(u: seq<byte>, a: seq<byte>, h: nat, more: seq<byte>)
    requires Marker(u) && Held(u, a) == 0 && EndsIn(u, StripAll(u, a), h) && 0 < h < |u|
    ensures Contains(u, StripAll(u, a + (u[h..] + more)))
    ensures |StripAll(u, a + (u[h..] + more))| == |StripAll(u, a)| - h + |StripAll(u, u[..h] + (u[h..] + more))| + |u|
  {
    SpliceResults(u, a, h, more);
    ContainsMiddle(u, StripAll(u, a)[..|StripAll(u, a)| - h], StripAll(u, more));
  }

  lemma ContainsMiddle(u: seq<byte>, x: seq<byte>, y: seq<byte>)
    ensures Contains(u, x + (u + y)) && |x + (u + y)| == |x| + |y| + |u|
  {
    assert Here(u, 0, x + (u + y), |x|);
  }

  /** A splice shows as a marker in the result of one pass, and costs the chunked removal its length. */
  lemma SpliceShows(u: seq<byte>, carry: seq<byte>, chunk: seq<byte>, rest: seq<byte>)
    requires Marker(u) && Spliced(u, carry + chunk, rest)
    ensures Contains(u, StripAll(u, carry + chunk + rest))
    ensures var p := Strip(u, carry, chunk);
      |StripAll(u, carry + chunk + rest)| == |p.out| + |StripAll(u, p.carry + rest)| + |u|
  {
    var d := StripAll(u, carry + chunk);
    var h := Held(u, d);
    var more := rest[|u| - h..];
    assert rest == u[h..] + more;
    SpliceSizes(u, carry + chunk, h, more);
    PieceSizes(u, carry, chunk);
  }

  /** Markers in a suffix are markers of the whole. */
  lemma ContainsSuffix(u: seq<byte>, a: seq<byte>, b: seq<byte>)
    requires Contains(u, b)
    ensures Contains(u, a + b)
  {
    var i :| Here(u, 0, b, i);
    assert Here(u, 0, a + b, |a| + i);
  }

  /** If one pass leaves no marker, every chunking gives that pass. */
  lemma {:induction false} ChunksAgree(u: seq<byte>, carry: seq<byte>, chunks: seq<seq<byte>>)
    requires Marker(u) && carry < u && !Contains(u, StripAll(u, carry + Flatten(chunks)))
    ensures Streamed(u, carry, chunks) == StripAll(u, carry + Flatten(chunks))
    decreases |chunks|
  {
    if chunks == [] {
      PartialStays(u, |carry|, []);
      assert carry + Flatten(chunks) == carry == u[..|carry|] + [];
    } else {
      var p, rest := Strip(u, carry, chunks[0]), Flatten(chunks[1..]);
      assert carry + Flatten(chunks) == carry + chunks[0] + rest;
      if Spliced(u, carry + chunks[0], rest) {
        SpliceShows(u, carry, chunks[0], rest);
      }
      ChunkKeeps(u, carry, chunks[0], rest);
      PieceIs(u, carry, chunks[0]);
      if Contains(u, StripAll(u, p.carry + rest)) {
        ContainsSuffix(u, p.out, StripAll(u, p.carry + rest));
      }
      ChunksAgree(u, p.carry, chunks[1..]);
    }
  }

  // ---- where one pass leaves a marker ----

  /** The first n bytes of s end with a removed marker and leave u[j..k]; the rest of u follows. */
  ghost predicate SpliceAt(u: seq<byte>, s: seq<byte>, j: nat, n: nat, k: nat) {
    && |u| <= n <= |s| && 0 < k < |u| && j <= k
    && Here(u, 0, s, n - |u|) && Here(u, k, s, n) && StripAll(u, s[..n]) == u[j..k]
  }

  lemma TailOfRest(u: seq<byte>, j: nat, b: byte, r: seq<byte>)
    requires j < |u| && Here(u, j, [b] + r, 0)
    ensures b == u[j] && Here(u, j + 1, r, 0)
  {
    forall i | j + 1 <= i < |u| ensures u[i] == r[i - j - 1] { assert u[i] == ([b] + r)[i - j]; }
  }

  lemma SpliceHere(u: seq<byte>, s: seq<byte>, j: nat)
    requires Marker(u) && 0 < j < |u| && Here(u, 0, s, 0) && Here(u, j, s[|u|..], 0)
    ensures SpliceAt(u, s, j, |u|, j)
  {
    assert s[..|u|] == u;
    StripHead(u, u);
    forall i | j <= i < |u| ensures u[i] == s[|u| + i - j] { assert s[|u|..][i - j] == u[i]; }
  }

  lemma SpliceLater(u: seq<byte>, s: seq<byte>, j: nat, n: nat, k: nat)
    requires Marker(u) && Here(u, 0, s, 0) && SpliceAt(u, s[|u|..], j, n, k)
    ensures SpliceAt(u, s, j, n + |u|, k)
  {
    assert s[..n + |u|][|u|..] == s[|u|..][..n];
    StripHead(u, s[..n + |u|]);
    HereLater(u, 0, s, |u|, n - |u|);
    HereLater(u, k, s, |u|, n);
  }

  lemma HereLater(u: seq<byte>, k: nat, s: seq<byte>, d: nat, n: int)
    requires d <= |s| && Here(u, k, s[d..], n)
    ensures Here(u, k, s, n + d)
  {
    forall j | k <= j < |u| ensures u[j] == s[n + d + j - k] { assert u[j] == s[d..][n + j - k]; }
  }

  lemma SpliceBehind(u: seq<byte>, s: seq<byte>, j: nat, n: nat, k: nat)
    requires Marker(u) && s != [] && !Here(u, 0, s, 0) && j < |u| && s[0] == u[j] && SpliceAt(u, s[1..], j + 1, n, k)
    ensures SpliceAt(u, s, j, n + 1, k)
  {
    assert s[..n + 1][1..] == s[1..][..n];
    StripOne(u, s[..n + 1]);
    assert u[j..k] == [u[j]] + u[j + 1..k];
    HereLater(u, 0, s, 1, n - |u|);
    HereLater(u, k, s, 1, n);
  }

  /** Where one pass leaves the rest of a marker, that rest stands in the stream or follows a removal. */
  lemma {:induction false} FindSplice(u: seq<byte>, s: seq<byte>, j: nat) returns (n: nat, k: nat)
    requires Marker(u) && j <= |u| && Here(u, j, StripAll(u, s), 0)
    ensures (j > 0 && Here(u, j, s, 0)) || SpliceAt(u, s, j, n, k)
    decreases |s|, 1
  {
    n, k := 0, 0;
    if j < |u| {
      if Here(u, 0, s, 0) {
        n, k := FindPastMarker(u, s, j);
      } else {
        n, k := FindPastByte(u, s, j);
      }
    }
  }

  lemma {:induction false} FindPastMarker(u: seq<byte>, s: seq<byte>, j: nat) returns (n: nat, k: nat)
    requires Marker(u) && j < |u| && Here(u, 0, s, 0) && Here(u, j, StripAll(u, s), 0)
    ensures SpliceAt(u, s, j, n, k)
    decreases |s|, 0
  {
    n, k := FindSplice(u, s[|u|..], j);
    n, k := PastMarker(u, s, j, n, k);
  }

  lemma PastMarker(u: seq<byte>, s: seq<byte>, j: nat, n0: nat, k0: nat) returns (n: nat, k: nat)
    requires Marker(u) && j < |u| && Here(u, 0, s, 0)
    requires (j > 0 && Here(u, j, s[|u|..], 0)) || SpliceAt(u, s[|u|..], j, n0, k0)
    ensures SpliceAt(u, s, j, n, k)
  {
    if j > 0 && Here(u, j, s[|u|..], 0) {
      n, k := |u|, j;
      SpliceHere(u, s, j);
    } else {
      n, k := n0 + |u|, k0;
      SpliceLater(u, s, j, n0, k0);
    }
  }

  lemma {:induction false} FindPastByte(u: seq<byte>, s: seq<byte>, j: nat) returns (n: nat, k: nat)
    requires Marker(u) && j < |u| && !Here(u, 0, s, 0) && Here(u, j, StripAll(u, s), 0)
    ensures (j > 0 && Here(u, j, s, 0)) || SpliceAt(u, s, j, n, k)
    decreases |s|, 0
  {
    StripOne(u, s);
    TailOfRest(u, j, s[0], StripAll(u, s[1..]));
    n, k := FindSplice(u, s[1..], j + 1);
    n, k := PastByte(u, s, j, n, k);
  }

  lemma PastByte(u: seq<byte>, s: seq<byte>, j: nat, n0: nat, k0: nat) returns (n: nat, k: nat)
    requires Marker(u) && j < |u| && s != [] && !Here(u, 0, s, 0) && s[0] == u[j]
    requires Here(u, j + 1, s[1..], 0) || SpliceAt(u, s[1..], j + 1, n0, k0)
    ensures (j > 0 && Here(u, j, s, 0)) || SpliceAt(u, s, j, n, k)
  {
    n, k := n0 + 1, k0;
    if Here(u, j + 1, s[1..], 0) {
      HereLater(u, j + 1, s, 1, 0);
    } else {
      SpliceBehind(u, s, j, n0, k0);
    }
  }

  /** The first n bytes of s end with a removed marker and leave k bytes of u; the rest of u follows. */
  ghost predicate CutAt(u: seq<byte>, s: seq<byte>, n: nat, k: nat) {
    && |u| <= n <= |s| && 0 < k < |u|
    && Here(u, 0, s, n - |u|) && Here(u, k, s, n) && EndsIn(u, StripAll(u, s[..n]), k)
  }

  lemma SpliceIsCut(u: seq<byte>, s: seq<byte>, n: nat, k: nat)
    requires SpliceAt(u, s, 0, n, k)
    ensures CutAt(u, s, n, k)
  {
  }

  lemma CutLater(u: seq<byte>, s: seq<byte>, n: nat, k: nat)
    requires Marker(u) && Here(u, 0, s, 0) && CutAt(u, s[|u|..], n, k)
    ensures CutAt(u, s, n + |u|, k)
  {
    assert s[..n + |u|][|u|..] == s[|u|..][..n];
    StripHead(u, s[..n + |u|]);
    HereLater(u, 0, s, |u|, n - |u|);
    HereLater(u, k, s, |u|, n);
  }

  lemma EndsInCons(u: seq<byte>, b: byte, d: seq<byte>, k: nat)
    requires EndsIn(u, d, k)
    ensures EndsIn(u, [b] + d, k)
  {
  }

  lemma CutBehind(u: seq<byte>, s: seq<byte>, n: nat, k: nat)
    requires Marker(u) && s != [] && !Here(u, 0, s, 0) && CutAt(u, s[1..], n, k)
    ensures CutAt(u, s, n + 1, k)
  {
    assert s[..n + 1][1..] == s[1..][..n];
    StripOne(u, s[..n + 1]);
    EndsInCons(u, s[0], StripAll(u, s[1..][..n]), k);
    HereLater(u, 0, s, 1, n - |u|);
    HereLater(u, k, s, 1, n);
  }

  lemma LeftBehind(u: seq<byte>, s: seq<byte>, i: nat)
    requires Marker(u) && 0 < i && !Here(u, 0, s, 0) && Here(u, 0, StripAll(u, s), i)
    ensures s != [] && Here(u, 0, StripAll(u, s[1..]), i - 1)
  {
    StripOne(u, s);
    assert StripAll(u, s)[1..] == StripAll(u, s[1..]);
  }

  /** Where one pass leaves a marker, the stream can be cut in the middle of it. */
  lemma {:induction false} FindCut(u: seq<byte>, s: seq<byte>, i: nat) returns (n: nat, k: nat)
    requires Marker(u) && Here(u, 0, StripAll(u, s), i)
    ensures CutAt(u, s, n, k)
    decreases |s|, 1
  {
    if i == 0 {
      n, k := FindSplice(u, s, 0);
      SpliceIsCut(u, s, n, k);
    } else if Here(u, 0, s, 0) {
      n, k := CutPastMarker(u, s, i);
    } else {
      n, k := CutPastByte(u, s, i);
    }
  }

  lemma {:induction false} CutPastMarker(u: seq<byte>, s: seq<byte>, i: nat) returns (n: nat, k: nat)
    requires Marker(u) && Here(u, 0, s, 0) && Here(u, 0, StripAll(u, s), i)
    ensures CutAt(u, s, n, k)
    decreases |s|, 0
  {
    n, k := FindCut(u, s[|u|..], i);
    CutLater(u, s, n, k);
    n := n + |u|;
  }

  lemma {:induction false} CutPastByte(u: seq<byte>, s: seq<byte>, i: nat) returns (n: nat, k: nat)
    requires Marker(u) && 0 < i && !Here(u, 0, s, 0) && Here(u, 0, StripAll(u, s), i)
    ensures CutAt(u, s, n, k)
    decreases |s|, 0
  {
    LeftBehind(u, s, i);
    n, k := FindCut(u, s[1..], i - 1);
    CutBehind(u, s, n, k);
    n := n + 1;
  }

  lemma CutIsSplice(u: seq<byte>, s: seq<byte>, n: nat, k: nat)
    requires Marker(u) && CutAt(u, s, n, k)
    ensures Spliced(u, s[..n], s[n..])
  {
    var h := Held(u, s[..n]);
    HeldUnique(u, StripAll(u, s[..n]), k);
    if h > 0 {
      EndsAt(u, s[..n], h, 0);
      HereAt(u, 0, s, n - |u|, |u| - h);
    }
  }

  /** The chunked removal of s gives the pass over s, whatever the chunks. */
  ghost predicate ChunkingIrrelevant(u: seq<byte>, s: seq<byte>)
    requires |u| > 0
  {
    forall chunks: seq<seq<byte>> :: Flatten(chunks) == s ==> Streamed(u, [], chunks) == StripAll(u, s)
  }

  lemma OneChunk(u: seq<byte>, c: seq<byte>, b: seq<byte>)
    requires |u| > 0
    ensures |Streamed(u, c, [b])| == |StripAll(u, c + b)| && Flatten([b]) == b
  {
    var one := [b];
    assert one[1..] == [];
    PieceIs(u, c, b);
  }

  lemma SplicedPairDiffers(u: seq<byte>, a: seq<byte>, b: seq<byte>)
    requires Marker(u) && Spliced(u, a, b)
    ensures !ChunkingIrrelevant(u, a + b)
  {
    var two, p := [a, b], Strip(u, [], a);
    assert [] + a == a && two[1..] == [b];
    SpliceShows(u, [], a, b);
    OneChunk(u, p.carry, b);
    assert Flatten(two) == a + b && Streamed(u, [], two) == p.out + Streamed(u, p.carry, [b]);
  }

  /** Every chunking agrees with one pass if and only if one pass leaves no marker behind. */
  lemma ChunkingIrrelevantIff(s: seq<byte>)
    ensures ChunkingIrrelevant(UEL, s) <==> !Contains(UEL, StripAll(UEL, s))
  {
    assert Marker(UEL);
    if Contains(UEL, StripAll(UEL, s)) {
      SpliceBreaks(UEL, s);
    } else {
      forall chunks: seq<seq<byte>> | Flatten(chunks) == s ensures Streamed(UEL, [], chunks) == StripAll(UEL, s) {
        assert [] + s == s;
        ChunksAgree(UEL, [], chunks);
      }
    }
  }

  lemma SpliceBreaks(u: seq<byte>, s: seq<byte>)
    requires Marker(u) && Contains(u, StripAll(u, s))
    ensures !ChunkingIrrelevant(u, s)
  {
    var i :| Here(u, 0, StripAll(u, s), i);
    var n, k := FindCut(u, s, i);
    CutIsSplice(u, s, n, k);
    assert s[..n] + s[n..] == s;
    SplicedPairDiffers(u, s[..n], s[n..]);
  }

  /** A sequence inside another: one pass leaves the outer one, some chunking removes it too. */
  lemma NestedMarkerBreaks()
    ensures !ChunkingIrrelevant(UEL, UEL[..1] + (UEL + UEL[1..]))
  {
    NestedMarker(UEL);
    SpliceBreaks(UEL, UEL[..1] + (UEL + UEL[1..]));
  }

  lemma NestedMarker(u: seq<byte>)
    requires Marker(u)
    ensures Contains(u, StripAll(u, u[..1] + (u + u[1..])))
  {
    assert (u + u[1..])[0] == u[0] && u[1] != u[0];
    PartialStays(u, 1, u + u[1..]);
    MarkerFirst(u, u[1..]);
    InnerStays(u, u[1..], []);
    assert u[1..] + [] == u[1..] && u[..1] + u[1..] == u;
    assert Here(u, 0, u, 0);
  }

  // ---- a condition on the stream itself ----

  /** No marker in the stream directly follows a partial one. */
  ghost predicate SpliceFree(u: seq<byte>, s: seq<byte>)
    requires |u| > 0
  {
    forall i :: Here(u, 0, s, i) ==> Held(u, s[..i]) == 0
  }

  lemma SpliceFreeSuffix(u: seq<byte>, s: seq<byte>, n: nat)
    requires Marker(u) && n <= |s| && SpliceFree(u, s)
    ensures SpliceFree(u, s[n..])
  {
    var t := s[n..];
    forall i | Here(u, 0, t, i) ensures Held(u, t[..i]) == 0 {
      HereLater(u, 0, s, n, i);
      var k, a := Held(u, t[..i]), s[..n + i];
      if k > 0 {
        assert t[..i] == a[n..];
        assert EndsIn(u, a, k);
      }
    }
  }

  lemma PrefixHolds(u: seq<byte>, j: nat, s: seq<byte>)
    requires Marker(u) && 0 < j < |u| && Here(u, 0, s, 0)
    ensures !SpliceFree(u, u[..j] + s)
  {
    var t := u[..j] + s;
    assert Here(u, 0, t, j);
    assert t[..j] == u[..j];
    HeldUnique(u, u[..j], j);
  }

  /** Behind the first j bytes of a marker, one pass leaves the rest of it only where it stands. */
  lemma {:induction false} RestStands(u: seq<byte>, s: seq<byte>, j: nat)
    requires Marker(u) && j <= |u| && SpliceFree(u, u[..j] + s) && Here(u, j, StripAll(u, s), 0)
    ensures j > 0 && Here(u, j, s, 0)
    decreases |s|
  {
    if j < |u| && Here(u, 0, s, 0) {
      if j > 0 {
        PrefixHolds(u, j, s);
      } else {
        assert u[..0] + s == s && u[..0] + s[|u|..] == s[|u|..];
        SpliceFreeSuffix(u, s, |u|);
        RestStands(u, s[|u|..], 0);
      }
    } else if j < |u| {
      StripOne(u, s);
      TailOfRest(u, j, s[0], StripAll(u, s[1..]));
      assert u[..j] + s == u[..j + 1] + s[1..];
      RestStands(u, s[1..], j + 1);
      HereLater(u, j + 1, s, 1, 0);
    }
  }

  lemma {:induction false} NoneLeft(u: seq<byte>, s: seq<byte>, i: nat)
    requires Marker(u) && SpliceFree(u, s)
    ensures !Here(u, 0, StripAll(u, s), i)
    decreases |s|
  {
    if Here(u, 0, s, 0) {
      SpliceFreeSuffix(u, s, |u|);
      NoneLeft(u, s[|u|..], i);
    } else if i > 0 && s != [] {
      StripOne(u, s);
      SpliceFreeSuffix(u, s, 1);
      NoneLeft(u, s[1..], i - 1);
      assert StripAll(u, s)[1..] == StripAll(u, s[1..]);
    } else if Here(u, 0, StripAll(u, s), 0) {
      assert u[..0] + s == s;
      RestStands(u, s, 0);
    }
  }

  /** A stream in which no marker directly follows a partial one is stripped alike under every chunking. */
  lemma SpliceFreeIrrelevant(s: seq<byte>)
    requires SpliceFree(UEL, s)
    ensures ChunkingIrrelevant(UEL, s)
  {
    assert Marker(UEL);
    forall i | 0 <= i ensures !Here(UEL, 0, StripAll(UEL, s), i) {
      NoneLeft(UEL, s, i);
    }
    ChunkingIrrelevantIff(s);
  }
}
