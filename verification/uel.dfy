/** Removal of the Universal Exit Language sequence (UEL) from a stream read in chunks. */
module Uel {
  import opened Bytes

  // ESC %-12345X
  const UEL: seq<byte> := [0x1b, 0x25, 0x2d, 0x31, 0x32, 0x33, 0x34, 0x35, 0x58]

  /** What the removal uses of the sequence: its first byte occurs nowhere else in it. */
  ghost predicate Marker(u: seq<byte>) {
    |u| > 1 && forall i :: 0 < i < |u| ==> u[i] != u[0]
  }

  /** The bytes of u from its k-th on stand in s at n. */
  predicate Here(u: seq<byte>, k: nat, s: seq<byte>, n: int) {
    k <= |u| && 0 <= n && n + |u| - k <= |s| && forall j :: k <= j < |u| ==> u[j] == s[n + j - k]
  }

  /** Removes every u in one pass from the left. */
  function StripAll(u: seq<byte>, s: seq<byte>): (r: seq<byte>)
    ensures |r| <= |s|
    decreases |s|
  {
    if s == [] || u == [] then s
    else if Here(u, 0, s, 0) then StripAll(u, s[|u|..])
    else [s[0]] + StripAll(u, s[1..])
  }

  /** s ends in the first n bytes of u. */
  predicate EndsIn(u: seq<byte>, s: seq<byte>, n: nat) {
    n <= |u| && n <= |s| && forall i :: 0 <= i < n ==> u[i] == s[|s| - n + i]
  }

  /** The length of the proper prefix of u that s ends in, 0 without one. */
  ghost function Held(u: seq<byte>, s: seq<byte>): (k: nat)
    requires |u| > 0
    ensures k < |u| && EndsIn(u, s, k)
    ensures k == 0 ==> forall j :: 0 < j < |u| ==> !EndsIn(u, s, j)
  {
    if n :| 0 < n < |u| && EndsIn(u, s, n) then n else 0
  }

  /** What one chunk lets out and what it holds back. */
  datatype Piece = Piece(out: seq<byte>, carry: seq<byte>)

  ghost function Strip(u: seq<byte>, carry: seq<byte>, chunk: seq<byte>): Piece
    requires |u| > 0
  {
    var d := StripAll(u, carry + chunk);
    Piece(d[..|d| - Held(u, d)], d[|d| - Held(u, d)..])
  }

  /** Everything let out of the chunks, and at the end what is still held. */
  ghost function Streamed(u: seq<byte>, carry: seq<byte>, chunks: seq<seq<byte>>): seq<byte>
    requires |u| > 0
    decreases |chunks|
  {
    if chunks == [] then carry
    else
      var p := Strip(u, carry, chunks[0]);
      p.out + Streamed(u, p.carry, chunks[1..])
  }

  lemma EndsSlice(u: seq<byte>, s: seq<byte>, n: nat)
    requires n <= |u| && n <= |s|
    ensures EndsIn(u, s, n) <==> s[|s| - n..] == u[..n]
  {
    if EndsIn(u, s, n) {
      assert s[|s| - n..] == u[..n];
    } else if s[|s| - n..] == u[..n] {
      forall i | 0 <= i < n ensures u[i] == s[|s| - n + i] {
        assert s[|s| - n..][i] == u[..n][i];
      }
    }
  }

  lemma EndsAt(u: seq<byte>, s: seq<byte>, n: nat, i: nat)
    requires EndsIn(u, s, n) && i < n
    ensures s[|s| - n + i] == u[i]
  {
  }

  lemma HereAt(u: seq<byte>, k: nat, s: seq<byte>, n: int, j: nat)
    requires Here(u, k, s, n) && k <= j < |u|
    ensures u[j] == s[n + j - k]
  {
  }

  /** A string ends in at most one partial marker. */
  lemma HeldUnique(u: seq<byte>, s: seq<byte>, n: nat)
    requires Marker(u) && 0 < n < |u| && EndsIn(u, s, n)
    ensures Held(u, s) == n
  {
    var k := Held(u, s);
    EndsAt(u, s, n, 0);
    if k > n {
      EndsAt(u, s, k, k - n);
    } else if 0 < k < n {
      EndsAt(u, s, k, 0);
      EndsAt(u, s, n, n - k);
    }
  }

  class UelStripper {
    var carry: seq<byte>

    constructor ()
      ensures carry == []
    {
      carry := [];
    }

    method StripChunk(chunk: seq<byte>) returns (out: seq<byte>)
      modifies this
      ensures Piece(out, carry) == Strip(UEL, old(carry), chunk)
      ensures |carry| <= 8 && carry <= UEL
    {
      var data := StripAll(UEL, carry + chunk);
      carry := [];
      var n := if |data| < |UEL| - 1 then |data| else |UEL| - 1;
      while n > 0
        invariant Held(UEL, data) <= n < |UEL| && carry == []
      {
        if EndsIn(UEL, data, n) {
          HeldUnique(UEL, data, n);
          EndsSlice(UEL, data, n);
          carry := data[|data| - n..];
          return data[..|data| - n];
        }
        n := n - 1;
      }
      return data;
    }

    method Flush() returns (out: seq<byte>)
      modifies this
      ensures out == old(carry) && carry == []
    {
      out := carry;
      carry := [];
    }

    /** Reads the chunks one after another, then flushes. */
    method StripStream(chunks: seq<seq<byte>>) returns (out: seq<byte>)
      modifies this
      ensures out == Streamed(UEL, old(carry), chunks) && carry == []
    {
      out := [];
      var i := 0;
      while i < |chunks|
        invariant 0 <= i <= |chunks| && out + Streamed(UEL, carry, chunks[i..]) == Streamed(UEL, old(carry), chunks)
      {
        ghost var before := out;
        assert chunks[i..][1..] == chunks[i + 1..];
        var piece := StripChunk(chunks[i]);
        out := out + piece;
        assert out + Streamed(UEL, carry, chunks[i + 1..]) == before + (piece + Streamed(UEL, carry, chunks[i + 1..]));
        i := i + 1;
      }
      var rest := Flush();
      out := out + rest;
    }
  }

  // ---- one pass over a concatenation ----

  lemma StripHead(u: seq<byte>, s: seq<byte>)
    requires Marker(u) && Here(u, 0, s, 0)
    ensures StripAll(u, s) == StripAll(u, s[|u|..])
  {
  }

  /** A first byte that starts no marker stays. */
  lemma StripOne(u: seq<byte>, s: seq<byte>)
    requires Marker(u) && s != [] && !Here(u, 0, s, 0)
    ensures StripAll(u, s) == [s[0]] + StripAll(u, s[1..])
  {
  }

  /** Dropping a prefix that does not reach into what s holds keeps it. */
  lemma HeldOfSuffix(u: seq<byte>, s: seq<byte>, n: nat)
    requires Marker(u) && n <= |s| - Held(u, s)
    ensures Held(u, s[n..]) == Held(u, s)
  {
    var k, j, t := Held(u, s), Held(u, s[n..]), s[n..];
    assert EndsIn(u, t, k) && EndsIn(u, s, j);
    if j > 0 {
      HeldUnique(u, s, j);
    } else if k > 0 {
      HeldUnique(u, t, k);
    }
  }

  lemma ShortHeld(u: seq<byte>, s: seq<byte>, t: seq<byte>)
    requires Marker(u) && Here(u, 0, s + t, 0) && 0 < |s| < |u|
    ensures Held(u, s) == |s|
  {
    forall i | 0 <= i < |s| ensures u[i] == s[i] { assert (s + t)[i] == s[i]; }
    HeldUnique(u, s, |s|);
  }

  /** A marker at the front of s + t lies within s, before what s holds. */
  lemma FrontFits(u: seq<byte>, s: seq<byte>, t: seq<byte>)
    requires Marker(u) && Here(u, 0, s + t, 0) && |s| > Held(u, s)
    ensures |s| - Held(u, s) >= |u| && Here(u, 0, s, 0)
  {
    var k := Held(u, s);
    if |s| < |u| {
      ShortHeld(u, s, t);
    } else if |s| - k < |u| {
      EndsAt(u, s, k, 0);
      HereAt(u, 0, s + t, 0, |s| - k);
    }
  }

  /** The pass over s + t is the pass over s up to what it holds, then the pass from there. */
  ghost predicate Splits(u: seq<byte>, s: seq<byte>, t: seq<byte>)
    requires |u| > 0
  {
    StripAll(u, s + t) == StripAll(u, s[..|s| - Held(u, s)]) + StripAll(u, u[..Held(u, s)] + t)
  }

  lemma Slices(s: seq<byte>, t: seq<byte>, n: nat, k: nat)
    requires n + k <= |s|
    ensures (s + t)[n..] == s[n..] + t
    ensures s[..|s| - k][n..] == s[n..][..|s| - n - k]
  {
  }

  lemma FrontIsPrefix(u: seq<byte>, s: seq<byte>, t: seq<byte>, n: nat)
    requires n <= |s| && !Here(u, 0, s + t, 0)
    ensures !Here(u, 0, s[..n], 0)
  {
    assert s[..n] == (s + t)[..n];
  }

  lemma Cons(b: byte, y: seq<byte>, z: seq<byte>)
    ensures [b] + (y + z) == [b] + y + z
  {
  }

  lemma SplitsAfterRemoval(u: seq<byte>, s: seq<byte>, t: seq<byte>)
    requires Marker(u) && Here(u, 0, s + t, 0) && |s| > Held(u, s) && |u| <= |s| && Splits(u, s[|u|..], t)
    ensures Splits(u, s, t)
  {
    FrontFits(u, s, t);
    HeldOfSuffix(u, s, |u|);
    Slices(s, t, |u|, Held(u, s));
    StripHead(u, s + t);
    StripHead(u, s[..|s| - Held(u, s)]);
  }

  lemma SplitsAfterByte(u: seq<byte>, s: seq<byte>, t: seq<byte>)
    requires Marker(u) && !Here(u, 0, s + t, 0) && |s| > Held(u, s) && Splits(u, s[1..], t)
    ensures Splits(u, s, t)
  {
    HeldOfSuffix(u, s, 1);
    Slices(s, t, 1, Held(u, s));
    StripOne(u, s + t);
    var front := s[..|s| - Held(u, s)];
    FrontIsPrefix(u, s, t, |front|);
    StripOne(u, front);
    Cons(s[0], StripAll(u, front[1..]), StripAll(u, u[..Held(u, s)] + t));
  }

  /** Where a partial marker ends s, the pass over s + t reaches its first byte. */
  lemma {:induction false} StripSplit(u: seq<byte>, s: seq<byte>, t: seq<byte>)
    requires Marker(u)
    ensures Splits(u, s, t)
    decreases |s|
  {
    var k := Held(u, s);
    if |s| == k {
      assert s + t == u[..k] + t && s[..|s| - k] == [];
    } else if Here(u, 0, s + t, 0) {
      FrontFits(u, s, t);
      StripSplit(u, s[|u|..], t);
      SplitsAfterRemoval(u, s, t);
    } else {
      StripSplit(u, s[1..], t);
      SplitsAfterByte(u, s, t);
    }
  }
}
