/** The in-place insertion sort of the JA4 lists. */
module Sort16 {

  type u16 = x: int | 0 <= x < 0x1_0000

  ghost predicate Sorted(s: seq<u16>) {
    forall i, j :: 0 <= i < j < |s| ==> s[i] <= s[j]
  }

  /** x put behind the last element that is not greater, looking from the end. */
  ghost function Insert(s: seq<u16>, x: u16): (r: seq<u16>)
    ensures |r| == |s| + 1
  {
    if s == [] || s[|s| - 1] <= x then s + [x] else Insert(s[..|s| - 1], x) + [s[|s| - 1]]
  }

  ghost function InOrder(s: seq<u16>): (r: seq<u16>)
    ensures |r| == |s|
  {
    if s == [] then [] else Insert(InOrder(s[..|s| - 1]), s[|s| - 1])
  }

  lemma SortedAppend(s: seq<u16>, x: u16)
    requires Sorted(s) && (s == [] || s[|s| - 1] <= x)
    ensures Sorted(s + [x])
  {
  }

  lemma SplitLast(s: seq<u16>)
    requires s != []
    ensures s == s[..|s| - 1] + [s[|s| - 1]] && multiset(s) == multiset(s[..|s| - 1]) + multiset{s[|s| - 1]}
  {
    assert s == s[..|s| - 1] + [s[|s| - 1]];
  }

  lemma {:induction false} InsertElements(s: seq<u16>, x: u16)
    ensures multiset(Insert(s, x)) == multiset(s) + multiset{x}
  {
    if s != [] && s[|s| - 1] > x {
      InsertElements(s[..|s| - 1], x);
      SplitLast(s);
    }
  }

  lemma {:induction false} InsertSorted(s: seq<u16>, x: u16)
    requires Sorted(s)
    ensures Sorted(Insert(s, x)) && (s == [] || Insert(s, x)[|s|] == if s[|s| - 1] <= x then x else s[|s| - 1])
  {
    if s == [] || s[|s| - 1] <= x {
      SortedAppend(s, x);
    } else {
      var front := s[..|s| - 1];
      InsertSorted(front, x);
      SortedAppend(Insert(front, x), s[|s| - 1]);
    }
  }

  /** The result is sorted and has the same elements. */
  lemma {:induction false} InOrderSorts(s: seq<u16>)
    ensures Sorted(InOrder(s)) && multiset(InOrder(s)) == multiset(s)
  {
    if s != [] {
      InOrderSorts(s[..|s| - 1]);
      InsertSorted(InOrder(s[..|s| - 1]), s[|s| - 1]);
      InsertElements(InOrder(s[..|s| - 1]), s[|s| - 1]);
      SplitLast(s);
    }
  }

  lemma LastBounds(a: seq<u16>, b: seq<u16>)
    requires Sorted(b) && a != [] && multiset(a) == multiset(b)
    ensures b != [] && a[|a| - 1] <= b[|b| - 1]
  {
    var x := a[|a| - 1];
    assert x in multiset(a);
    assert x in b;
    var i :| 0 <= i < |b| && b[i] == x;
    assert i < |b| - 1 ==> b[i] <= b[|b| - 1];
  }

  /** Sorted sequences of one multiset are equal. */
  lemma {:induction false} SortedUnique(a: seq<u16>, b: seq<u16>)
    requires Sorted(a) && Sorted(b) && multiset(a) == multiset(b)
    ensures a == b
    decreases |a|
  {
    if a == [] {
      assert |multiset(b)| == 0;
    } else {
      LastBounds(a, b);
      LastBounds(b, a);
      SplitLast(a);
      SplitLast(b);
      SameFront(multiset(a[..|a| - 1]), multiset(b[..|b| - 1]), a[|a| - 1]);
      SortedUnique(a[..|a| - 1], b[..|b| - 1]);
    }
  }

  lemma SameFront(m: multiset<u16>, n: multiset<u16>, x: u16)
    requires m + multiset{x} == n + multiset{x}
    ensures m == n
  {
    assert m == (m + multiset{x}) - multiset{x};
    assert n == (n + multiset{x}) - multiset{x};
  }

  /** Sorting forgets the order and nothing else. */
  lemma InOrderIff(a: seq<u16>, b: seq<u16>)
    ensures InOrder(a) == InOrder(b) <==> multiset(a) == multiset(b)
  {
    InOrderSorts(a);
    InOrderSorts(b);
    if multiset(a) == multiset(b) {
      SortedUnique(InOrder(a), InOrder(b));
    }
  }

  /** Where x has sunk to position j of the sorted prefix s. */
  ghost function Sunk(s: seq<u16>, x: u16, j: nat): seq<u16>
    requires j <= |s|
  {
    s[..j] + [x] + s[j..]
  }

  lemma SunkStep(s: seq<u16>, x: u16, j: nat)
    requires 0 < j <= |s| && s[j - 1] > x
    ensures Insert(s[..j], x) + s[j..] == Insert(s[..j - 1], x) + s[j - 1..]
  {
    assert s[..j][..j - 1] == s[..j - 1];
    assert s[j - 1..] == [s[j - 1]] + s[j..];
  }

  method SortU16(v: array<u16>)
    modifies v
    ensures v[..] == InOrder(old(v[..]))
  {
    ghost var was := v[..];
    var i := 1;
    if v.Length == 0 {
      return;
    }
    assert was[..1][..0] == [];
    while i < v.Length
      invariant 1 <= i <= v.Length && v[..i] == InOrder(was[..i]) && v[i..] == was[i..]
    {
      ghost var s, x := v[..i], v[i];
      SinkLast(v, i);
      assert was[..i + 1][..i] == was[..i] && was[i] == x;
      assert v[..i + 1] == Insert(s, x);
      i := i + 1;
    }
    assert was[..i] == was;
  }

  /** The inner loop: swaps the element at i down to its place. */
  method SinkLast(v: array<u16>, i: nat)
    requires i < v.Length
    modifies v
    ensures v[..i + 1] == Insert(old(v[..i]), old(v[i])) && v[i + 1..] == old(v[i + 1..])
  {
    ghost var s, x := v[..i], v[i];
    var j := i;
    assert s[..i] == s && s[i..] == [] && v[..i + 1] == s + [x];
    while j > 0 && v[j - 1] > v[j]
      invariant 0 <= j <= i && v[..i + 1] == Sunk(s, x, j) && v[i + 1..] == old(v[i + 1..])
      invariant Insert(s, x) == Insert(s[..j], x) + s[j..]
    {
      assert v[j - 1] == v[..i + 1][j - 1] == s[j - 1] && v[j] == v[..i + 1][j] == x;
      SunkStep(s, x, j);
      v[j - 1], v[j] := v[j], v[j - 1];
      j := j - 1;
      assert v[..i + 1] == Sunk(s, x, j);
    }
    assert v[..i + 1][j] == x && (j > 0 ==> v[..i + 1][j - 1] == s[j - 1]);
    assert Insert(s[..j], x) == s[..j] + [x];
  }
}
