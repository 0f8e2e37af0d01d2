/** The order list of the bounded trackers: a sequence of distinct keys, oldest first. */
module Fifo {

  datatype Option<+T> = None | Some(value: T)

  /** Clock readings. 0 is Go's zero time, which no running clock reports. */
  type Time = nat

  ghost predicate NoDup<K>(s: seq<K>) {
    forall i, j :: 0 <= i < j < |s| ==> s[i] != s[j]
  }

  /** The keys of the map and of the order list are the same. */
  ghost predicate Indexes<K(!new), V>(s: seq<K>, m: map<K, V>) {
    && NoDup(s)
    && (forall i :: 0 <= i < |s| ==> s[i] in m)
    && (forall k {:trigger k in s} :: k in m ==> k in s)
  }

  function IndexOf<K(==)>(s: seq<K>, k: K): (i: nat)
    requires k in s
    ensures i < |s| && s[i] == k
    ensures forall j :: 0 <= j < i ==> s[j] != k
  {
    if s[0] == k then 0 else 1 + IndexOf(s[1..], k)
  }

  /** Unlinks k from the list. */
  function Remove<K(==, !new)>(s: seq<K>, k: K): (r: seq<K>)
    requires k in s
    ensures NoDup(s) ==> NoDup(r) && forall x :: x in r <==> x in s && x != k
  {
    var i := IndexOf(s, k);
    assert s == s[..i] + [s[i]] + s[i + 1..];
    s[..i] + s[i + 1..]
  }

  /** The list keeps as many keys as the map. */
  lemma {:induction false} IndexedSize<K(!new), V>(s: seq<K>, m: map<K, V>)
    requires Indexes(s, m)
    ensures |s| == |m|
  {
    if s != [] {
      var k := s[0];
      var rest := m - {k};
      assert m.Keys == rest.Keys + {k};
      assert forall x :: x in s[1..] ==> x in s;
      forall x | x in rest ensures x in s[1..] { assert x in s; }
      IndexedSize(s[1..], rest);
    } else {
      assert forall x :: x in m ==> x in s;
      assert m.Keys == {};
    }
  }

  // ---------- sizes ----------

  lemma SizeWith<K, V>(m: map<K, V>, k: K, v: V)
    ensures |m[k := v]| == if k in m then |m| else |m| + 1
  {
    if k in m {
      assert m[k := v].Keys == m.Keys;
    } else {
      assert m[k := v].Keys == m.Keys + {k};
    }
  }

  lemma SizeWithout<K, V>(m: map<K, V>, k: K)
    requires k in m
    ensures |m - {k}| == |m| - 1
  {
    assert (m - {k}).Keys + {k} == m.Keys;
  }

  lemma {:induction false} Smaller<T>(a: set<T>, b: set<T>)
    requires a <= b
    ensures |a| <= |b| && (a != b ==> |a| < |b|)
  {
    if x :| x in a {
      Smaller(a - {x}, b - {x});
    } else if y :| y in b {
      assert |b - {y}| < |b|;
    }
  }
}
