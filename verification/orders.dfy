/** How the order list of a tracker moves: keys are dropped, and one is put at the back. */
module Orders {
  import opened Fifo

  ghost predicate Precedes<K>(list: seq<K>, a: K, b: K) {
    exists i, j :: 0 <= i < j < |list| && list[i] == a && list[j] == b
  }

  /** What is in t is in s, in the same order. */
  ghost predicate Suborder<K(!new)>(t: seq<K>, s: seq<K>) {
    forall a, b :: Precedes(t, a, b) ==> Precedes(s, a, b)
  }

  /** The list after an operation that puts this key at the back, if any. */
  ghost predicate Shifts<K>(put: Option<K>, was: seq<K>, list: seq<K>, a: K, b: K) {
    Precedes(list, a, b) ==> put != Some(a) && (put == Some(b) || Precedes(was, a, b))
  }

  lemma RemoveSuborder<K(!new)>(s: seq<K>, k: K)
    requires NoDup(s) && k in s
    ensures Suborder(Remove(s, k), s) && k !in Remove(s, k)
  {
    var t, x := Remove(s, k), IndexOf(s, k);
    forall a, b | Precedes(t, a, b) ensures Precedes(s, a, b) {
      var i, j :| 0 <= i < j < |t| && t[i] == a && t[j] == b;
      assert t[i] == s[if i < x then i else i + 1] && t[j] == s[if j < x then j else j + 1];
    }
  }

  lemma AppendShifts<K(!new)>(was: seq<K>, t: seq<K>, k: K, a: K, b: K)
    requires Suborder(t, was) && k !in t
    ensures Shifts(Some(k), was, t + [k], a, b)
  {
    var list := t + [k];
    if Precedes(list, a, b) {
      var i, j :| 0 <= i < j < |list| && list[i] == a && list[j] == b;
      if j < |t| {
        assert t[i] == a && t[j] == b;
        assert Precedes(t, a, b);
      }
    }
  }
}
