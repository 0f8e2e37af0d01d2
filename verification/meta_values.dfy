/** What cleaning a text does, and which value each key of the bounded metadata has. */
module MetaValues {
  import opened Meta
  import opened MetaLaws

  // ---- cleaning ----

  /** A broken byte becomes a question mark, a control or format character or a line separator a space. */
  predicate Replaces(r: Rules, c: Rune, d: Rune) {
    match c
    case Broken(_) => d == Rune('?' as int)
    case Rune(code) => if r.control(code) || code == 0x2028 || code == 0x2029 then d == Rune(' ' as int) else d == c
  }

  ghost predicate AllReplaced(r: Rules, s: Text, t: Text) {
    |t| <= |s| && forall i :: 0 <= i < |t| ==> Replaces(r, s[i], t[i])
  }

  /** t is the longest front of the replaced characters of s that takes at most max bytes. */
  ghost predicate IsCleaned(r: Rules, s: Text, t: Text, max: nat) {
    && AllReplaced(r, s, t) && |TextBytes(r, t)| <= max
    && (|t| < |s| ==> forall d :: Replaces(r, s[|t|], d) ==> |TextBytes(r, t + [d])| > max)
  }

  lemma {:induction false} BytesAppend(r: Rules, t: Text, d: Rune)
    ensures |TextBytes(r, t + [d])| == |TextBytes(r, t)| + |TextBytes(r, [d])|
  {
    if t == [] {
      assert t + [d] == [d];
    } else {
      assert (t + [d])[1..] == t[1..] + [d];
      BytesAppend(r, t[1..], d);
    }
  }

  lemma {:induction false} BytesGrow(r: Rules, t: Text, k: nat)
    requires k <= |t|
    ensures |TextBytes(r, t[..k])| <= |TextBytes(r, t)|
    decreases |t|
  {
    if k == |t| {
      assert t[..k] == t;
    } else {
      var front := t[..|t| - 1];
      BytesGrow(r, front, k);
      assert front[..k] == t[..k] && t == front + [t[|t| - 1]];
      BytesAppend(r, front, t[|t| - 1]);
    }
  }

  lemma OneByOne(r: Rules, c: Rune)
    ensures Replaces(r, c, Rune(Shown(r, c))) && |TextBytes(r, [Rune(Shown(r, c))])| == Width(r, Shown(r, c))
  {
    assert [Rune(Shown(r, c))][1..] == [];
  }

  lemma {:induction false} CleanFits(r: Rules, s: Text, used: nat, max: nat)
    requires used <= max
    ensures var t := CleanFrom(r, s, used, max);
      && AllReplaced(r, s, t) && used + |TextBytes(r, t)| <= max
      && (|t| < |s| ==> forall d :: Replaces(r, s[|t|], d) ==> used + |TextBytes(r, t + [d])| > max)
  {
    if s != [] {
      var c := Rune(Shown(r, s[0]));
      var w := Width(r, Shown(r, s[0]));
      OneByOne(r, s[0]);
      if used + w <= max {
        CleanFits(r, s[1..], used + w, max);
        CleanFitsNext(r, s, CleanFrom(r, s[1..], used + w, max), c, used, max);
      } else {
        assert [] + [c] == [c];
      }
    }
  }

  lemma CleanFitsNext(r: Rules, s: Text, t: Text, c: Rune, used: nat, max: nat)
    requires s != [] && Replaces(r, s[0], c) && AllReplaced(r, s[1..], t)
    requires used + |TextBytes(r, [c])| + |TextBytes(r, t)| <= max
    requires |t| < |s[1..]| ==> forall d :: Replaces(r, s[1..][|t|], d) ==> used + |TextBytes(r, [c])| + |TextBytes(r, t + [d])| > max
    ensures var u := [c] + t;
      && AllReplaced(r, s, u) && used + |TextBytes(r, u)| <= max
      && (|u| < |s| ==> forall d :: Replaces(r, s[|u|], d) ==> used + |TextBytes(r, u + [d])| > max)
  {
    var u := [c] + t;
    assert u[1..] == t && [c][1..] == [];
    assert forall i :: 0 < i < |u| ==> u[i] == t[i - 1] && s[i] == s[1..][i - 1];
    if |u| < |s| {
      forall d | Replaces(r, s[|u|], d) ensures used + |TextBytes(r, u + [d])| > max {
        assert s[1..][|t|] == s[|u|];
        assert u + [d] == [c] + (t + [d]) && ([c] + (t + [d]))[1..] == t + [d];
      }
    }
  }

  /** No longer front fits. */
  lemma LongerBreaks(r: Rules, s: Text, t: Text, u: Text, max: nat)
    requires IsCleaned(r, s, t, max) && AllReplaced(r, s, u) && |t| < |u|
    ensures |TextBytes(r, u)| > max
  {
    forall i | 0 <= i < |t| ensures u[i] == t[i] {
      assert Replaces(r, s[i], t[i]) && Replaces(r, s[i], u[i]);
    }
    assert u[..|t| + 1] == t + [u[|t|]];
    assert Replaces(r, s[|t|], u[|t|]);
    BytesGrow(r, u, |t| + 1);
  }

  /** The cleaned text is exactly that. */
  lemma CleanedIff(r: Rules, s: Text, t: Text, max: nat)
    ensures t == CleanFrom(r, s, 0, max) <==> IsCleaned(r, s, t, max)
  {
    var u := CleanFrom(r, s, 0, max);
    CleanFits(r, s, 0, max);
    if IsCleaned(r, s, t, max) {
      assert |t| == |u| by {
        if |t| < |u| {
          LongerBreaks(r, s, t, u, max);
        } else if |u| < |t| {
          LongerBreaks(r, s, u, t, max);
        }
      }
      forall i | 0 <= i < |t| ensures t[i] == u[i] {
        assert Replaces(r, s[i], t[i]) && Replaces(r, s[i], u[i]);
      }
    }
  }

  // ---- the values ----

  /** Of the first i trap keys the j-th is the last that is added as k. */
  ghost predicate LastAdded(r: Rules, order: seq<Text>, i: nat, k: Text, j: nat) {
    j < i <= |order| && CleanKey(r, order[j]) == k && forall l :: j < l < i ==> CleanKey(r, order[l]) != k
  }

  ghost predicate HasValue(r: Rules, m: map<Text, Text>, order: seq<Text>, i: nat, k: Text, v: Text)
    requires forall k :: k in order ==> k in m
  {
    if k in r.sensor then k in m && v == CleanValue(r, m[k])
    else k != [] && exists j: nat :: LastAdded(r, order, i, k, j) && v == CleanValue(r, m[order[j]])
  }

  ghost predicate HasValues(r: Rules, m: map<Text, Text>, order: seq<Text>, i: nat, out: map<Text, Text>)
    requires forall k :: k in order ==> k in m
  {
    forall k :: k in out ==> HasValue(r, m, order, i, k, out[k])
  }

  lemma WithValues(r: Rules, m: map<Text, Text>, order: seq<Text>, i: nat, out: map<Text, Text>)
    requires (forall k :: k in order ==> k in m) && i < |order| && HasValues(r, m, order, i, out)
    ensures HasValues(r, m, order, i + 1, With(r, m, order, i, out))
  {
    var next := With(r, m, order, i, out);
    forall k | k in next ensures HasValue(r, m, order, i + 1, k, next[k]) {
      if k !in r.sensor {
        if CleanKey(r, order[i]) == k {
          AddedLast(r, m, order, i, out, k);
        } else {
          assert HasValue(r, m, order, i, k, out[k]);
          var j: nat :| LastAdded(r, order, i, k, j) && out[k] == CleanValue(r, m[order[j]]);
          assert LastAdded(r, order, i + 1, k, j);
        }
      } else {
        assert HasValue(r, m, order, i, k, out[k]);
      }
    }
  }

  lemma AddedLast(r: Rules, m: map<Text, Text>, order: seq<Text>, i: nat, out: map<Text, Text>, k: Text)
    requires (forall k :: k in order ==> k in m) && i < |order| && HasValues(r, m, order, i, out)
    requires k in With(r, m, order, i, out) && k !in r.sensor && CleanKey(r, order[i]) == k
    ensures HasValue(r, m, order, i + 1, k, With(r, m, order, i, out)[k])
  {
    assert LastAdded(r, order, i + 1, k, i);
  }

  /** The map when the first i trap keys were looked at. */
  ghost predicate Stage(r: Rules, m: map<Text, Text>, order: seq<Text>, i: nat, out: map<Text, Text>)
    requires forall k :: k in order ==> k in m
  {
    && i <= |order| && (i > 0 ==> Reached(r, m, order, i - 1))
    && out.Keys == SensorKeys(r, m) + Names(r, order, i) && HasValues(r, m, order, i, out)
  }

  lemma StageNext(r: Rules, m: map<Text, Text>, order: seq<Text>, i: nat, out: map<Text, Text>)
    requires (forall k :: k in order ==> k in m) && Stage(r, m, order, i, out) && Reached(r, m, order, i)
    ensures Stage(r, m, order, i + 1, With(r, m, order, i, out)) && |out| < MAX_KEYS
  {
    Apart(r, m, order, i, out);
    WithKeys(r, m, order, i, out);
    WithValues(r, m, order, i, out);
  }

  lemma StageLast(r: Rules, m: map<Text, Text>, order: seq<Text>, i: nat, out: map<Text, Text>)
    requires (forall k :: k in order ==> k in m) && Stage(r, m, order, i, out) && !Reached(r, m, order, i)
    ensures order[i..] == [] || |out| >= MAX_KEYS
  {
    Apart(r, m, order, i, out);
  }

  lemma {:induction false} AddedValues(r: Rules, m: map<Text, Text>, order: seq<Text>, i: nat, out: map<Text, Text>) returns (n: nat)
    requires (forall k :: k in order ==> k in m) && Stage(r, m, order, i, out)
    requires forall k :: k in order[i..] ==> k in m
    ensures Stage(r, m, order, n, AddTraps(r, m, order[i..], out)) && !Reached(r, m, order, n)
    decreases |order| - i
  {
    if Reached(r, m, order, i) {
      StageNext(r, m, order, i, out);
      AddNext(r, m, order, i, out);
      n := AddedValues(r, m, order, i + 1, With(r, m, order, i, out));
    } else {
      StageLast(r, m, order, i, out);
      AddNone(r, m, order[i..], out);
      n := i;
    }
  }

  /** The j-th trap key is looked at, and the last of those whose clean name is k. */
  ghost predicate GivesName(r: Rules, m: map<Text, Text>, order: seq<Text>, k: Text, j: nat) {
    && Reached(r, m, order, j) && IsCleaned(r, order[j], k, 64)
    && forall l: nat :: l > j && Reached(r, m, order, l) ==> !IsCleaned(r, order[l], k, 64)
  }

  lemma LastGives(r: Rules, m: map<Text, Text>, order: seq<Text>, n: nat, k: Text, j: nat)
    requires LastAdded(r, order, n, k, j) && (n > 0 ==> Reached(r, m, order, n - 1)) && !Reached(r, m, order, n)
    ensures GivesName(r, m, order, k, j)
  {
    ReachedBefore(r, m, order, j, n - 1);
    CleanedIff(r, order[j], k, 64);
    forall l: nat | l > j && Reached(r, m, order, l) ensures !IsCleaned(r, order[l], k, 64) {
      if l >= n {
        ReachedBefore(r, m, order, n, l);
      }
      CleanedIff(r, order[l], k, 64);
    }
  }

  /** A sensor key has its own value, cleaned to 256 bytes; any other key that of the last trap key looked at that
      cleans to it. */
  lemma BoundValues(r: Rules, m: map<Text, Text>, order: seq<Text>, k: Text)
    requires (forall k :: k in order ==> k in m) && k in Bound(r, m, order)
    ensures var v := Bound(r, m, order)[k];
      if k in r.sensor then k in m && IsCleaned(r, m[k], v, 256)
      else exists j: nat :: GivesName(r, m, order, k, j) && IsCleaned(r, m[order[j]], v, 256)
  {
    var v := Bound(r, m, order)[k];
    var n := BoundHas(r, m, order);
    assert HasValue(r, m, order, n, k, v);
    if k in r.sensor {
      CleanedIff(r, m[k], v, 256);
    } else {
      var j: nat :| LastAdded(r, order, n, k, j) && v == CleanValue(r, m[order[j]]);
      LastGives(r, m, order, n, k, j);
      CleanedIff(r, m[order[j]], v, 256);
    }
  }

  lemma BoundHas(r: Rules, m: map<Text, Text>, order: seq<Text>) returns (n: nat)
    requires forall k :: k in order ==> k in m
    ensures n <= |order| && (n > 0 ==> Reached(r, m, order, n - 1)) && !Reached(r, m, order, n)
    ensures HasValues(r, m, order, n, Bound(r, m, order))
  {
    assert order[0..] == order;
    assert SensorPart(r, m).Keys == SensorKeys(r, m) + Names(r, order, 0);
    n := AddedValues(r, m, order, 0, SensorPart(r, m));
  }
}
