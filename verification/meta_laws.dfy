/** What bounded metadata is, and how often bounding it still changes something. */
module MetaLaws {
  import opened Fifo
  import opened Meta

  /** Cleaning a clean text changes nothing. */
  lemma {:induction false} CleanTwice(r: Rules, s: Text, used: nat, max: nat)
    requires Proper(r)
    ensures CleanFrom(r, CleanFrom(r, s, used, max), used, max) == CleanFrom(r, s, used, max)
    decreases |s|
  {
    if s != [] && used + Width(r, Shown(r, s[0])) <= max {
      var c := Shown(r, s[0]);
      var more := CleanFrom(r, s[1..], used + Width(r, c), max);
      CleanTwice(r, s[1..], used + Width(r, c), max);
      assert ([Rune(c)] + more)[1..] == more;
      assert Shown(r, Rune(c)) == c;
    }
  }

  /** Everything the bound lets through: sensor keys and clean keys, with clean values. */
  ghost predicate Settled(r: Rules, m: map<Text, Text>) {
    && |m| <= MAX_KEYS
    && forall k :: k in m ==> k != [] && CleanKey(r, k) == k && CleanValue(r, m[k]) == m[k]
  }

  lemma {:induction false} AddSettles(r: Rules, m: map<Text, Text>, order: seq<Text>, out: map<Text, Text>)
    requires Proper(r) && Settled(r, out) && forall k :: k in order ==> k in m
    ensures Settled(r, AddTraps(r, m, order, out))
    ensures forall k :: k in out && k in r.sensor ==> k in AddTraps(r, m, order, out) && AddTraps(r, m, order, out)[k] == out[k]
    decreases |order|
  {
    if order != [] && |out| < MAX_KEYS {
      var k, v := CleanKey(r, order[0]), CleanValue(r, m[order[0]]);
      CleanTwice(r, order[0], 0, MAX_KEY_BYTES);
      CleanTwice(r, m[order[0]], 0, MAX_VALUE_BYTES);
      SizeWith(out, k, v);
      assert forall x :: x in order[1..] ==> x in order;
      AddSettles(r, m, order[1..], if k == [] || k in r.sensor then out else out[k := v]);
    }
  }

  lemma SensorSettles(r: Rules, m: map<Text, Text>)
    requires Proper(r)
    ensures Settled(r, SensorPart(r, m))
  {
    var s := SensorPart(r, m);
    assert s.Keys <= r.sensor;
    assert r.sensor == s.Keys + (r.sensor - s.Keys);
    forall k | k in s ensures CleanValue(r, s[k]) == s[k] {
      CleanTwice(r, m[k], 0, MAX_VALUE_BYTES);
    }
  }

  /** The result holds at most 32 keys, all clean, and every sensor key of the input. */
  lemma BoundSettles(r: Rules, m: map<Text, Text>, order: seq<Text>)
    requires Proper(r) && forall k :: k in order ==> k in m
    ensures Settled(r, Bound(r, m, order))
    ensures forall k :: k in m && k in r.sensor ==>
      k in Bound(r, m, order) && Bound(r, m, order)[k] == CleanValue(r, m[k])
  {
    SensorSettles(r, m);
    AddSettles(r, m, order, SensorPart(r, m));
  }

  // ---- bounding again ----

  /** What a second pass leaves: all but the keys that became secret names. */
  ghost function Spared(r: Rules, m: map<Text, Text>): map<Text, Text> {
    map k | k in m && (k in r.sensor || !r.secret(k)) :: m[k]
  }

  /** out and the keys of order together are the spared keys of m. */
  ghost predicate Fills(r: Rules, m: map<Text, Text>, order: seq<Text>, out: map<Text, Text>) {
    && NoDup(order) && (forall k :: k in order ==> k !in out && k in Spared(r, m) && k !in r.sensor)
    && (forall k :: k in out ==> k in Spared(r, m) && out[k] == m[k])
    && (forall k :: k in Spared(r, m) ==> k in out || k in order)
  }

  lemma RoomLeft(r: Rules, m: map<Text, Text>, order: seq<Text>, out: map<Text, Text>)
    requires Settled(r, m) && Fills(r, m, order, out) && order != []
    ensures |out| < MAX_KEYS
  {
    assert order[0] in order;
    Smaller(out.Keys, m.Keys);
  }

  lemma FillsNext(r: Rules, m: map<Text, Text>, order: seq<Text>, out: map<Text, Text>)
    requires Fills(r, m, order, out) && order != []
    ensures order[0] in m && Fills(r, m, order[1..], out[order[0] := m[order[0]]])
  {
    var k := order[0];
    assert k in order;
    assert forall x :: x in order <==> x == k || x in order[1..];
  }

  lemma AddClean(r: Rules, m: map<Text, Text>, order: seq<Text>, out: map<Text, Text>)
    requires Settled(r, m) && (forall k :: k in order ==> k in m) && order != [] && |out| < MAX_KEYS && order[0] !in r.sensor
    ensures AddTraps(r, m, order, out) == AddTraps(r, m, order[1..], out[order[0] := m[order[0]]])
  {
    assert order[0] in order;
  }

  lemma {:induction false} AddFills(r: Rules, m: map<Text, Text>, order: seq<Text>, out: map<Text, Text>)
    requires Settled(r, m) && Fills(r, m, order, out) && forall k :: k in order ==> k in m
    ensures AddTraps(r, m, order, out) == Spared(r, m)
    decreases |order|
  {
    if order == [] {
      assert forall k :: k in out <==> k in Spared(r, m);
    } else {
      RoomLeft(r, m, order, out);
      AddClean(r, m, order, out);
      FillsNext(r, m, order, out);
      AddFills(r, m, order[1..], out[order[0] := m[order[0]]]);
    }
  }

  /** A second pass only drops the keys that became secret names. */
  lemma SecondPass(r: Rules, m: map<Text, Text>, order: seq<Text>)
    requires Proper(r) && Settled(r, m) && Lists(r, m, order)
    ensures Bound(r, m, order) == Spared(r, m)
  {
    assert forall k :: k in SensorPart(r, m) ==> SensorPart(r, m)[k] == m[k];
    AddFills(r, m, order, SensorPart(r, m));
  }

  // ---- the names the first pass adds ----

  /** The trap key k is added under its clean name. */
  predicate Adds(r: Rules, k: Text) {
    CleanKey(r, k) != [] && CleanKey(r, k) !in r.sensor
  }

  /** The names that the first j keys are added under. */
  ghost function Names(r: Rules, order: seq<Text>, j: nat): set<Text>
    requires j <= |order|
  {
    set i: nat | i < j && Adds(r, order[i]) :: CleanKey(r, order[i])
  }

  ghost function SensorKeys(r: Rules, m: map<Text, Text>): set<Text> {
    set k | k in m && k in r.sensor
  }

  /** The j-th trap key is looked at: the sensor keys and the names of the keys before it leave room. */
  ghost predicate Reached(r: Rules, m: map<Text, Text>, order: seq<Text>, j: nat) {
    j < |order| && |SensorKeys(r, m)| + |Names(r, order, j)| < 32
  }

  /** The names of the keys that are looked at. */
  ghost function Taken(r: Rules, m: map<Text, Text>, order: seq<Text>): set<Text> {
    set j: nat | j < |order| && Reached(r, m, order, j) && Adds(r, order[j]) :: CleanKey(r, order[j])
  }

  lemma ReachedBefore(r: Rules, m: map<Text, Text>, order: seq<Text>, i: nat, j: nat)
    requires i <= j && Reached(r, m, order, j)
    ensures Reached(r, m, order, i)
  {
    Smaller(Names(r, order, i), Names(r, order, j));
  }

  /** The names are all taken if every key up to the i-th is looked at and none from there on. */
  lemma TakenUpTo(r: Rules, m: map<Text, Text>, order: seq<Text>, i: nat)
    requires i <= |order| && (i > 0 ==> Reached(r, m, order, i - 1)) && !Reached(r, m, order, i)
    ensures Taken(r, m, order) == Names(r, order, i)
  {
    forall j: nat | j < |order| ensures Reached(r, m, order, j) <==> j < i {
      if j < i {
        ReachedBefore(r, m, order, j, i - 1);
      } else if Reached(r, m, order, j) {
        ReachedBefore(r, m, order, i, j);
      }
    }
  }

  lemma Apart(r: Rules, m: map<Text, Text>, order: seq<Text>, i: nat, out: map<Text, Text>)
    requires i <= |order| && out.Keys == SensorKeys(r, m) + Names(r, order, i)
    ensures |out| == |SensorKeys(r, m)| + |Names(r, order, i)|
  {
    assert SensorKeys(r, m) !! Names(r, order, i);
    assert |out| == |out.Keys|;
  }

  lemma NextNames(r: Rules, order: seq<Text>, i: nat)
    requires i < |order|
    ensures Names(r, order, i + 1) == Names(r, order, i) + (if Adds(r, order[i]) then {CleanKey(r, order[i])} else {})
  {
  }

  /** The map after the i-th key. */
  ghost function With(r: Rules, m: map<Text, Text>, order: seq<Text>, i: nat, out: map<Text, Text>): map<Text, Text>
    requires i < |order| && order[i] in m
  {
    if Adds(r, order[i]) then out[CleanKey(r, order[i]) := CleanValue(r, m[order[i]])] else out
  }

  lemma WithKeys(r: Rules, m: map<Text, Text>, order: seq<Text>, i: nat, out: map<Text, Text>)
    requires i < |order| && order[i] in m && out.Keys == SensorKeys(r, m) + Names(r, order, i)
    ensures With(r, m, order, i, out).Keys == SensorKeys(r, m) + Names(r, order, i + 1)
  {
    NextNames(r, order, i);
  }

  lemma AddNext(r: Rules, m: map<Text, Text>, order: seq<Text>, i: nat, out: map<Text, Text>)
    requires i < |order| && (forall k :: k in order[i..] ==> k in m) && |out| < MAX_KEYS
    ensures order[i] in m && (forall k :: k in order[i + 1..] ==> k in m)
    ensures AddTraps(r, m, order[i..], out) == AddTraps(r, m, order[i + 1..], With(r, m, order, i, out))
  {
    var rest := order[i..];
    assert rest[0] == order[i] && rest[1..] == order[i + 1..];
  }

  lemma {:induction false} AddedKeys(r: Rules, m: map<Text, Text>, order: seq<Text>, i: nat, out: map<Text, Text>)
    requires i <= |order| && (forall k :: k in order[i..] ==> k in m) && (i > 0 ==> Reached(r, m, order, i - 1))
    requires out.Keys == SensorKeys(r, m) + Names(r, order, i)
    ensures AddTraps(r, m, order[i..], out).Keys == SensorKeys(r, m) + Taken(r, m, order)
    decreases |order| - i
  {
    Apart(r, m, order, i, out);
    if Reached(r, m, order, i) {
      AddNext(r, m, order, i, out);
      WithKeys(r, m, order, i, out);
      AddedKeys(r, m, order, i + 1, With(r, m, order, i, out));
    } else {
      AddNone(r, m, order[i..], out);
      TakenUpTo(r, m, order, i);
    }
  }

  lemma AddNone(r: Rules, m: map<Text, Text>, rest: seq<Text>, out: map<Text, Text>)
    requires (forall k :: k in rest ==> k in m) && (rest == [] || |out| >= MAX_KEYS)
    ensures AddTraps(r, m, rest, out) == out
  {
  }

  /** The keys of the result: the sensor keys of the input and the names of the trap keys that are looked at. */
  lemma BoundKeys(r: Rules, m: map<Text, Text>, order: seq<Text>)
    requires forall k :: k in order ==> k in m
    ensures Bound(r, m, order).Keys == SensorKeys(r, m) + Taken(r, m, order)
  {
    assert order[0..] == order;
    assert SensorPart(r, m).Keys == SensorKeys(r, m) + Names(r, order, 0);
    AddedKeys(r, m, order, 0, SensorPart(r, m));
  }

  // ---- when one pass is enough ----

  /** The trap key k is added under a secret name. */
  predicate Unmasked(r: Rules, k: Text) {
    Adds(r, k) && r.secret(CleanKey(r, k))
  }

  lemma SparesAll(r: Rules, b: map<Text, Text>)
    ensures Spared(r, b) == b <==> forall k :: k in b && k !in r.sensor ==> !r.secret(k)
  {
    if Spared(r, b) == b {
      forall k | k in b && k !in r.sensor ensures !r.secret(k) { assert k in Spared(r, b); }
    }
    if forall k :: k in b && k !in r.sensor ==> !r.secret(k) {
      assert forall k :: k in Spared(r, b) <==> k in b;
    }
  }

  /** Bounding twice is bounding once if and only if no trap key that is looked at cleans to a secret name. */
  lemma IdempotentIff(r: Rules, m: map<Text, Text>, first: seq<Text>, second: seq<Text>)
    requires Proper(r) && Lists(r, m, first) && Lists(r, Bound(r, m, first), second)
    ensures Bound(r, Bound(r, m, first), second) == Bound(r, m, first)
      <==> forall j: nat :: Reached(r, m, first, j) ==> !Unmasked(r, first[j])
  {
    var b := Bound(r, m, first);
    BoundSettles(r, m, first);
    SecondPass(r, b, second);
    SparesAll(r, b);
    BoundKeys(r, m, first);
    if Spared(r, b) == b {
      forall j: nat | Reached(r, m, first, j) ensures !Unmasked(r, first[j]) {
        assert Adds(r, first[j]) ==> CleanKey(r, first[j]) in Taken(r, m, first);
      }
    }
  }

  lemma {:induction false} FewNames(r: Rules, order: seq<Text>, j: nat)
    requires j <= |order|
    ensures |Names(r, order, j)| <= j
  {
    if j > 0 {
      FewNames(r, order, j - 1);
      NextNames(r, order, j - 1);
    } else {
      assert Names(r, order, j) == {};
    }
  }

  lemma {:induction false} Distinct<T>(s: seq<T>, all: set<T>)
    requires NoDup(s) && forall x :: x in s ==> x in all
    ensures |s| <= |all|
  {
    if s != [] {
      var n := |s| - 1;
      Distinct(s[..n], all - {s[n]});
    }
  }

  lemma AllReached(r: Rules, m: map<Text, Text>, first: seq<Text>, j: nat)
    requires Lists(r, m, first) && |m| <= MAX_KEYS && j < |first|
    ensures Reached(r, m, first, j)
  {
    FewNames(r, first, j);
    var traps := m.Keys - SensorKeys(r, m);
    Distinct(first, traps);
    assert |m.Keys| == |traps| + |SensorKeys(r, m)| by {
      assert m.Keys == traps + SensorKeys(r, m);
    }
  }

  /** With no more keys than the bound, every trap key counts. */
  lemma IdempotentWhenFew(r: Rules, m: map<Text, Text>, first: seq<Text>, second: seq<Text>)
    requires Proper(r) && Lists(r, m, first) && Lists(r, Bound(r, m, first), second) && |m| <= MAX_KEYS
    ensures Bound(r, Bound(r, m, first), second) == Bound(r, m, first)
      <==> forall k :: k in m && IsTrapKey(r, k) ==> !Unmasked(r, k)
  {
    IdempotentIff(r, m, first, second);
    forall j: nat | j < |first| ensures Reached(r, m, first, j) {
      AllReached(r, m, first, j);
    }
  }

  /** After two passes no trap key is a secret name. */
  lemma NoSecretLeaves(r: Rules, m: map<Text, Text>, first: seq<Text>, second: seq<Text>, k: Text)
    requires Proper(r) && Lists(r, m, first) && Lists(r, Bound(r, m, first), second)
    requires k in Bound(r, Bound(r, m, first), second) && k !in r.sensor
    ensures !r.secret(k)
  {
    BoundSettles(r, m, first);
    SecondPass(r, Bound(r, m, first), second);
  }

  // ---- the order of the map does not matter ----

  /** The sorted list of the trap keys, and with it the result, is determined by the map. */
  lemma {:induction false} SortedOnce(less: (Text, Text) -> bool, ks: set<Text>, a: seq<Text>, b: seq<Text>)
    requires Orders(less, ks) && (forall k :: k in a ==> k in ks) && Sorted(less, a) && Sorted(less, b) && forall k :: k in a <==> k in b
    ensures a == b
  {
    assert a != [] ==> a[0] in a;
    assert b != [] ==> b[0] in b;
    if a != [] && b != [] {
      assert a[0] in b && b[0] in a;
      assert a[0] == b[0];
      assert a == [a[0]] + a[1..] && b == [b[0]] + b[1..];
      forall k ensures k in a[1..] <==> k in b[1..] {
        assert k in a[1..] <==> k in a && k != a[0];
        assert k in b[1..] <==> k in b && k != b[0];
      }
      SortedOnce(less, ks, a[1..], b[1..]);
    }
  }

  lemma BoundIsDetermined(r: Rules, m: map<Text, Text>, first: seq<Text>, again: seq<Text>)
    requires Spelled(r, m.Keys) && Lists(r, m, first) && Lists(r, m, again)
    requires Sorted(ByteOrder(r), first) && Sorted(ByteOrder(r), again)
    ensures Bound(r, m, first) == Bound(r, m, again)
  {
    ByteOrderOrders(r, m.Keys);
    SortedOnce(ByteOrder(r), m.Keys, first, again);
  }

  lemma SparedOnce(r: Rules, m: map<Text, Text>)
    requires Settled(r, m)
    ensures Settled(r, Spared(r, m)) && Spared(r, Spared(r, m)) == Spared(r, m)
  {
    var d := Spared(r, m);
    Smaller(d.Keys, m.Keys);
    assert forall k :: k in Spared(r, d) <==> k in d;
  }

  /** After two passes nothing changes any more. */
  lemma TwoPassesSettle(r: Rules, m: map<Text, Text>, first: seq<Text>, second: seq<Text>, third: seq<Text>)
    requires Proper(r) && Lists(r, m, first) && Lists(r, Bound(r, m, first), second)
    requires Lists(r, Bound(r, Bound(r, m, first), second), third)
    ensures Bound(r, Bound(r, Bound(r, m, first), second), third) == Bound(r, Bound(r, m, first), second)
  {
    BoundSettles(r, m, first);
    ThirdPass(r, Bound(r, m, first), second, third);
  }

  lemma ThirdPass(r: Rules, b: map<Text, Text>, second: seq<Text>, third: seq<Text>)
    requires Proper(r) && Settled(r, b) && Lists(r, b, second) && Lists(r, Bound(r, b, second), third)
    ensures Bound(r, Bound(r, b, second), third) == Bound(r, b, second)
  {
    SecondPass(r, b, second);
    SparedOnce(r, b);
    SecondPass(r, Bound(r, b, second), third);
  }

  // ---- a key that becomes secret ----

  const ZERO_WIDTH := 0x200b
  const NAME: Text := [Rune(0x70), Rune(0x61), Rune(0x73), Rune(0x73)] // pass

  lemma AddOne(r: Rules, m: map<Text, Text>, k: Text)
    requires k in m && CleanKey(r, k) != [] && CleanKey(r, k) !in r.sensor
    ensures AddTraps(r, m, [k], map[]) == map[CleanKey(r, k) := CleanValue(r, m[k])]
  {
    var order := [k];
    assert order[1..] == [];
  }

  /** One pass over the key alone is not enough: the second one drops it. */
  ghost predicate Differs(r: Rules, k: Text, v: Text) {
    var m := map[k := v];
    Lists(r, m, [k]) && Lists(r, Bound(r, m, [k]), []) && Bound(r, Bound(r, m, [k]), []) != Bound(r, m, [k])
  }

  /** One pass is not enough for every trap key that cleans to a secret name. */
  lemma UnmaskedDiffers(r: Rules, k: Text, v: Text)
    requires Proper(r) && IsTrapKey(r, k) && Unmasked(r, k)
    ensures Differs(r, k, v)
  {
    var m, shown := map[k := v], CleanKey(r, k);
    assert SensorPart(r, m) == map[];
    AddOne(r, m, k);
    var b := Bound(r, m, [k]);
    assert b == map[shown := CleanValue(r, v)];
    assert shown !in SensorPart(r, b);
  }

  /** A blanked character in front of a name cleans to what a space in front of it does. */
  lemma BlankShows(r: Rules, c: nat, name: Text)
    requires Proper(r) && r.control(c)
    ensures CleanKey(r, [Rune(c)] + name) == CleanKey(r, [Rune(SPACE)] + name)
  {
    assert ([Rune(c)] + name)[1..] == name && ([Rune(SPACE)] + name)[1..] == name;
  }

  /** One pass is not enough for a blanked character in front of a name, under all rules where the space it becomes
      does not hide the name and the character does. */
  lemma OnePassIsNotEnough(r: Rules, c: nat, name: Text, v: Text)
    requires Proper(r) && r.control(c)
    requires var shown := [Rune(SPACE)] + name; CleanKey(r, shown) == shown && shown !in r.sensor && r.secret(shown)
    requires !r.secret([Rune(c)] + name)
    ensures Differs(r, [Rune(c)] + name, v)
  {
    BlankShows(r, c, name);
    assert ([Rune(c)] + name)[0] != ([Rune(SPACE)] + name)[0];
    UnmaskedDiffers(r, [Rune(c)] + name, v);
  }

  /** All its characters are written as they are. */
  predicate Plain(r: Rules, s: Text) {
    forall i :: 0 <= i < |s| ==> s[i].Rune? && Shown(r, s[i]) == s[i].code
  }

  lemma {:induction false} FitsWhole(r: Rules, s: Text, used: nat, max: nat)
    requires Plain(r, s) && used + |TextBytes(r, s)| <= max
    ensures CleanFrom(r, s, used, max) == s
  {
    if s != [] {
      FitsWhole(r, s[1..], used + Width(r, s[0].code), max);
    }
  }

  /** What does not fit behind a text that fills the limit is cut. */
  lemma {:induction false} CutsRest(r: Rules, s: Text, rest: Text, used: nat, max: nat)
    requires Plain(r, s) && used + |TextBytes(r, s)| == max && rest != [] && Width(r, Shown(r, rest[0])) > 0
    ensures CleanFrom(r, s + rest, used, max) == s
  {
    if s == [] {
      assert s + rest == rest;
    } else {
      assert (s + rest)[0] == s[0] && (s + rest)[1..] == s[1..] + rest;
      CutsRest(r, s[1..], rest, used + Width(r, s[0].code), max);
    }
  }

  /** One pass is not enough for a secret name of 64 bytes with more behind it, under all rules where that hides it. */
  lemma CutIsNotEnough(r: Rules, name: Text, rest: Text, v: Text)
    requires Proper(r) && Plain(r, name) && |TextBytes(r, name)| == MAX_KEY_BYTES && name !in r.sensor && r.secret(name)
    requires rest != [] && Width(r, Shown(r, rest[0])) > 0 && !r.secret(name + rest)
    ensures Differs(r, name + rest, v)
  {
    CutsRest(r, name, rest, 0, MAX_KEY_BYTES);
    assert |name + rest| > |name| > 0;
    UnmaskedDiffers(r, name + rest, v);
  }

  /** A zero width space in front of "pass" is such a key. */
  lemma HiddenPass(r: Rules, v: Text)
    requires Proper(r) && r.control(ZERO_WIDTH) && forall i :: 0 <= i < |NAME| ==> !r.control(NAME[i].code)
    requires forall n :: Width(r, n) <= 4
    requires r.secret([Rune(SPACE)] + NAME) && !r.secret([Rune(ZERO_WIDTH)] + NAME) && [Rune(SPACE)] + NAME !in r.sensor
    ensures Differs(r, [Rune(ZERO_WIDTH)] + NAME, v)
  {
    ShortBytes(r, [Rune(SPACE)] + NAME);
    FitsWhole(r, [Rune(SPACE)] + NAME, 0, MAX_KEY_BYTES);
    OnePassIsNotEnough(r, ZERO_WIDTH, NAME, v);
  }

  lemma {:induction false} ShortBytes(r: Rules, s: Text)
    requires Plain(r, s) && forall n :: Width(r, n) <= 4
    ensures |TextBytes(r, s)| <= 4 * |s|
  {
    if s != [] {
      assert Width(r, s[0].code) <= 4;
      ShortBytes(r, s[1..]);
    }
  }

  lemma {:induction false} SingleBytes(r: Rules, s: Text)
    requires forall i :: 0 <= i < |s| ==> s[i].Rune? && Width(r, s[i].code) == 1
    ensures |TextBytes(r, s)| == |s|
  {
    if s != [] {
      SingleBytes(r, s[1..]);
    }
  }

  /** "pass" behind sixty spaces. */
  const PADDED: Text := seq(60, (_: int) => Rune(SPACE)) + NAME

  /** "passage" behind sixty spaces is such a key too. */
  lemma CutPass(r: Rules, rest: Text, v: Text)
    requires Proper(r) && Width(r, SPACE) == 1 && forall i :: 0 <= i < |NAME| ==> !r.control(NAME[i].code) && Width(r, NAME[i].code) == 1
    requires r.secret(PADDED) && PADDED !in r.sensor
    requires rest != [] && Width(r, Shown(r, rest[0])) > 0 && !r.secret(PADDED + rest)
    ensures Differs(r, PADDED + rest, v)
  {
    SingleBytes(r, PADDED);
    CutIsNotEnough(r, PADDED, rest, v);
  }
}
