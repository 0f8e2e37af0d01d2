/** The bounds on the metadata of an alert: secret keys, sanitised text and the number of keys. */
module Meta {
  import opened Fifo
  import opened Bytes

  const MAX_KEYS := 32
  const MAX_KEY_BYTES := 64
  const MAX_VALUE_BYTES := 256
  const SPACE := 0x20
  const QUESTION := 0x3f

  /** A decoded character, or a byte that is no UTF-8. */
  datatype Rune = Rune(code: nat) | Broken(raw: byte)

  type Text = seq<Rune>

  /** The Unicode tables and the key tables: characters to blank, encodings, sensor keys and secret names. */
  datatype Rules = Rules(control: nat -> bool, encode: nat -> seq<byte>, sensor: set<Text>, secret: Text -> bool)

  function Width(r: Rules, code: nat): nat {
    |r.encode(code)|
  }

  /** What a character is written as. */
  function Shown(r: Rules, c: Rune): nat {
    if c.Broken? then QUESTION
    else if r.control(c.code) || c.code == 0x2028 || c.code == 0x2029 then SPACE
    else c.code
  }

  /** The text with bad characters replaced, cut at a character boundary to max bytes, used of them gone. */
  function CleanFrom(r: Rules, s: Text, used: nat, max: nat): Text
    decreases |s|
  {
    if s == [] || used + Width(r, Shown(r, s[0])) > max then []
    else [Rune(Shown(r, s[0]))] + CleanFrom(r, s[1..], used + Width(r, Shown(r, s[0])), max)
  }

  function CleanKey(r: Rules, k: Text): Text {
    CleanFrom(r, k, 0, MAX_KEY_BYTES)
  }

  function CleanValue(r: Rules, v: Text): Text {
    CleanFrom(r, v, 0, MAX_VALUE_BYTES)
  }

  /** The replacements are harmless themselves, and the sensor keys are clean and few. */
  ghost predicate Proper(r: Rules) {
    && !r.control(SPACE) && !r.control(QUESTION)
    && |r.sensor| <= MAX_KEYS && forall k :: k in r.sensor ==> k != [] && CleanKey(r, k) == k
  }

  method Sanitize(r: Rules, s: Text, max: nat) returns (out: Text)
    ensures out == CleanFrom(r, s, 0, max)
  {
    out := [];
    var i, used := 0, 0;
    while i < |s|
      invariant 0 <= i <= |s| && 0 <= used && CleanFrom(r, s, 0, max) == out + CleanFrom(r, s[i..], used, max)
    {
      ghost var before := out;
      var c := Shown(r, s[i]);
      assert s[i..][0] == s[i] && s[i..][1..] == s[i + 1..];
      if used + Width(r, c) > max {
        return;
      }
      out := out + [Rune(c)];
      used := used + Width(r, c);
      i := i + 1;
      assert before + ([Rune(c)] + CleanFrom(r, s[i..], used, max)) == out + CleanFrom(r, s[i..], used, max);
    }
  }

  // ---- the bound ----

  function SensorPart(r: Rules, m: map<Text, Text>): map<Text, Text> {
    map k | k in m && k in r.sensor :: CleanValue(r, m[k])
  }

  predicate IsTrapKey(r: Rules, k: Text) {
    k !in r.sensor && k != [] && !r.secret(k)
  }

  /** Adds the trap keys in the given order while there is room. */
  function AddTraps(r: Rules, m: map<Text, Text>, order: seq<Text>, out: map<Text, Text>): map<Text, Text>
    requires forall k :: k in order ==> k in m
    decreases |order|
  {
    if order == [] || |out| >= MAX_KEYS then out
    else
      var k := CleanKey(r, order[0]);
      var next := if k == [] || k in r.sensor then out else out[k := CleanValue(r, m[order[0]])];
      AddTraps(r, m, order[1..], next)
  }

  /** order lists the trap keys of m; the code sorts them. */
  ghost predicate Lists(r: Rules, m: map<Text, Text>, order: seq<Text>) {
    NoDup(order) && forall k :: k in order <==> k in m && IsTrapKey(r, k)
  }

  function Bound(r: Rules, m: map<Text, Text>, order: seq<Text>): map<Text, Text>
    requires forall k :: k in order ==> k in m
  {
    AddTraps(r, m, order, SensorPart(r, m))
  }

  // ---- the sorted trap keys ----

  /** The bytes of a text. */
  function TextBytes(r: Rules, t: Text): seq<byte> {
    if t == [] then []
    else (match t[0] case Rune(code) => r.encode(code) case Broken(raw) => [raw]) + TextBytes(r, t[1..])
  }

  /** a comes before b, byte by byte. */
  predicate Before(a: seq<byte>, b: seq<byte>) {
    b != [] && (a == [] || a[0] < b[0] || (a[0] == b[0] && Before(a[1..], b[1..])))
  }

  function ByteOrder(r: Rules): (Text, Text) -> bool {
    (a: Text, b: Text) => Before(TextBytes(r, a), TextBytes(r, b))
  }

  /** Different keys are different strings. */
  ghost predicate Spelled(r: Rules, ks: set<Text>) {
    forall a, b :: a in ks && b in ks && TextBytes(r, a) == TextBytes(r, b) ==> a == b
  }

  ghost predicate Orders(less: (Text, Text) -> bool, ks: set<Text>) {
    && (forall a :: !less(a, a))
    && (forall a, b :: a in ks && b in ks && a != b ==> less(a, b) || less(b, a))
    && (forall a, b, c :: less(a, b) && less(b, c) ==> less(a, c))
  }

  lemma {:induction false} BeforeSelf(a: seq<byte>)
    ensures !Before(a, a)
  {
    if a != [] {
      BeforeSelf(a[1..]);
    }
  }

  lemma {:induction false} BeforeOne(a: seq<byte>, b: seq<byte>)
    requires a != b
    ensures Before(a, b) || Before(b, a)
  {
    if a != [] && b != [] && a[0] == b[0] {
      assert a == [a[0]] + a[1..] && b == [b[0]] + b[1..];
      BeforeOne(a[1..], b[1..]);
    }
  }

  lemma {:induction false} BeforeChain(a: seq<byte>, b: seq<byte>, c: seq<byte>)
    requires Before(a, b) && Before(b, c)
    ensures Before(a, c)
  {
    if a != [] && a[0] == b[0] && b[0] == c[0] {
      BeforeChain(a[1..], b[1..], c[1..]);
    }
  }

  /** The order of the bytes is total on the keys of a map. */
  lemma ByteOrderOrders(r: Rules, ks: set<Text>)
    requires Spelled(r, ks)
    ensures Orders(ByteOrder(r), ks)
  {
    var less := ByteOrder(r);
    forall a ensures !less(a, a) {
      BeforeSelf(TextBytes(r, a));
    }
    forall a, b | a in ks && b in ks && a != b ensures less(a, b) || less(b, a) {
      BeforeOne(TextBytes(r, a), TextBytes(r, b));
    }
    forall a, b, c | less(a, b) && less(b, c) ensures less(a, c) {
      BeforeChain(TextBytes(r, a), TextBytes(r, b), TextBytes(r, c));
    }
  }

  ghost predicate Sorted(less: (Text, Text) -> bool, s: seq<Text>) {
    forall i, j :: 0 <= i < j < |s| ==> less(s[i], s[j])
  }

  function Insert(less: (Text, Text) -> bool, ghost ks: set<Text>, s: seq<Text>, k: Text): (t: seq<Text>)
    requires Orders(less, ks) && Sorted(less, s) && k !in s && k in ks && forall x :: x in s ==> x in ks
    ensures Sorted(less, t) && forall x :: x in t <==> x in s || x == k
  {
    if s == [] || less(k, s[0]) then
      assert forall i :: 0 < i < |s| ==> less(k, s[i]);
      [k] + s
    else
      assert s == [s[0]] + s[1..] && s[0] in s && less(s[0], k);
      assert forall x :: x in s[1..] ==> less(s[0], x);
      [s[0]] + Insert(less, ks, s[1..], k)
  }

  method SortKeys(less: (Text, Text) -> bool, keys: seq<Text>, ghost ks: set<Text>) returns (out: seq<Text>)
    requires Orders(less, ks) && NoDup(keys) && forall k :: k in keys ==> k in ks
    ensures Sorted(less, out) && forall k :: k in out <==> k in keys
  {
    out := [];
    for i := 0 to |keys|
      invariant Sorted(less, out) && forall k :: k in out <==> k in keys[..i]
    {
      assert keys[..i + 1] == keys[..i] + [keys[i]];
      assert keys[i] in keys;
      out := Insert(less, ks, out, keys[i]);
    }
    assert keys[..|keys|] == keys;
  }

  /** Goes through the map in any order and parts the sensor keys from the trap keys. */
  method PartKeys(r: Rules, m: map<Text, Text>) returns (out: map<Text, Text>, trapKeys: seq<Text>)
    ensures out == SensorPart(r, m) && Lists(r, m, trapKeys)
  {
    out, trapKeys := map[], [];
    var left := m.Keys;
    while left != {}
      invariant left <= m.Keys
      invariant out == map k | k in m && k !in left && k in r.sensor :: CleanValue(r, m[k])
      invariant NoDup(trapKeys) && forall k :: k in trapKeys <==> k in m && k !in left && IsTrapKey(r, k)
      decreases |left|
    {
      var k :| k in left;
      left := left - {k};
      if k in r.sensor {
        var v := Sanitize(r, m[k], MAX_VALUE_BYTES);
        out := out[k := v];
      } else if k != [] && !r.secret(k) {
        trapKeys := trapKeys + [k];
      }
    }
  }

  method AddKeys(r: Rules, m: map<Text, Text>, order: seq<Text>, found: map<Text, Text>) returns (out: map<Text, Text>)
    requires forall k :: k in order ==> k in m
    ensures out == AddTraps(r, m, order, found)
  {
    out := found;
    var i := 0;
    while i < |order|
      invariant 0 <= i <= |order| && AddTraps(r, m, order, found) == AddTraps(r, m, order[i..], out)
    {
      assert order[i..][0] == order[i] && order[i..][1..] == order[i + 1..];
      if |out| >= MAX_KEYS {
        return;
      }
      var k := Sanitize(r, order[i], MAX_KEY_BYTES);
      if k != [] && k !in r.sensor {
        var v := Sanitize(r, m[order[i]], MAX_VALUE_BYTES);
        out := out[k := v];
      }
      i := i + 1;
    }
  }

  /** The bound is that of the sorted trap keys. */
  method BoundMeta(r: Rules, m: map<Text, Text>) returns (out: map<Text, Text>)
    requires Spelled(r, m.Keys)
    ensures exists order :: Lists(r, m, order) && Sorted(ByteOrder(r), order) && out == Bound(r, m, order)
  {
    var found, trapKeys := PartKeys(r, m);
    ByteOrderOrders(r, m.Keys);
    var sorted := SortKeys(ByteOrder(r), trapKeys, m.Keys);
    out := AddKeys(r, m, sorted, found);
  }
}
