/** The object an error names is the object that repeats the key. */
module FixturePlaces {
  import opened Fifo
  import opened FixtureKeys
  import opened FixtureTree

  /** One step into a value: a member by its key or an item by its position. */
  datatype Hop = Key(name: string) | Index(n: nat)

  /** key has the value j in ms. */
  predicate Has(ms: Members, key: string, j: Json) {
    ms.Member? && ((ms.key == key && ms.value == j) || Has(ms.rest, key, j))
  }

  /** The n-th value, counted from 0, is j. */
  predicate HasItem(vs: Items, n: nat, j: Json) {
    vs.Item? && if n == 0 then vs.value == j else HasItem(vs.rest, n - 1, j)
  }

  predicate Child(j: Json, h: Hop, v: Json) {
    match h
    case Key(k) => j.Object? && Has(j.members, k, v)
    case Index(n) => j.Array? && HasItem(j.items, n, v)
  }

  /** The path leads from j to target. */
  ghost predicate Reaches(j: Json, path: seq<Hop>, target: Json)
    decreases |path|
  {
    if path == [] then j == target
    else exists v :: Child(j, path[0], v) && Reaches(v, path[1..], target)
  }

  /** ms holds key more than once. */
  predicate RepeatsKey(ms: Members, key: string) {
    ms.Member? && ((ms.key == key && key in KeysOf(ms.rest)) || RepeatsKey(ms.rest, key))
  }

  datatype Place = Place(kind: Kind, entry: nat)

  /** How an error names the object at a path: the top-level object, the fixture entry with its
      1-based position, the headers of that entry, or no place at all. */
  function PlaceOf(path: seq<Hop>): Place {
    if path == [] then Place(Top, 0)
    else if |path| == 2 && path[0] == Key("fixtures") && path[1].Index? then Place(Entry, path[1].n + 1)
    else if |path| == 3 && path[0] == Key("fixtures") && path[1].Index? && path[2] == Key("headers") then
      Place(Headers, path[1].n + 1)
    else Place(Other, 0)
  }

  /** The frame stands for the container at the path. */
  ghost predicate FrameAt(f: Frame, path: seq<Hop>) {
    if f.obj then Place(f.kind, f.entry) == PlaceOf(path)
    else f.entry == 0 && f.kind == if path == [Key("fixtures")] then Fixtures else Other
  }

  function HopOf(f: Frame): Hop {
    if f.obj then Key(f.curKey) else Index(f.n)
  }

  lemma NestedPlace(f: Frame, path: seq<Hop>, obj: bool)
    requires FrameAt(f, path)
    ensures FrameAt(Nested(f, obj), path + [HopOf(f)])
  {
    var p := path + [HopOf(f)];
    assert path == p[..|path|] && p[|path|] == HopOf(f);
    if |path| == 1 { assert path == [path[0]]; }
  }

  /** The path q from j ends at an object that repeats d.key, and d names the place base + q. */
  ghost predicate Finds(d: Dup, base: seq<Hop>, j: Json, q: seq<Hop>, ms: Members) {
    Reaches(j, q, Object(ms)) && RepeatsKey(ms, d.key) && Place(d.kind, d.entry) == PlaceOf(base + q)
  }

  lemma FindsDeeper(d: Dup, base: seq<Hop>, j: Json, h: Hop, v: Json, q: seq<Hop>, ms: Members)
    requires Child(j, h, v) && Finds(d, base + [h], v, q, ms)
    ensures Finds(d, base, j, [h] + q, ms)
  {
    assert ([h] + q)[1..] == q;
    assert base + [h] + q == base + ([h] + q);
  }

  lemma {:induction false} FindValue(f: Frame, path: seq<Hop>, j: Json) returns (q: seq<Hop>, ms: Members)
    requires FrameAt(f, path) && DupIn(f, j).Some?
    ensures Finds(DupIn(f, j).value, path + [HopOf(f)], j, q, ms)
    decreases j, 0
  {
    var p, d := path + [HopOf(f)], DupIn(f, j).value;
    match j {
      case Object(all) =>
        NestedPlace(f, path, true);
        q, ms := FindMember(Nested(f, true), p, all);
      case Array(all) =>
        NestedPlace(f, path, false);
        var h, v;
        h, v, q, ms := FindItem(Nested(f, false), p, all);
        FindsDeeper(d, p, j, h, v, q, ms);
        q := [h] + q;
    }
  }

  lemma {:induction false} FindMember(f: Frame, path: seq<Hop>, all: Members) returns (q: seq<Hop>, ms: Members)
    requires f.obj && FrameAt(f, path) && f.keys == {} && MembersDup(f, all).Some?
    ensures Finds(MembersDup(f, all).value, path, Object(all), q, ms)
    decreases all, 1
  {
    var d := MembersDup(f, all).value;
    var h, v;
    var own;
    own, h, v, q, ms := FindInMembers(f, path, all);
    if own {
      q, ms := [], all;
      assert path + [] == path;
    } else {
      FindsDeeper(d, path, Object(all), h, v, q, ms);
      q := [h] + q;
    }
  }

  /** Either the object itself repeats the key, or the value v of the member h leads to the repetition. */
  lemma {:induction false} FindInMembers(f: Frame, path: seq<Hop>, all: Members)
      returns (own: bool, h: Hop, v: Json, q: seq<Hop>, ms: Members)
    requires f.obj && FrameAt(f, path) && MembersDup(f, all).Some?
    ensures var d := MembersDup(f, all).value;
      if own then Place(d.kind, d.entry) == PlaceOf(path) && (RepeatsKey(all, d.key) || (d.key in f.keys && d.key in KeysOf(all)))
      else h.Key? && Has(all, h.name, v) && Finds(d, path + [h], v, q, ms)
    decreases all, 0
  {
    own, h, v, q, ms := true, Key(""), Atom, [], NoMember;
    var g := Keyed(f, all.key);
    if all.key !in f.keys {
      if DupIn(g, all.value).Some? {
        q, ms := FindValue(g, path, all.value);
        own, h, v := false, Key(all.key), all.value;
      } else {
        own, h, v, q, ms := FindInMembers(g.(expectKey := true), path, all.rest);
      }
    }
  }

  lemma {:induction false} FindItem(f: Frame, path: seq<Hop>, all: Items)
      returns (h: Hop, v: Json, q: seq<Hop>, ms: Members)
    requires !f.obj && FrameAt(f, path) && ItemsDup(f, all).Some?
    ensures h.Index? && h.n >= f.n && HasItem(all, h.n - f.n, v)
    ensures Finds(ItemsDup(f, all).value, path + [h], v, q, ms)
    decreases all, 0
  {
    if DupIn(f, all.value).Some? {
      q, ms := FindValue(f, path, all.value);
      h, v := Index(f.n), all.value;
    } else {
      h, v, q, ms := FindItem(f.(n := f.n + 1), path, all.rest);
    }
  }

  /** A reported key is repeated by the object the error names. */
  lemma ErrorNamesPlace(top: Members, rest: seq<Token>) returns (path: seq<Hop>, ms: Members)
    requires Run([], Tokens(Object(top)) + rest) != Stopped(None)
    ensures var s := Run([], Tokens(Object(top)) + rest);
      && s.Stopped? && s.dup.Some?
      && Reaches(Object(top), path, Object(ms)) && RepeatsKey(ms, s.dup.value.key)
      && Place(s.dup.value.kind, s.dup.value.entry) == PlaceOf(path)
  {
    WalkIsSearch(top, rest);
    path, ms := FindMember(TOP, [], top);
    assert [] + path == path;
  }
}
