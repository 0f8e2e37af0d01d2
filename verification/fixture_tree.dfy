/** The walk over the tokens against the tree they spell. */
module FixtureTree {
  import opened Fifo
  import opened FixtureKeys

  datatype Json = Object(members: Members) | Array(items: Items) | Text(text: string) | Atom
  datatype Members = NoMember | Member(key: string, value: Json, rest: Members)
  datatype Items = NoItem | Item(value: Json, rest: Items)

  function Tokens(j: Json): seq<Token> {
    match j
    case Object(ms) => [OpenObj] + (MemberTokens(ms) + [CloseObj])
    case Array(vs) => [OpenArr] + (ItemTokens(vs) + [CloseArr])
    case Text(s) => [Str(s)]
    case Atom => [Scalar]
  }

  function MemberTokens(ms: Members): seq<Token> {
    match ms
    case NoMember => []
    case Member(k, v, rest) => [Str(k)] + (Tokens(v) + MemberTokens(rest))
  }

  function ItemTokens(vs: Items): seq<Token> {
    match vs
    case NoItem => []
    case Item(v, rest) => Tokens(v) + ItemTokens(rest)
  }

  // ---- the first repetition of a tree in document order ----

  /** The first repetition inside a value of frame f. */
  function DupIn(f: Frame, j: Json): Option<Dup>
    decreases j
  {
    match j
    case Object(ms) => MembersDup(Nested(f, true), ms)
    case Array(vs) => ItemsDup(Nested(f, false), vs)
    case _ => None
  }

  /** The frame once it has read a key. */
  function Keyed(f: Frame, key: string): Frame {
    f.(keys := f.keys + {key}, curKey := key, expectKey := false)
  }

  function MembersDup(f: Frame, ms: Members): Option<Dup>
    decreases ms
  {
    match ms
    case NoMember => None
    case Member(k, v, rest) =>
      if k in f.keys then Some(Dup(k, f.kind, f.entry))
      else
        var g := Keyed(f, k);
        var d := DupIn(g, v);
        if d.Some? then d else MembersDup(g.(expectKey := true), rest)
  }

  function ItemsDup(f: Frame, vs: Items): Option<Dup>
    decreases vs
  {
    match vs
    case NoItem => None
    case Item(v, rest) =>
      var d := DupIn(f, v);
      if d.Some? then d else ItemsDup(f.(n := f.n + 1), rest)
  }

  // ---- the walk finds it ----

  lemma TopOf(base: seq<Frame>, f: Frame)
    ensures var s := base + [f];
      && s != [] && s[|s| - 1] == f && s[..|s| - 1] == base
      && ValueDone(s) == base + [Advanced(f)]
      && forall g :: s[|s| - 1 := g] == base + [g]
  {
  }

  lemma RunStep(stack: seq<Frame>, tok: Token, toks: seq<Token>)
    ensures Run(stack, [tok] + toks) ==
      var s := Step(stack, tok); if s.Running? then Run(s.stack, toks) else s
  {
    assert ([tok] + toks)[1..] == toks;
  }

  lemma Assoc<T>(a: seq<T>, b: seq<T>, c: seq<T>)
    ensures (a + b) + c == a + (b + c)
  {
  }

  /** What the walk does after the container on top of base is closed. */
  function AfterPop(base: seq<Frame>, rest: seq<Token>): State {
    if base == [] then Stopped(None) else Run(ValueDone(base), rest)
  }

  /** A value runs to its first repetition, or leaves the frame advanced by one value. */
  lemma {:induction false} ValueRuns(base: seq<Frame>, f: Frame, j: Json, rest: seq<Token>)
    requires !(f.obj && f.expectKey)
    ensures Run(base + [f], Tokens(j) + rest) ==
      if DupIn(f, j).Some? then Stopped(DupIn(f, j)) else Run(base + [Advanced(f)], rest)
    decreases j, 0
  {
    var stack := base + [f];
    TopOf(base, f);
    match j {
      case Object(ms) =>
        var g, toks := Nested(f, true), MemberTokens(ms) + [CloseObj];
        Assoc([OpenObj], toks, rest);
        Assoc(MemberTokens(ms), [CloseObj], rest);
        RunStep(stack, OpenObj, toks + rest);
        MembersRun(stack, g, ms, rest);
      case Array(vs) =>
        var g, toks := Nested(f, false), ItemTokens(vs) + [CloseArr];
        Assoc([OpenArr], toks, rest);
        Assoc(ItemTokens(vs), [CloseArr], rest);
        RunStep(stack, OpenArr, toks + rest);
        ItemsRun(stack, g, vs, rest);
      case Text(s) =>
        RunStep(stack, Str(s), rest);
      case Atom =>
        RunStep(stack, Scalar, rest);
    }
  }

  lemma {:induction false} MembersRun(base: seq<Frame>, f: Frame, ms: Members, rest: seq<Token>)
    requires f.obj && f.expectKey
    ensures Run(base + [f], MemberTokens(ms) + ([CloseObj] + rest)) ==
      if MembersDup(f, ms).Some? then Stopped(MembersDup(f, ms)) else AfterPop(base, rest)
    decreases ms, 0
  {
    var stack, end := base + [f], [CloseObj] + rest;
    TopOf(base, f);
    match ms {
      case NoMember =>
        assert [] + end == end;
        RunStep(stack, CloseObj, rest);
      case Member(k, v, more) =>
        var g := Keyed(f, k);
        Assoc([Str(k)], Tokens(v) + MemberTokens(more), end);
        Assoc(Tokens(v), MemberTokens(more), end);
        RunStep(stack, Str(k), Tokens(v) + (MemberTokens(more) + end));
        if k !in f.keys {
          ValueRuns(base, g, v, MemberTokens(more) + end);
          MembersRun(base, g.(expectKey := true), more, rest);
        }
    }
  }

  lemma {:induction false} ItemsRun(base: seq<Frame>, f: Frame, vs: Items, rest: seq<Token>)
    requires !f.obj
    ensures Run(base + [f], ItemTokens(vs) + ([CloseArr] + rest)) ==
      if ItemsDup(f, vs).Some? then Stopped(ItemsDup(f, vs)) else AfterPop(base, rest)
    decreases vs, 0
  {
    var stack, end := base + [f], [CloseArr] + rest;
    TopOf(base, f);
    match vs {
      case NoItem =>
        assert [] + end == end;
        RunStep(stack, CloseArr, rest);
      case Item(v, more) =>
        Assoc(Tokens(v), ItemTokens(more), end);
        ValueRuns(base, f, v, ItemTokens(more) + end);
        ItemsRun(base, f.(n := f.n + 1), more, rest);
    }
  }

  /** The walk over the tokens of an object, whatever follows it, is the search in its tree. */
  lemma WalkIsSearch(ms: Members, rest: seq<Token>)
    ensures Run([], Tokens(Object(ms)) + rest) == Stopped(MembersDup(TOP, ms))
  {
    var toks := MemberTokens(ms) + [CloseObj];
    Assoc([OpenObj], toks, rest);
    Assoc(MemberTokens(ms), [CloseObj], rest);
    RunStep([], OpenObj, toks + rest);
    assert [TOP] == [] + [TOP];
    MembersRun([], TOP, ms, rest);
  }

  /** What the walk reports for a cut stream it reports for the whole stream. */
  lemma {:induction false} CutStreamAgrees(stack: seq<Frame>, a: seq<Token>, b: seq<Token>)
    ensures var s := Run(stack, a); Run(stack, a + b) == if s.Running? then Run(s.stack, b) else s
    decreases |a|
  {
    if a == [] {
      assert a + b == b;
    } else {
      assert a == [a[0]] + a[1..] && a + b == [a[0]] + (a[1..] + b);
      RunStep(stack, a[0], a[1..] + b);
      var s := Step(stack, a[0]);
      if s.Running? {
        CutStreamAgrees(s.stack, a[1..], b);
      }
    }
  }

  // ---- an error if and only if some object repeats a key ----

  function KeysOf(ms: Members): set<string> {
    match ms
    case NoMember => {}
    case Member(k, _, rest) => {k} + KeysOf(rest)
  }

  predicate Repeats(ms: Members) {
    match ms
    case NoMember => false
    case Member(k, _, rest) => k in KeysOf(rest) || Repeats(rest)
  }

  /** Some object in the tree, at any depth, repeats a key. */
  predicate RepeatsSomewhere(j: Json) {
    match j
    case Object(ms) => Repeats(ms) || MembersRepeat(ms)
    case Array(vs) => ItemsRepeat(vs)
    case _ => false
  }

  predicate MembersRepeat(ms: Members) {
    ms.Member? && (RepeatsSomewhere(ms.value) || MembersRepeat(ms.rest))
  }

  predicate ItemsRepeat(vs: Items) {
    vs.Item? && (RepeatsSomewhere(vs.value) || ItemsRepeat(vs.rest))
  }

  lemma {:induction false} DupInIff(f: Frame, j: Json)
    ensures DupIn(f, j).Some? <==> RepeatsSomewhere(j)
    decreases j, 0
  {
    match j {
      case Object(ms) => MembersDupIff(Nested(f, true), ms);
      case Array(vs) => ItemsDupIff(Nested(f, false), vs);
      case _ =>
    }
  }

  lemma {:induction false} MembersDupIff(f: Frame, ms: Members)
    ensures MembersDup(f, ms).Some? <==> Repeats(ms) || MembersRepeat(ms) || !(f.keys !! KeysOf(ms))
    decreases ms, 0
  {
    if ms.Member? {
      var g := Keyed(f, ms.key);
      DupInIff(g, ms.value);
      MembersDupIff(g.(expectKey := true), ms.rest);
    }
  }

  lemma {:induction false} ItemsDupIff(f: Frame, vs: Items)
    ensures ItemsDup(f, vs).Some? <==> ItemsRepeat(vs)
    decreases vs, 0
  {
    if vs.Item? {
      DupInIff(f, vs.value);
      ItemsDupIff(f.(n := f.n + 1), vs.rest);
    }
  }

  /** The walk reports an error if and only if some object at any depth repeats a key. */
  lemma ErrorIff(ms: Members, rest: seq<Token>)
    ensures Run([], Tokens(Object(ms)) + rest).Stopped?
    ensures Run([], Tokens(Object(ms)) + rest).dup.Some? <==> RepeatsSomewhere(Object(ms))
  {
    WalkIsSearch(ms, rest);
    MembersDupIff(TOP, ms);
  }
}
