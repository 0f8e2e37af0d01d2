/** The walk over the JSON tokens of a fixture file that reports a repeated key. */
module FixtureKeys {
  import opened Fifo

  /** What the token reader delivers: delimiters, strings, and every other scalar. */
  datatype Token = OpenObj | OpenArr | CloseObj | CloseArr | Str(text: string) | Scalar

  datatype Kind = Top | Fixtures | Entry | Headers | Other

  /** One open object or array; entry is the 1-based fixture entry, 0 outside entries. */
  datatype Frame = Frame(obj: bool, expectKey: bool, curKey: string, keys: set<string>, kind: Kind, n: nat, entry: nat)

  /** A reported repetition: the key, and the kind and entry of the object it is in. */
  datatype Dup = Dup(key: string, kind: Kind, entry: nat)

  datatype State = Running(stack: seq<Frame>) | Stopped(dup: Option<Dup>) | Panicked

  function Advanced(f: Frame): Frame {
    if f.obj then f.(expectKey := true) else f.(n := f.n + 1)
  }

  /** Marks a value of the innermost frame as complete. */
  function ValueDone(stack: seq<Frame>): seq<Frame> {
    if stack == [] then stack else stack[|stack| - 1 := Advanced(stack[|stack| - 1])]
  }

  /** Closes the innermost frame; the walk ends with the outermost one. */
  function Pop(stack: seq<Frame>): State {
    if stack == [] then Panicked
    else
      var rest := stack[..|stack| - 1];
      if rest == [] then Stopped(None) else Running(ValueDone(rest))
  }

  /** The frame of a container opened inside f. */
  function Nested(f: Frame, obj: bool): Frame {
    var g := Frame(obj, obj, "", {}, Other, 0, 0);
    if f.kind == Top && f.curKey == "fixtures" && !obj then g.(kind := Fixtures)
    else if f.kind == Fixtures && obj then g.(kind := Entry, entry := f.n + 1)
    else if f.kind == Entry && f.curKey == "headers" && obj then g.(kind := Headers, entry := f.entry)
    else g
  }

  const TOP := Frame(true, true, "", {}, Top, 0, 0)

  function Step(stack: seq<Frame>, tok: Token): State {
    if stack == [] then
      match tok
      case OpenObj => Running([TOP])
      case CloseObj | CloseArr => Panicked
      case _ => Stopped(None)
    else
      var f := stack[|stack| - 1];
      if f.obj && f.expectKey then
        match tok
        case CloseObj => Pop(stack)
        case Str(key) =>
          if key in f.keys then Stopped(Some(Dup(key, f.kind, f.entry)))
          else Running(stack[|stack| - 1 := f.(keys := f.keys + {key}, curKey := key, expectKey := false)])
        case _ => Stopped(None)
      else
        match tok
        case OpenObj => Running(stack + [Nested(f, true)])
        case OpenArr => Running(stack + [Nested(f, false)])
        case CloseObj | CloseArr => Pop(stack)
        case _ => Running(ValueDone(stack))
  }

  function Run(stack: seq<Frame>, toks: seq<Token>): State
    decreases |toks|
  {
    if toks == [] then Running(stack)
    else
      var s := Step(stack, toks[0]);
      if s.Running? then Run(s.stack, toks[1..]) else s
  }

  /** Delimiters close only what is open, as the token reader guarantees. */
  predicate Closes(depth: nat, toks: seq<Token>)
    decreases |toks|
  {
    toks == []
    || match toks[0]
       case OpenObj | OpenArr => Closes(depth + 1, toks[1..])
       case CloseObj | CloseArr => depth > 0 && Closes(depth - 1, toks[1..])
       case _ => Closes(depth, toks[1..])
  }

  /** The token loop; the tokens are those read before the first read error or the end. */
  method CheckDuplicateKeys(toks: seq<Token>) returns (dup: Option<Dup>)
    requires Closes(0, toks)
    ensures var s := Run([], toks); !s.Panicked? && dup == if s.Stopped? then s.dup else None
  {
    var stack: seq<Frame>, i := [], 0;
    while i < |toks|
      invariant 0 <= i <= |toks| && Run([], toks) == Run(stack, toks[i..]) && Closes(|stack|, toks[i..])
    {
      var tok := toks[i];
      assert toks[i..][0] == tok && toks[i..][1..] == toks[i + 1..];
      ghost var before := stack;
      i := i + 1;
      if stack != [] && stack[|stack| - 1].obj && stack[|stack| - 1].expectKey {
        var top := stack[|stack| - 1];
        if tok.CloseObj? {
          stack := stack[..|stack| - 1];
          if stack == [] {
            return None;
          }
          stack := ValueDone(stack);
        } else if tok.Str? {
          if tok.text in top.keys {
            return Some(Dup(tok.text, top.kind, top.entry));
          }
          top := top.(keys := top.keys + {tok.text}, curKey := tok.text, expectKey := false);
          stack := stack[|stack| - 1 := top];
        } else {
          return None;
        }
      } else if tok.Str? || tok.Scalar? {
        if stack == [] {
          return None;
        }
        stack := ValueDone(stack);
      } else if tok.OpenObj? || tok.OpenArr? {
        var f := Frame(tok.OpenObj?, tok.OpenObj?, "", {}, Other, 0, 0);
        if stack == [] {
          if !f.obj {
            return None;
          }
          f := f.(kind := Top);
        } else {
          var top := stack[|stack| - 1];
          if top.kind == Top && top.curKey == "fixtures" && !f.obj {
            f := f.(kind := Fixtures);
          } else if top.kind == Fixtures && f.obj {
            f := f.(kind := Entry, entry := top.n + 1);
          } else if top.kind == Entry && top.curKey == "headers" && f.obj {
            f := f.(kind := Headers, entry := top.entry);
          }
        }
        stack := stack + [f];
      } else {
        stack := stack[..|stack| - 1];
        if stack == [] {
          return None;
        }
        stack := ValueDone(stack);
      }
      assert Step(before, tok) == Running(stack);
    }
    return None;
  }
}
