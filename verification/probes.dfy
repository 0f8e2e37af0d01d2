/** The probe log: probe sessions per source and window, written out as summaries. */
module Probes {
  import opened Fifo

  // The summary window; aggregation runs only with a positive one.
  type Window = w: nat | w > 0 witness 1

  datatype Config = Config(window: Window, maxEntries: int)

  datatype Entry = Entry(start: Time, sessions: nat, protos: map<string, nat>)

  /** entries are the pending summaries, order their keys by the start of the window. */
  datatype State = State(entries: map<string, Entry>, order: seq<string>, closed: bool)

  const EMPTY := State(map[], [], false)

  /** One probe summary log line. */
  datatype Summary = Summary(ip: string, entry: Entry, span: int)

  ghost predicate Linked(s: State) {
    Indexes(s.order, s.entries)
  }

  function Bound(c: Config): nat {
    if c.maxEntries < 1 then 1 else c.maxEntries
  }

  predicate Due(c: Config, e: Entry, now: Time) {
    now - e.start >= c.window
  }

  function Detach(s: State, ip: string): (r: State)
    requires Linked(s) && ip in s.entries
    ensures Linked(r)
  {
    State(s.entries - {ip}, Remove(s.order, ip), s.closed)
  }

  function Line(c: Config, s: State, ip: string, now: Time): Summary
    requires ip in s.entries
  {
    var elapsed := now - s.entries[ip].start;
    Summary(ip, s.entries[ip], if elapsed > c.window then c.window else elapsed)
  }

  /** The log after an operation, the lines it wrote and whether a session was recorded. */
  datatype Result = Result(state: State, lines: seq<Summary>, recorded: bool)

  /** The oldest sources up to the first whose window has not elapsed; all of them with all set. */
  function DueKeys(c: Config, entries: map<string, Entry>, order: seq<string>, all: bool, now: Time): (ks: seq<string>)
    requires forall k :: k in order ==> k in entries
    ensures ks <= order
  {
    if order == [] || (!all && !Due(c, entries[order[0]], now)) then []
    else [order[0]] + DueKeys(c, entries, order[1..], all, now)
  }

  /** The sources written out before a session of ip is recorded: its own when its window has elapsed,
      else the oldest when a new entry finds the log full. */
  function Outgoing(c: Config, s: State, ip: string, now: Time): seq<string>
    requires Linked(s)
  {
    var own := if ip in s.entries && Due(c, s.entries[ip], now) then [ip] else [];
    var t := if own != [] then Detach(s, ip) else s;
    own + if ip !in t.entries && |t.entries| >= c.maxEntries && t.order != [] then [t.order[0]] else []
  }

  function Emit(c: Config, s: State, ips: seq<string>, now: Time): (r: Result)
    requires Linked(s) && NoDup(ips) && forall k :: k in ips ==> k in s.entries
    ensures Linked(r.state)
    decreases |ips|
  {
    if ips == [] then Result(s, [], false)
    else
      var rest := Emit(c, Detach(s, ips[0]), ips[1..], now);
      Result(rest.state, [Line(c, s, ips[0], now)] + rest.lines, false)
  }

  function Bump(e: Entry, proto: string): Entry {
    Entry(e.start, e.sessions + 1, e.protos[proto := (if proto in e.protos then e.protos[proto] else 0) + 1])
  }

  /** Adds a session to the entry of ip, which is created at the back of the list if needed. */
  function Add(s: State, ip: string, proto: string, now: Time): (r: State)
    requires Linked(s)
    ensures Linked(r)
  {
    if ip in s.entries then s.(entries := s.entries[ip := Bump(s.entries[ip], proto)])
    else State(s.entries[ip := Bump(Entry(now, 0, map[]), proto)], s.order + [ip], s.closed)
  }

  datatype Op =
    | Record(ip: string, proto: string, now: Time)
    | FlushDue(now: Time)
    | Close(now: Time)
    | FlushAll(now: Time)

  function Flush(c: Config, s: State, all: bool, now: Time): (r: Result)
    requires Linked(s)
    ensures Linked(r.state)
  {
    Emit(c, s, DueKeys(c, s.entries, s.order, all, now), now)
  }

  lemma OutgoingFits(c: Config, s: State, ip: string, now: Time)
    requires Linked(s)
    ensures NoDup(Outgoing(c, s, ip, now)) && forall k :: k in Outgoing(c, s, ip, now) ==> k in s.entries
  {
  }

  function Step(c: Config, s: State, op: Op): (r: Result)
    requires Linked(s)
    ensures Linked(r.state)
  {
    match op
    case Record(ip, proto, now) =>
      if s.closed then Result(s, [], false)
      else
        OutgoingFits(c, s, ip, now);
        var out := Emit(c, s, Outgoing(c, s, ip, now), now);
        Result(Add(out.state, ip, proto, now), out.lines, true)
    case FlushDue(now) => Flush(c, s, false, now)
    case Close(_) => Result(s.(closed := true), [], false)
    case FlushAll(now) => Flush(c, s, true, now)
  }
}
