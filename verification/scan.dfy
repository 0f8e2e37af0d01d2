/** The scan tracker: which sources touch many protocols or ports in a short time. */
module Scans {
  import opened Fifo

  const MAX_SCAN_PORTS := 16
  const SCAN_PORTS := 5

  // The detection window, a positive constant of the program.
  type Window = w: nat | w > 0 witness 1

  /** window is the detection window, threshold the number of protocols that makes a scanner. */
  datatype Config = Config(window: Window, threshold: int, maxEntries: int)

  datatype Entry = Entry(last: Time, touched: map<string, Time>, ports: map<int, Time>)

  const FRESH := Entry(0, map[], map[])

  datatype State = State(entries: map<string, Entry>, order: seq<string>)

  const EMPTY := State(map[], [])

  predicate Recent(c: Config, at: Time, now: Time) {
    now - at < c.window
  }

  ghost predicate Linked(s: State) {
    Indexes(s.order, s.entries)
  }

  function Bound(c: Config): nat {
    if c.maxEntries < 1 then 1 else c.maxEntries
  }

  ghost predicate Valid(c: Config, s: State) {
    Linked(s) && |s.entries| <= Bound(c)
  }

  // ---------- operations ----------

  function Detach(s: State, ip: string): (r: State)
    requires Linked(s) && ip in s.entries
    ensures Linked(r)
  {
    State(s.entries - {ip}, Remove(s.order, ip))
  }

  /** Drops sources without a touch in the window from the front of the list, up to the first live one. */
  function SweepFront(c: Config, s: State, now: Time): (r: State)
    requires Linked(s)
    ensures Linked(r)
    ensures r.order == [] || Recent(c, r.entries[r.order[0]].last, now)
    decreases |s.order|
  {
    if s.order == [] || Recent(c, s.entries[s.order[0]].last, now) then s
    else SweepFront(c, Detach(s, s.order[0]), now)
  }

  /** The live source that a touch of ip evicts, if any. */
  function Evictee(c: Config, s: State, ip: string, now: Time): Option<string>
    requires Linked(s)
  {
    if ip in s.entries || |s.entries| < c.maxEntries then None
    else
      var swept := SweepFront(c, s, now);
      if |swept.entries| >= c.maxEntries && swept.order != [] then Some(swept.order[0]) else None
  }

  /** The tracker with the entry of ip taken out, or with room for it. */
  function Ready(c: Config, s: State, ip: string, now: Time): (r: State)
    requires Linked(s)
    ensures Linked(r) && ip !in r.entries
  {
    SweepFrontKeeps(c, s, now);
    if ip in s.entries then Detach(s, ip)
    else if |s.entries| < c.maxEntries then s
    else
      match Evictee(c, s, ip, now)
      case None => SweepFront(c, s, now)
      case Some(v) => Detach(SweepFront(c, s, now), v)
  }

  function Append(s: State, ip: string, e: Entry): (r: State)
    requires Linked(s) && ip !in s.entries
    ensures Linked(r)
  {
    State(s.entries[ip := e], s.order + [ip])
  }

  function EntryOr(s: State, ip: string): Entry {
    if ip in s.entries then s.entries[ip] else FRESH
  }

  function Unexpired<K>(c: Config, m: map<K, Time>, now: Time): map<K, Time> {
    map k | k in m && Recent(c, m[k], now) :: m[k]
  }

  /** The port is new and the set of live ports is full. */
  predicate Skips(c: Config, e: Entry, port: int, now: Time) {
    var live := Unexpired(c, e.ports, now);
    port > 0 && port !in live && |live| >= MAX_SCAN_PORTS
  }

  function Touched(c: Config, e: Entry, proto: string, port: int, now: Time): Entry {
    var live := Unexpired(c, e.ports, now);
    Entry(now, Unexpired(c, e.touched[proto := now], now),
          if port > 0 && !Skips(c, e, port, now) then live[port := now] else live)
  }

  predicate Verdict(c: Config, e: Entry) {
    |e.touched| >= c.threshold || |e.ports| >= SCAN_PORTS
  }

  datatype Op = Touch(ip: string, proto: string, port: int, now: Time) | Cleanup(now: Time)

  datatype Out = Out(scanner: bool, evicted: Option<string>, skipped: bool)

  datatype Result = Result(state: State, out: Out)

  function Step(c: Config, s: State, op: Op): (r: Result)
    requires Linked(s)
    ensures Linked(r.state)
  {
    match op
    case Touch(ip, proto, port, now) =>
      var e0 := EntryOr(s, ip);
      var e := Touched(c, e0, proto, port, now);
      Result(Append(Ready(c, s, ip, now), ip, e),
             Out(Verdict(c, e), Evictee(c, s, ip, now), Skips(c, e0, port, now)))
    case Cleanup(now) => Result(SweepFront(c, s, now), Out(false, None, false))
  }

  // ---------- what is dropped ----------

  lemma {:induction false} SweepFrontKeeps(c: Config, s: State, now: Time)
    requires Linked(s)
    ensures var r := SweepFront(c, s, now);
      && (forall k :: k in r.entries ==> k in s.entries && r.entries[k] == s.entries[k])
      && (forall k :: k in s.entries && k !in r.entries ==> !Recent(c, s.entries[k].last, now))
    decreases |s.order|
  {
    if s.order != [] && !Recent(c, s.entries[s.order[0]].last, now) {
      SweepFrontKeeps(c, Detach(s, s.order[0]), now);
    }
  }

  lemma ReadyKeeps(c: Config, s: State, ip: string, now: Time)
    requires Linked(s)
    ensures var r := Ready(c, s, ip, now);
      && (forall k :: k in r.entries ==> k in s.entries && r.entries[k] == s.entries[k])
      && (forall k :: k in s.entries && k !in r.entries && k != ip && Recent(c, s.entries[k].last, now) ==>
            Evictee(c, s, ip, now) == Some(k))
  {
    SweepFrontKeeps(c, s, now);
  }
}
