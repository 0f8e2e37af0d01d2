/** The alert cooldown: one alert per source and class within a window. */
module Cooldown {
  import opened Fifo
  import opened Severity

  /** window is the base cooldown, 0 turns the filter off; maxEntries bounds the index. */
  datatype Config = Config(window: int, maxEntries: int)

  datatype Entry = Entry(at: Time, win: int, slot: nat)

  /** seen is the index, order its keys with the oldest slot first. */
  datatype State = State(seen: map<string, Entry>, order: seq<string>, nextSlot: nat)

  const EMPTY := State(map[], [], 0)

  function Key(ip: string, cls: Class): string {
    ip + "|" + Name(cls)
  }

  lemma LastBar(ip: string, c: Class)
    ensures Key(ip, c)[|ip|] == '|'
    ensures forall i :: |ip| < i < |Key(ip, c)| ==> Key(ip, c)[i] != '|'
  {
    assert forall x :: x in Name(c) ==> x != '|';
    assert forall i :: |ip| < i < |Key(ip, c)| ==> Key(ip, c)[i] == Name(c)[i - |ip| - 1];
  }

  /** Sources and classes do not share keys. */
  lemma KeyInjective(ip1: string, c1: Class, ip2: string, c2: Class)
    requires Key(ip1, c1) == Key(ip2, c2)
    ensures ip1 == ip2 && c1 == c2
  {
    LastBar(ip1, c1);
    LastBar(ip2, c2);
    assert |ip1| == |ip2|;
    var k := Key(ip1, c1);
    assert k[..|ip1|] == ip1 && k[..|ip2|] == ip2;
    assert k[|ip1| + 1..] == Name(c1) && k[|ip2| + 1..] == Name(c2);
  }

  predicate Live(e: Entry, now: Time) {
    now - e.at < e.win
  }

  /** The class is in cooldown for the source. */
  predicate Cooling(seen: map<string, Entry>, ip: string, cls: Class, now: Time) {
    Key(ip, cls) in seen && Live(seen[Key(ip, cls)], now)
  }

  /** The same class or a higher one is in cooldown. */
  predicate Suppressed(seen: map<string, Entry>, ip: string, cls: Class, now: Time) {
    exists c :: c in CLASSES && Rank(c) >= Rank(cls) && Cooling(seen, ip, c, now)
  }

  // ---------- invariant ----------

  ghost predicate Linked(s: State) {
    Indexes(s.order, s.seen)
  }

  ghost function SlotAt(s: State, i: int): nat {
    if 0 <= i < |s.order| && s.order[i] in s.seen then s.seen[s.order[i]].slot else 0
  }

  /** Slots grow along the list, so it is ordered by the time the slots were taken. */
  ghost predicate Ordered(s: State) {
    && (forall i, j :: 0 <= i < j < |s.order| ==> SlotAt(s, i) < SlotAt(s, j))
    && (forall i :: 0 <= i < |s.order| ==> 0 < SlotAt(s, i) <= s.nextSlot)
  }

  function Bound(c: Config): nat {
    if c.maxEntries < 1 then 1 else c.maxEntries
  }

  ghost predicate Valid(c: Config, s: State) {
    Linked(s) && Ordered(s) && |s.seen| <= Bound(c)
  }

  // ---------- operations ----------

  function Detach(s: State, k: string): (r: State)
    requires Linked(s) && k in s.seen
    ensures Linked(r)
  {
    State(s.seen - {k}, Remove(s.order, k), s.nextSlot)
  }

  /** Drops expired entries from the front of the list, up to the first live one. */
  function SweepFront(s: State, now: Time): (r: State)
    requires Linked(s)
    ensures Linked(r) && r.nextSlot == s.nextSlot
    ensures r.order == [] || Live(r.seen[r.order[0]], now)
    decreases |s.order|
  {
    if s.order == [] || Live(s.seen[s.order[0]], now) then s else SweepFront(Detach(s, s.order[0]), now)
  }

  /** The key that makeRoom evicts after the sweep, if any. */
  function Evictee(c: Config, swept: State): Option<string> {
    if |swept.seen| >= c.maxEntries && swept.order != [] then Some(swept.order[0]) else None
  }

  function MakeRoom(c: Config, s: State, now: Time): (r: State)
    requires Linked(s)
    ensures Linked(r) && r.nextSlot == s.nextSlot
  {
    var swept := SweepFront(s, now);
    match Evictee(c, swept)
    case None => swept
    case Some(k) => Detach(swept, k)
  }

  function Append(s: State, k: string, e: Entry): (r: State)
    requires Linked(s) && k !in s.seen
    ensures Linked(r)
  {
    State(s.seen[k := e], s.order + [k], e.slot)
  }

  datatype Op =
    | Allow(ip: string, cls: Class, win: int, now: Time)  // win: the window the offender table gives
    | Release(key: string, slot: nat, now: Time)
    | Cleanup(now: Time)

  /** The answer of Allow and the entry it evicted. */
  datatype Out = Out(ok: bool, key: string, slot: nat, win: int, evicted: Option<Entry>)

  const NOTHING := Out(false, "", 0, 0, None)

  datatype Result = Result(state: State, out: Out)

  /** The state that is ready to take a new slot for key: its old slot is given up, or there is room. */
  function Ready(c: Config, s: State, key: string, now: Time): (r: State)
    requires Linked(s)
    ensures Linked(r) && key !in r.seen && r.nextSlot == s.nextSlot
  {
    if key in s.seen then Detach(s, key)
    else if |s.seen| >= c.maxEntries then
      assert forall k :: k in MakeRoom(c, s, now).seen ==> k in s.seen by { MakeRoomKeeps(c, s, now); }
      MakeRoom(c, s, now)
    else s
  }

  function EvictedBy(c: Config, s: State, key: string, now: Time): Option<Entry>
    requires Linked(s)
  {
    if key in s.seen || |s.seen| < c.maxEntries then None
    else
      var swept := SweepFront(s, now);
      match Evictee(c, swept)
      case None => None
      case Some(k) => Some(swept.seen[k])
  }

  function DoAllow(c: Config, s: State, op: Op): (r: Result)
    requires Linked(s) && op.Allow?
    ensures Linked(r.state)
  {
    if c.window == 0 then Result(s, Out(true, "", 0, 0, None))
    else if Suppressed(s.seen, op.ip, op.cls, op.now) then Result(s, NOTHING)
    else
      var key := Key(op.ip, op.cls);
      var slot := s.nextSlot + 1;
      Result(Append(Ready(c, s, key, op.now), key, Entry(op.now, op.win, slot)),
             Out(true, key, slot, op.win, EvictedBy(c, s, key, op.now)))
  }

  function DoRelease(s: State, op: Op): (r: State)
    requires Linked(s) && op.Release?
    ensures Linked(r)
  {
    if op.key != "" && op.key in s.seen && s.seen[op.key].slot == op.slot then Detach(s, op.key) else s
  }

  function Step(c: Config, s: State, op: Op): (r: Result)
    requires Linked(s)
    ensures Linked(r.state)
  {
    match op
    case Allow(_, _, _, _) => DoAllow(c, s, op)
    case Release(_, _, _) => Result(DoRelease(s, op), NOTHING)
    case Cleanup(_) => Result(if c.window == 0 then s else SweepFront(s, op.now), NOTHING)
  }

  // ---------- what an operation can drop ----------

  /** r keeps a part of the index of s, and whatever it drops is expired. */
  ghost predicate Keeps(s: State, r: State, now: Time) {
    && (forall k :: k in r.seen ==> k in s.seen && r.seen[k] == s.seen[k])
    && (forall k :: k in s.seen && k !in r.seen ==> !Live(s.seen[k], now))
  }

  lemma {:induction false} SweepFrontKeeps(s: State, now: Time)
    requires Linked(s)
    ensures Keeps(s, SweepFront(s, now), now)
    decreases |s.order|
  {
    if s.order != [] && !Live(s.seen[s.order[0]], now) {
      SweepFrontKeeps(Detach(s, s.order[0]), now);
    }
  }

  /** Making room drops expired entries and at most one live one, the oldest left by the sweep. */
  lemma MakeRoomKeeps(c: Config, s: State, now: Time)
    requires Linked(s)
    ensures var r := MakeRoom(c, s, now);
      && (forall k :: k in r.seen ==> k in s.seen && r.seen[k] == s.seen[k])
      && (forall k :: k in s.seen && k !in r.seen && Live(s.seen[k], now) ==>
            Evictee(c, SweepFront(s, now)) == Some(k) && SweepFront(s, now).seen[k] == s.seen[k])
  {
    SweepFrontKeeps(s, now);
  }

  /** Getting ready gives up the old slot of the key, expired entries and at most the evicted one. */
  lemma ReadyKeeps(c: Config, s: State, key: string, now: Time)
    requires Linked(s)
    ensures var r := Ready(c, s, key, now);
      && (forall k :: k in r.seen ==> k in s.seen && r.seen[k] == s.seen[k])
      && (forall k :: k in s.seen && k !in r.seen && k != key && Live(s.seen[k], now) ==>
            EvictedBy(c, s, key, now) == Some(s.seen[k]))
  {
    MakeRoomKeeps(c, s, now);
  }
}
