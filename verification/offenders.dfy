/** The offender table: per-class alert counts, shun windows and their undo, as functions of the table. */
module Offenders {
  import opened Fifo
  import opened Severity

  // A normalised source address. Callers pass None for an address that does not parse.
  type Ip = string

  const MAX_SHUN_PROTOCOLS := 8
  const EVICT_SCAN := 64
  const DEFAULT_MAX_TRACKED := 20000
  const MAX_DURATION := 0x7FFF_FFFF_FFFF_FFFF
  // Seven days in nanoseconds.
  const DEFAULT_RESET := 7 * 24 * 3600 * 1_000_000_000

  datatype Config = Config(shun: bool, repeatAfter: int, repeat: int, max: int, reset: int)

  type Settings = c: Config | c.repeatAfter >= 1 && c.max >= 1 && c.reset >= 1
    witness Config(false, 5, 0, DEFAULT_MAX_TRACKED, DEFAULT_RESET)

  /** Fills in the defaults. A defaulted reset never undercuts the repeat cooldown. */
  function Configure(raw: Config): (c: Settings)
    ensures raw.reset <= 0 && raw.repeat <= MAX_DURATION ==> c.repeat <= c.reset
    ensures raw.reset <= 0 && raw.repeat <= MAX_DURATION / 2 ==> 2 * c.repeat <= c.reset
    ensures raw.repeatAfter >= 1 && raw.max >= 1 && raw.reset >= 1 ==> c == raw
  {
    var reset :=
      if raw.reset > 0 then raw.reset
      else if raw.repeat <= DEFAULT_RESET / 2 then DEFAULT_RESET
      else if raw.repeat > MAX_DURATION / 2 then MAX_DURATION
      else 2 * raw.repeat;
    Config(raw.shun,
           if raw.repeatAfter < 1 then 5 else raw.repeatAfter,
           raw.repeat,
           if raw.max <= 0 then DEFAULT_MAX_TRACKED else raw.max,
           reset)
  }

  // Accepted alerts per class: probe, attack, scan.
  type Counts = c: seq<nat> | |c| == 3 witness [0, 0, 0]

  datatype Offender = Offender(
    counts: Counts, last: Time,
    shunStart: Time, shunUntil: Time, winID: nat, suppressed: nat, protos: set<string>,
    active: bool)

  const FRESH := Offender([0, 0, 0], 0, 0, 0, 0, 0, {}, false)

  /** One shun summary log line; the source is the key it is filed under. */
  datatype Summary = Summary(count: nat, protos: set<string>, span: int)

  datatype State = State(entries: map<Ip, Offender>, order: seq<Ip>, active: set<Ip>, nextWin: nat)

  const EMPTY := State(map[], [], {}, 0)

  /** What an accepted alert recorded. win is the window it opened, 0 for none. */
  datatype Mark = Mark(ok: bool, key: Ip, idx: nat, win: nat)

  const NO_MARK := Mark(false, "", 0, 0)

  /** A table, the summaries written on the way to it and the sources dropped by silence or eviction. */
  datatype Outcome = Outcome(state: State, sums: map<Ip, Summary>, lost: set<Ip>)

  // ---------- invariant ----------

  ghost predicate Linked(s: State) {
    && Indexes(s.order, s.entries)
    && s.active == (set ip | ip in s.entries && s.entries[ip].active)
  }

  ghost function LastAt(s: State, i: int): Time {
    if 0 <= i < |s.order| && s.order[i] in s.entries then s.entries[s.order[i]].last else 0
  }

  /** The list is sorted by the last alert. */
  ghost predicate Ordered(s: State) {
    forall i, j :: 0 <= i < j < |s.order| ==> LastAt(s, i) <= LastAt(s, j)
  }

  ghost predicate Tidy(e: Offender, nextWin: nat) {
    && e.winID <= nextWin
    && (e.active ==> e.winID > 0)
    && (!e.active ==> e.suppressed == 0 && e.protos == {} && e.shunStart == 0 && e.shunUntil == 0)
    && |e.protos| <= MAX_SHUN_PROTOCOLS
    && (e.suppressed > 0 <==> e.protos != {})
  }

  ghost predicate Sound(c: Settings, s: State) {
    && Linked(s)
    && |s.entries| <= c.max
    && (forall ip :: ip in s.entries ==> Tidy(s.entries[ip], s.nextWin))
  }

  ghost predicate Valid(c: Settings, s: State) {
    Sound(c, s) && Ordered(s)
  }

  /** No entry was touched after now. */
  ghost predicate Before(s: State, now: Time) {
    forall ip :: ip in s.entries ==> s.entries[ip].last <= now
  }

  // ---------- windows ----------

  predicate Expired(c: Settings, e: Offender, now: Time) {
    now - e.last >= c.reset && now >= e.shunUntil
  }

  function Closed(e: Offender): Offender {
    e.(suppressed := 0, protos := {}, shunStart := 0, shunUntil := 0, active := false)
  }

  function SummaryOf(e: Offender, now: Time): Summary {
    Summary(e.suppressed, e.protos, (if now < e.shunUntil then now else e.shunUntil) - e.shunStart)
  }

  /** The summaries of closing the given sources: one for each that suppressed connections. */
  function Summaries(entries: map<Ip, Offender>, closing: set<Ip>, now: Time): map<Ip, Summary> {
    map ip | ip in closing && ip in entries && entries[ip].suppressed > 0 :: SummaryOf(entries[ip], now)
  }

  // ---------- dropping entries ----------

  /** Takes one source out of the map, the list and the active set. */
  function Detach(s: State, ip: Ip): (r: State)
    requires Linked(s) && ip in s.entries
    ensures Linked(r)
  {
    State(s.entries - {ip}, Remove(s.order, ip), s.active - {ip}, s.nextWin)
  }

  /** Drops one source; an open window is closed first. */
  function Drop(s: State, ip: Ip, now: Time): (r: Outcome)
    requires Linked(s) && ip in s.entries
    ensures Linked(r.state)
  {
    Outcome(Detach(s, ip), Summaries(s.entries, {ip}, now), {ip})
  }

  function Then(a: Outcome, b: Outcome): Outcome {
    Outcome(b.state, a.sums + b.sums, a.lost + b.lost)
  }

  /** Drops silent sources from the front of the list, up to the first live one. */
  function SweepFront(c: Settings, s: State, now: Time): (r: Outcome)
    requires Linked(s)
    ensures Linked(r.state)
    ensures r.state.order == [] || !Expired(c, r.state.entries[r.state.order[0]], now)
    decreases |s.order|
  {
    if s.order == [] || !Expired(c, s.entries[s.order[0]], now) then
      Outcome(s, map[], {})
    else
      var d := Drop(s, s.order[0], now);
      Then(d, SweepFront(c, d.state, now))
  }

  /** The first position without an open window among the oldest EVICT_SCAN, or 0. */
  function VictimIndex(s: State, i: nat): (v: nat)
    requires Linked(s) && i <= |s.order|
    ensures v == 0 || v < |s.order|
    ensures v < |s.order| && s.entries[s.order[v]].active ==>
              forall j :: i <= j < |s.order| && j < EVICT_SCAN ==> s.entries[s.order[j]].active
    decreases |s.order| - i
  {
    if i == |s.order| || i >= EVICT_SCAN then 0
    else if !s.entries[s.order[i]].active then i
    else VictimIndex(s, i + 1)
  }

  function Victim(s: State): (ip: Ip)
    requires Linked(s) && s.order != []
    ensures ip in s.entries
    ensures s.entries[ip].active ==>
              forall j :: 0 <= j < |s.order| && j < EVICT_SCAN ==> s.entries[s.order[j]].active
  {
    assert |s.active| >= |s.entries| ==> AllActive(s) by {
      if |s.active| >= |s.entries| { AllActiveBySize(s); }
    }
    s.order[if |s.active| < |s.entries| then VictimIndex(s, 0) else 0]
  }

  /** Frees a slot: silent sources first, then the oldest one without an open window. */
  function MakeRoom(c: Settings, s: State, now: Time): (r: Outcome)
    requires Linked(s)
    ensures Linked(r.state)
  {
    var swept := SweepFront(c, s, now);
    if |swept.state.entries| < c.max || swept.state.order == [] then swept
    else Then(swept, Drop(swept.state, Victim(swept.state), now))
  }

  /** r is s without the sources in r.lost, with exactly their summaries written. */
  ghost predicate Dropped(s: State, r: Outcome, now: Time) {
    && r.lost <= s.entries.Keys
    && r.state.entries == s.entries - r.lost
    && r.state.nextWin == s.nextWin
    && r.sums == Summaries(s.entries, r.lost, now)
  }

  lemma DropDrops(s: State, ip: Ip, now: Time)
    requires Linked(s) && ip in s.entries
    ensures Dropped(s, Drop(s, ip, now), now)
  {
  }

  lemma NothingDropped(s: State, now: Time)
    ensures Dropped(s, Outcome(s, map[], {}), now)
  {
    assert s.entries - {} == s.entries;
  }

  lemma DropsCompose(s: State, a: Outcome, b: Outcome, now: Time)
    requires Dropped(s, a, now) && Dropped(a.state, b, now)
    ensures Dropped(s, Then(a, b), now)
  {
  }

  /** The front sweep drops only silent sources. */
  lemma {:induction false} SweepFrontDrops(c: Settings, s: State, now: Time)
    requires Linked(s)
    ensures Dropped(s, SweepFront(c, s, now), now)
    ensures forall ip :: ip in SweepFront(c, s, now).lost ==> Expired(c, s.entries[ip], now)
    decreases |s.order|
  {
    if s.order != [] && Expired(c, s.entries[s.order[0]], now) {
      var d := Drop(s, s.order[0], now);
      DropDrops(s, s.order[0], now);
      SweepFrontDrops(c, d.state, now);
      DropsCompose(s, d, SweepFront(c, d.state, now), now);
    } else {
      NothingDropped(s, now);
    }
  }

  lemma DropShrinks(s: State, ip: Ip, now: Time)
    requires Linked(s) && ip in s.entries
    ensures |Drop(s, ip, now).state.entries| == |s.entries| - 1
  {
    assert Drop(s, ip, now).state.entries.Keys + {ip} == s.entries.Keys;
  }

  /** A slot is freed, and a source that is not silent loses an open window only if the oldest
      EVICT_SCAN of those left by the sweep all have one. */
  lemma MakeRoomFrees(c: Settings, s: State, now: Time)
    requires Linked(s) && |s.entries| <= c.max
    ensures var r := MakeRoom(c, s, now); Dropped(s, r, now) && |r.state.entries| < c.max
    ensures forall ip :: ip in MakeRoom(c, s, now).lost && s.entries[ip].active && !Expired(c, s.entries[ip], now) ==>
              var t := SweepFront(c, s, now).state;
              forall j :: 0 <= j < |t.order| && j < EVICT_SCAN ==> t.entries[t.order[j]].active
  {
    var swept := SweepFront(c, s, now);
    SweepFrontDrops(c, s, now);
    FewerKeys(swept.state.entries, s.entries);
    if swept.state.order == [] {
      IndexedSize(swept.state.order, swept.state.entries);
    } else if |swept.state.entries| >= c.max {
      var ip := Victim(swept.state);
      var d := Drop(swept.state, ip, now);
      DropDrops(swept.state, ip, now);
      DropsCompose(s, swept, d, now);
      DropShrinks(swept.state, ip, now);
    }
  }

  ghost predicate AllActive(s: State) {
    forall ip :: ip in s.entries ==> s.entries[ip].active
  }

  lemma AllActiveBySize(s: State)
    requires Linked(s) && |s.active| >= |s.entries|
    ensures AllActive(s)
  {
    assert s.active <= s.entries.Keys;
    if ip :| ip in s.entries && !s.entries[ip].active {
      Smaller(s.active, s.entries.Keys - {ip});
      assert false;
    }
  }

  lemma FewerKeys<K, V>(a: map<K, V>, b: map<K, V>)
    requires a.Keys <= b.Keys
    ensures |a| <= |b|
  {
    Smaller(a.Keys, b.Keys);
  }

  // ---------- operations ----------

  function ClassIndex(c: Class): int {
    Rank(c) - 1
  }

  /** The cooldown of the next accepted alert. */
  function WindowFor(c: Settings, s: State, key: Option<Ip>, cls: Class, base: int, now: Time): int {
    if base <= 0 || c.repeat <= 0 || key == None || cls == NoClass then base
    else
      var count :=
        if key.value in s.entries && !Expired(c, s.entries[key.value], now)
        then s.entries[key.value].counts[ClassIndex(cls)] else 0;
      if count + 1 >= c.repeatAfter then c.repeat else base
  }

  /** Drops the entry of key if the source was silent for the reset period. */
  function DropSilent(c: Settings, s: State, key: Ip, now: Time): (r: Outcome)
    requires Linked(s)
    ensures Linked(r.state)
  {
    if key in s.entries && Expired(c, s.entries[key], now) then Drop(s, key, now) else Outcome(s, map[], {})
  }

  /** The table before an alert for key is recorded: an expired entry of its own is gone and there is room. */
  function Prepare(c: Settings, s: State, key: Ip, now: Time): (r: Outcome)
    requires Linked(s)
    ensures Linked(r.state)
  {
    var own := DropSilent(c, s, key, now);
    if key in own.state.entries || |own.state.entries| < c.max then own
    else Then(own, MakeRoom(c, own.state, now))
  }

  /** An entry after one alert. win is the window it opened, 0 for none; ended tells that it closed an old one. */
  datatype Armed = Armed(e: Offender, nextWin: nat, win: nat, ended: bool)

  function Arm(c: Settings, e: Offender, cls: Class, window: int, now: Time, nextWin: nat): Armed
    requires cls != NoClass
  {
    var idx := ClassIndex(cls);
    var e1 := e.(counts := e.counts[idx := e.counts[idx] + 1], last := now);
    if !c.shun || cls == Probe || window <= 0 then Armed(e1, nextWin, 0, false)
    else if e1.active && now < e1.shunUntil then
      if now + window > e1.shunUntil
      then Armed(e1.(shunUntil := now + window, winID := nextWin + 1), nextWin + 1, 0, false)
      else Armed(e1, nextWin, 0, false)
    else
      var open := Closed(e1).(winID := nextWin + 1, shunStart := now, shunUntil := now + window, active := true);
      Armed(open, nextWin + 1, nextWin + 1, e1.active)
  }

  function EntryOr(s: State, key: Ip): Offender {
    if key in s.entries then s.entries[key] else FRESH
  }

  function Append(s: State, key: Ip, e: Offender, nextWin: nat): (r: State)
    requires Linked(s) && key !in s.entries
    ensures Linked(r)
  {
    State(s.entries[key := e], s.order + [key], if e.active then s.active + {key} else s.active, nextWin)
  }

  /** Stores the entry of key at the back of the list. */
  function Put(s: State, key: Ip, e: Offender, nextWin: nat): (r: State)
    requires Linked(s)
    ensures Linked(r)
  {
    Append(if key in s.entries then Detach(s, key) else s, key, e, nextWin)
  }

  /** Replaces the entry of key in place. */
  function Update(s: State, key: Ip, e: Offender): (r: State)
    requires Linked(s) && key in s.entries
    ensures Linked(r)
  {
    s.(entries := s.entries[key := e], active := if e.active then s.active + {key} else s.active - {key})
  }

  datatype Op =
    | Accept(key: Option<Ip>, cls: Class, window: int, now: Time)
    | Revert(mark: Mark, of: nat, now: Time)  // of: number of the operation that returned mark
    | Shunned(key: Option<Ip>, now: Time)
    | Reject(key: Option<Ip>, proto: string, now: Time)
    | Sweep(now: Time)
    | Flush(now: Time)

  /** The answers of one operation: the mark of Accept, the refusal of Shunned, the summaries, the lost sources. */
  datatype Out = Out(mark: Mark, refused: bool, sums: map<Ip, Summary>, lost: set<Ip>)

  datatype Result = Result(state: State, out: Out)

  function Quiet(s: State): Result {
    Result(s, Out(NO_MARK, false, map[], {}))
  }

  /** Records the alert of op in a table that is prepared for it. */
  function Record(c: Settings, p: Outcome, op: Op): (r: Result)
    requires Linked(p.state) && op.Accept? && op.key != None && op.cls != NoClass
    ensures Linked(r.state)
  {
    var key := op.key.value;
    var a := Arm(c, EntryOr(p.state, key), op.cls, op.window, op.now, p.state.nextWin);
    var ended := if a.ended then Summaries(p.state.entries, {key}, op.now) else map[];
    Result(Put(p.state, key, a.e, a.nextWin),
           Out(Mark(true, key, ClassIndex(op.cls), a.win), false, p.sums + ended, p.lost))
  }

  function DoAccept(c: Settings, s: State, op: Op): (r: Result)
    requires Linked(s) && op.Accept?
    ensures Linked(r.state)
  {
    if op.key == None || op.cls == NoClass then Quiet(s)
    else Record(c, Prepare(c, s, op.key.value, op.now), op)
  }

  /** The entry after the alert of mark is taken back. */
  function Disarm(e: Offender, mark: Mark): Offender
    requires mark.idx < 3
  {
    var e1 := if e.counts[mark.idx] > 0 then e.(counts := e.counts[mark.idx := e.counts[mark.idx] - 1]) else e;
    if mark.win != 0 && e.active && e.winID == mark.win then Closed(e1) else e1
  }

  function DoRevert(s: State, op: Op): (r: Result)
    requires Linked(s) && op.Revert?
    ensures Linked(r.state)
  {
    if !op.mark.ok || op.mark.idx >= 3 || op.mark.key !in s.entries then Quiet(s)
    else
      var key := op.mark.key;
      var e := Disarm(s.entries[key], op.mark);
      var sums := if s.entries[key].active && !e.active then Summaries(s.entries, {key}, op.now) else map[];
      var next := if !e.active && e.counts == [0, 0, 0] then Drop(s, key, op.now).state else Update(s, key, e);
      Result(next, Out(NO_MARK, false, sums, {}))
  }

  function DoShunned(c: Settings, s: State, op: Op): (r: Result)
    requires Linked(s) && op.Shunned?
    ensures Linked(r.state)
  {
    if !c.shun || op.key == None || op.key.value !in s.entries || !s.entries[op.key.value].active then Quiet(s)
    else if op.now < s.entries[op.key.value].shunUntil then Result(s, Out(NO_MARK, true, map[], {}))
    else
      Result(Update(s, op.key.value, Closed(s.entries[op.key.value])),
             Out(NO_MARK, false, Summaries(s.entries, {op.key.value}, op.now), {}))
  }

  function DoReject(s: State, op: Op): (r: Result)
    requires Linked(s) && op.Reject?
    ensures Linked(r.state)
  {
    if op.key == None || op.key.value !in s.entries || !s.entries[op.key.value].active then Quiet(s)
    else
      var e := s.entries[op.key.value];
      var protos := if |e.protos| < MAX_SHUN_PROTOCOLS then e.protos + {op.proto} else e.protos;
      Quiet(Update(s, op.key.value, e.(suppressed := e.suppressed + 1, protos := protos)))
  }

  predicate Ended(s: State, ip: Ip, now: Time) {
    ip in s.entries && s.entries[ip].active && now >= s.entries[ip].shunUntil
  }

  /** Closes every window that is over. */
  function CloseEnded(s: State, now: Time): (r: State)
    requires Linked(s)
    ensures Linked(r)
  {
    s.(entries := map ip | ip in s.entries :: if Ended(s, ip, now) then Closed(s.entries[ip]) else s.entries[ip],
       active := set ip | ip in s.active && !Ended(s, ip, now))
  }

  function DoSweep(c: Settings, s: State, op: Op): (r: Result)
    requires Linked(s) && op.Sweep?
    ensures Linked(r.state)
  {
    var ended := set ip | ip in s.active && Ended(s, ip, op.now);
    var swept := SweepFront(c, CloseEnded(s, op.now), op.now);
    Result(swept.state, Out(NO_MARK, false, Summaries(s.entries, ended, op.now) + swept.sums, swept.lost))
  }

  /** Writes the summary of every open window and keeps the windows. */
  function DoFlush(s: State, op: Op): (r: Result)
    requires Linked(s) && op.Flush?
    ensures Linked(r.state)
  {
    var entries := map ip | ip in s.entries ::
      if s.entries[ip].active && s.entries[ip].suppressed > 0
      then s.entries[ip].(suppressed := 0, protos := {}, shunStart := op.now) else s.entries[ip];
    Result(s.(entries := entries), Out(NO_MARK, false, Summaries(s.entries, s.active, op.now), {}))
  }

  function Step(c: Settings, s: State, op: Op): (r: Result)
    requires Linked(s)
    ensures Linked(r.state)
  {
    match op
    case Accept(_, _, _, _) => DoAccept(c, s, op)
    case Revert(_, _, _) => DoRevert(s, op)
    case Shunned(_, _) => DoShunned(c, s, op)
    case Reject(_, _, _) => DoReject(s, op)
    case Sweep(_) => DoSweep(c, s, op)
    case Flush(_) => DoFlush(s, op)
  }
}
