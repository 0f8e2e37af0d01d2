/** Every run of the probe log: no session is lost, and a summary stays within its window. */
module ProbeRuns {
  import opened Fifo
  import opened Probes

  // ---------- what is written out ----------

  lemma {:induction false} EmitKeeps(c: Config, s: State, ips: seq<string>, now: Time)
    requires Linked(s) && NoDup(ips) && forall k :: k in ips ==> k in s.entries
    ensures var r := Emit(c, s, ips, now);
      && (forall k :: k in r.state.entries <==> k in s.entries && k !in ips)
      && (forall k :: k in r.state.entries ==> r.state.entries[k] == s.entries[k])
      && r.state.closed == s.closed
      && |r.lines| == |ips| && forall i :: 0 <= i < |ips| ==> r.lines[i] == Line(c, s, ips[i], now)
    decreases |ips|
  {
    if ips != [] {
      EmitKeeps(c, Detach(s, ips[0]), ips[1..], now);
    }
  }

  /** The sessions of an entry: all of them, or those of one protocol. */
  function Tally(e: Entry, proto: Option<string>): nat {
    match proto
    case None => e.sessions
    case Some(p) => if p in e.protos then e.protos[p] else 0
  }

  function Written(lines: seq<Summary>, ip: string, proto: Option<string>): nat {
    if lines == [] then 0
    else (if lines[0].ip == ip then Tally(lines[0].entry, proto) else 0) + Written(lines[1..], ip, proto)
  }

  function Pending(s: State, ip: string, proto: Option<string>): nat {
    if ip in s.entries then Tally(s.entries[ip], proto) else 0
  }

  lemma {:induction false} EmitConserves(c: Config, s: State, ips: seq<string>, now: Time, ip: string, proto: Option<string>)
    requires Linked(s) && NoDup(ips) && forall k :: k in ips ==> k in s.entries
    ensures var r := Emit(c, s, ips, now); Written(r.lines, ip, proto) + Pending(r.state, ip, proto) == Pending(s, ip, proto)
    decreases |ips|
  {
    if ips != [] {
      EmitConserves(c, Detach(s, ips[0]), ips[1..], now, ip, proto);
    }
  }

  // ---------- runs ----------

  datatype Run = Run(ops: seq<Op>, states: seq<State>, lines: seq<seq<Summary>>, recorded: seq<bool>)

  ghost predicate Shaped(r: Run) {
    |r.states| == |r.ops| + 1 && |r.lines| == |r.recorded| == |r.ops|
  }

  ghost predicate Steps(c: Config, r: Run, n: nat)
    requires Shaped(r)
  {
    n < |r.ops| ==>
      Linked(r.states[n]) && Step(c, r.states[n], r.ops[n]) == Result(r.states[n + 1], r.lines[n], r.recorded[n])
  }

  /** A run from the empty log. Clock readings do not go back in lock order. */
  ghost predicate IsRun(c: Config, r: Run) {
    && Shaped(r) && r.states[0] == EMPTY
    && (forall n: nat :: Steps(c, r, n))
    && (forall i, j :: 0 <= i < j < |r.ops| ==> r.ops[i].now <= r.ops[j].now)
  }

  predicate Records(r: Run, i: nat, ip: string) {
    i < |r.ops| && i < |r.recorded| && r.ops[i].Record? && r.ops[i].ip == ip && r.recorded[i]
  }

  predicate Matches(op: Op, proto: Option<string>) {
    op.Record? && (proto == None || proto == Some(op.proto))
  }

  // ---------- no session is lost ----------

  /** The sessions of ip recorded by the first n operations. */
  function Recorded(r: Run, n: nat, ip: string, proto: Option<string>): nat
    requires n <= |r.ops|
  {
    if n == 0 then 0
    else Recorded(r, n - 1, ip, proto) + if Records(r, n - 1, ip) && Matches(r.ops[n - 1], proto) then 1 else 0
  }

  /** The sessions in the summaries of ip written by the first n operations. */
  function Reported(r: Run, n: nat, ip: string, proto: Option<string>): nat
    requires n <= |r.lines|
  {
    if n == 0 then 0 else Reported(r, n - 1, ip, proto) + Written(r.lines[n - 1], ip, proto)
  }

  lemma AddTallies(s: State, ip: string, proto: string, now: Time, k: string, p: Option<string>)
    requires Linked(s)
    ensures Pending(Add(s, ip, proto, now), k, p) == Pending(s, k, p) + if k == ip && (p == None || p == Some(proto)) then 1 else 0
  {
  }

  lemma DueKeysFit(c: Config, s: State, all: bool, now: Time)
    requires Linked(s)
    ensures NoDup(DueKeys(c, s.entries, s.order, all, now))
    ensures forall k :: k in DueKeys(c, s.entries, s.order, all, now) ==> k in s.entries
  {
  }

  lemma StepConserves(c: Config, s: State, op: Op, ip: string, proto: Option<string>)
    requires Linked(s)
    ensures var r := Step(c, s, op);
      Written(r.lines, ip, proto) + Pending(r.state, ip, proto)
        == Pending(s, ip, proto) + if op.Record? && op.ip == ip && r.recorded && Matches(op, proto) then 1 else 0
  {
    match op {
      case Record(k, p, now) =>
        OutgoingFits(c, s, k, now);
        EmitConserves(c, s, Outgoing(c, s, k, now), now, ip, proto);
        AddTallies(Emit(c, s, Outgoing(c, s, k, now), now).state, k, p, now, ip, proto);
      case FlushDue(now) =>
        DueKeysFit(c, s, false, now);
        EmitConserves(c, s, DueKeys(c, s.entries, s.order, false, now), now, ip, proto);
      case Close(_) =>
      case FlushAll(now) =>
        DueKeysFit(c, s, true, now);
        EmitConserves(c, s, DueKeys(c, s.entries, s.order, true, now), now, ip, proto);
    }
  }

  lemma RunStepConserves(c: Config, r: Run, n: nat, ip: string, proto: Option<string>)
    requires IsRun(c, r) && n < |r.ops|
    ensures Written(r.lines[n], ip, proto) + Pending(r.states[n + 1], ip, proto)
         == Pending(r.states[n], ip, proto) + if Records(r, n, ip) && Matches(r.ops[n], proto) then 1 else 0
  {
    assert Steps(c, r, n);
    StepConserves(c, r.states[n], r.ops[n], ip, proto);
  }

  /** Recorded sessions are in a written summary or pending, in total and per protocol. */
  lemma {:induction false} SessionsConserved(c: Config, r: Run, n: nat, ip: string, proto: Option<string>)
    requires IsRun(c, r) && n <= |r.ops|
    ensures Recorded(r, n, ip, proto) == Reported(r, n, ip, proto) + Pending(r.states[n], ip, proto)
  {
    if n > 0 {
      SessionsConserved(c, r, n - 1, ip, proto);
      RunStepConserves(c, r, n - 1, ip, proto);
    }
  }

  // ---------- a summary stays within its window ----------

  /** The sources an operation writes out. */
  function Leaving(c: Config, s: State, op: Op): seq<string>
    requires Linked(s)
  {
    match op
    case Record(k, _, now) => if s.closed then [] else Outgoing(c, s, k, now)
    case FlushDue(now) => DueKeys(c, s.entries, s.order, false, now)
    case Close(_) => []
    case FlushAll(now) => DueKeys(c, s.entries, s.order, true, now)
  }

  lemma StepLines(c: Config, s: State, op: Op)
    requires Linked(s)
    ensures var ks, r := Leaving(c, s, op), Step(c, s, op);
      && |r.lines| == |ks|
      && forall i :: 0 <= i < |ks| ==> ks[i] in s.entries && r.lines[i] == Line(c, s, ks[i], op.now)
  {
    match op {
      case Record(k, _, now) =>
        OutgoingFits(c, s, k, now);
        EmitKeeps(c, s, Outgoing(c, s, k, now), now);
      case FlushDue(now) => EmitKeeps(c, s, Leaving(c, s, op), now);
      case Close(_) =>
      case FlushAll(now) => EmitKeeps(c, s, Leaving(c, s, op), now);
    }
  }

  /** An entry stays until it is written out, and only a session of its own source changes it. */
  lemma StepEntry(c: Config, s: State, op: Op, ip: string)
    requires Linked(s)
    ensures var r, stays := Step(c, s, op), ip in s.entries && ip !in Leaving(c, s, op);
      if op.Record? && op.ip == ip && r.recorded then
        && ip in r.state.entries
        && r.state.entries[ip] == Bump(if stays then s.entries[ip] else Entry(op.now, 0, map[]), op.proto)
        && (stays ==> !Due(c, s.entries[ip], op.now))
      else
        && (stays <==> ip in r.state.entries)
        && (stays ==> r.state.entries[ip] == s.entries[ip])
  {
    match op {
      case Record(k, _, now) =>
        OutgoingFits(c, s, k, now);
        EmitKeeps(c, s, Outgoing(c, s, k, now), now);
      case FlushDue(now) => EmitKeeps(c, s, Leaving(c, s, op), now);
      case Close(_) =>
      case FlushAll(now) => EmitKeeps(c, s, Leaving(c, s, op), now);
    }
  }

  /** Some line of ip was written strictly between the two operations. */
  ghost predicate WrittenBetween(r: Run, i: nat, k: nat, ip: string)
    requires k <= |r.lines|
  {
    exists m, j :: i < m < k && 0 <= j < |r.lines[m]| && r.lines[m][j].ip == ip
  }

  predicate Covers(c: Config, e: Entry, at: Time) {
    e.start <= at < e.start + c.window
  }

  lemma StepCovers(c: Config, s: State, op: Op, ip: string, at: Time)
    requires Linked(s) && ip in s.entries && Covers(c, s.entries[ip], at) && ip !in Leaving(c, s, op)
    ensures ip in Step(c, s, op).state.entries && Covers(c, Step(c, s, op).state.entries[ip], at)
  {
    StepEntry(c, s, op, ip);
  }

  lemma RecordCovers(c: Config, s: State, op: Op)
    requires Linked(s) && op.Record? && Step(c, s, op).recorded
    requires op.ip in s.entries ==> s.entries[op.ip].start <= op.now
    ensures op.ip in Step(c, s, op).state.entries && Covers(c, Step(c, s, op).state.entries[op.ip], op.now)
  {
    StepEntry(c, s, op, op.ip);
  }

  lemma StepStarts(c: Config, s: State, op: Op, ip: string)
    requires Linked(s) && (ip in s.entries ==> s.entries[ip].start <= op.now)
    ensures ip in Step(c, s, op).state.entries ==> Step(c, s, op).state.entries[ip].start <= op.now
  {
    StepEntry(c, s, op, ip);
  }

  lemma {:induction false} RunStarts(c: Config, r: Run, n: nat, ip: string)
    requires IsRun(c, r) && n < |r.ops|
    ensures ip in r.states[n].entries ==> r.states[n].entries[ip].start <= r.ops[n].now
  {
    if n > 0 {
      RunStarts(c, r, n - 1, ip);
      assert Steps(c, r, n - 1);
      StepStarts(c, r.states[n - 1], r.ops[n - 1], ip);
    }
  }

  lemma {:induction false} SessionCovered(c: Config, r: Run, i: nat, k: nat, ip: string)
    requires IsRun(c, r) && Records(r, i, ip) && i < k <= |r.ops| && !WrittenBetween(r, i, k, ip)
    ensures ip in r.states[k].entries && Covers(c, r.states[k].entries[ip], r.ops[i].now)
    decreases k
  {
    assert Steps(c, r, k - 1);
    if k == i + 1 {
      RunStarts(c, r, i, ip);
      RecordCovers(c, r.states[i], r.ops[i]);
    } else {
      SessionCovered(c, r, i, k - 1, ip);
      NotLeaving(c, r, k - 1, ip);
      StepCovers(c, r.states[k - 1], r.ops[k - 1], ip, r.ops[i].now);
    }
  }

  lemma NotLeaving(c: Config, r: Run, n: nat, ip: string)
    requires IsRun(c, r) && n < |r.ops| && forall j :: 0 <= j < |r.lines[n]| ==> r.lines[n][j].ip != ip
    ensures Linked(r.states[n]) && ip !in Leaving(c, r.states[n], r.ops[n])
  {
    assert Steps(c, r, n);
    StepLines(c, r.states[n], r.ops[n]);
    forall i | 0 <= i < |Leaving(c, r.states[n], r.ops[n])| ensures Leaving(c, r.states[n], r.ops[n])[i] != ip {
      assert r.lines[n][i].ip != ip;
    }
  }

  lemma LineIsEntry(c: Config, r: Run, k: nat, j: nat)
    requires IsRun(c, r) && k < |r.ops| && j < |r.lines[k]|
    ensures var line := r.lines[k][j];
      line.ip in r.states[k].entries && line.entry == r.states[k].entries[line.ip] && line.span <= c.window
  {
    assert Steps(c, r, k);
    StepLines(c, r.states[k], r.ops[k]);
  }

  /** Every session that a summary counts was recorded less than one window after its start. */
  lemma SummaryWithinWindow(c: Config, r: Run, i: nat, k: nat, j: nat)
    requires IsRun(c, r) && i < k < |r.ops| && j < |r.lines[k]|
    requires Records(r, i, r.lines[k][j].ip) && !WrittenBetween(r, i, k, r.lines[k][j].ip)
    ensures var e := r.lines[k][j].entry; e.start <= r.ops[i].now < e.start + c.window
    ensures r.lines[k][j].span <= c.window
  {
    SessionCovered(c, r, i, k, r.lines[k][j].ip);
    LineIsEntry(c, r, k, j);
  }

  // ---------- closing ----------

  lemma {:induction false} AllKeysDue(c: Config, entries: map<string, Entry>, order: seq<string>, now: Time)
    requires forall k :: k in order ==> k in entries
    ensures DueKeys(c, entries, order, true, now) == order
  {
    if order != [] {
      AllKeysDue(c, entries, order[1..], now);
    }
  }

  lemma FlushAllEmpties(c: Config, s: State, now: Time)
    requires Linked(s)
    ensures Step(c, s, FlushAll(now)).state.entries == map[]
  {
    AllKeysDue(c, s.entries, s.order, now);
    DueKeysFit(c, s, true, now);
    EmitKeeps(c, s, s.order, now);
    var r := Step(c, s, FlushAll(now)).state;
    forall k ensures k !in r.entries {
      if k in s.entries { assert k in s.order; }
    }
  }

  lemma StepClosed(c: Config, s: State, op: Op)
    requires Linked(s) && s.closed
    ensures Step(c, s, op).state.closed
    ensures s.entries == map[] ==> Step(c, s, op).state.entries == map[]
  {
    DueKeysFit(c, s, false, op.now);
    EmitKeeps(c, s, DueKeys(c, s.entries, s.order, false, op.now), op.now);
    EmitKeeps(c, s, DueKeys(c, s.entries, s.order, true, op.now), op.now);
    var r := Step(c, s, op).state;
    if s.entries == map[] {
      assert forall k :: k !in r.entries;
    }
  }

  /** From the flush that follows the close on, nothing is pending: every recorded session was reported. */
  lemma {:induction false} ClosedLeavesNothing(c: Config, r: Run, i: nat, j: nat, n: nat)
    requires IsRun(c, r) && i < j < n <= |r.ops| && r.ops[i].Close? && r.ops[j].FlushAll?
    ensures r.states[n].closed && r.states[n].entries == map[]
    ensures forall ip, proto :: Recorded(r, n, ip, proto) == Reported(r, n, ip, proto)
  {
    StaysClosed(c, r, i, j);
    assert Steps(c, r, j);
    FlushAllEmpties(c, r.states[j], r.ops[j].now);
    StepClosed(c, r.states[j], r.ops[j]);
    StaysEmpty(c, r, j + 1, n);
    forall ip, proto ensures Recorded(r, n, ip, proto) == Reported(r, n, ip, proto) {
      SessionsConserved(c, r, n, ip, proto);
    }
  }

  lemma {:induction false} StaysClosed(c: Config, r: Run, i: nat, n: nat)
    requires IsRun(c, r) && i < n <= |r.ops| && r.ops[i].Close?
    ensures r.states[n].closed
    decreases n
  {
    assert Steps(c, r, n - 1);
    if n > i + 1 {
      StaysClosed(c, r, i, n - 1);
      StepClosed(c, r.states[n - 1], r.ops[n - 1]);
    }
  }

  lemma {:induction false} StaysEmpty(c: Config, r: Run, k: nat, n: nat)
    requires IsRun(c, r) && k <= n <= |r.ops| && r.states[k].closed && r.states[k].entries == map[]
    ensures r.states[n].closed && r.states[n].entries == map[]
    decreases n
  {
    if k < n {
      StaysEmpty(c, r, k, n - 1);
      assert Steps(c, r, n - 1);
      StepClosed(c, r.states[n - 1], r.ops[n - 1]);
    }
  }
}
