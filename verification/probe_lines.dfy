/** When a probe summary is written and which time it covers. */
module ProbeLines {
  import opened Fifo
  import opened Orders
  import opened Probes
  import opened ProbeRuns
  import opened ProbeOrder
  import opened ProbeCounts

  // ---------- recording ----------

  ghost predicate CloseBefore(r: Run, n: nat) {
    exists k :: 0 <= k < n && k < |r.ops| && r.ops[k].Close?
  }

  lemma StepCloses(c: Config, s: State, op: Op)
    requires Linked(s)
    ensures Step(c, s, op).state.closed <==> s.closed || op.Close?
    ensures Step(c, s, op).recorded <==> op.Record? && !s.closed
  {
    match op {
      case Record(k, _, now) =>
        OutgoingFits(c, s, k, now);
        EmitKeeps(c, s, Outgoing(c, s, k, now), now);
      case FlushDue(now) =>
        DueKeysFit(c, s, false, now);
        EmitRecordsNone(c, s, Leaving(c, s, op), now);
      case Close(_) =>
      case FlushAll(now) =>
        DueKeysFit(c, s, true, now);
        EmitRecordsNone(c, s, Leaving(c, s, op), now);
    }
  }

  lemma EmitRecordsNone(c: Config, s: State, ips: seq<string>, now: Time)
    requires Linked(s) && NoDup(ips) && forall k :: k in ips ==> k in s.entries
    ensures Emit(c, s, ips, now).state.closed == s.closed && !Emit(c, s, ips, now).recorded
  {
    EmitKeeps(c, s, ips, now);
  }

  lemma {:induction false} ClosedIff(c: Config, r: Run, n: nat)
    requires IsRun(c, r) && n <= |r.ops|
    ensures r.states[n].closed <==> CloseBefore(r, n)
  {
    if n > 0 {
      ClosedIff(c, r, n - 1);
      assert Steps(c, r, n - 1);
      StepCloses(c, r.states[n - 1], r.ops[n - 1]);
    }
  }

  /** Every session before Close is recorded, and none after. */
  lemma RecordedIff(c: Config, r: Run, n: nat)
    requires IsRun(c, r) && n < |r.ops|
    ensures r.recorded[n] <==> r.ops[n].Record? && !CloseBefore(r, n)
  {
    ClosedIff(c, r, n);
    assert Steps(c, r, n);
    StepCloses(c, r.states[n], r.ops[n]);
  }

  // ---------- the time a line covers ----------

  /** The i-th operation recorded the first session of ip since the previous line. */
  predicate First(r: Run, prev: nat, i: nat, k: nat, ip: string) {
    prev <= i < k && Records(r, i, ip) && forall j :: prev <= j < i ==> !Records(r, j, ip)
  }

  lemma StepOpens(c: Config, r: Run, n: nat, ip: string)
    requires IsRun(c, r) && n < |r.ops| && ip in r.states[n + 1].entries
    ensures var start := r.states[n + 1].entries[ip].start;
      if Writes(r, n, ip) || ip !in r.states[n].entries then Records(r, n, ip) && start == r.ops[n].now
      else start == r.states[n].entries[ip].start
  {
    assert Steps(c, r, n);
    WritesIff(c, r, n, ip);
    StepEntry(c, r.states[n], r.ops[n], ip);
  }

  lemma StepForgets(c: Config, r: Run, n: nat, ip: string)
    requires IsRun(c, r) && n < |r.ops| && !Writes(r, n, ip)
    ensures ip in r.states[n + 1].entries <==> ip in r.states[n].entries || Records(r, n, ip)
  {
    assert Steps(c, r, n);
    WritesIff(c, r, n, ip);
    StepEntry(c, r.states[n], r.ops[n], ip);
  }

  lemma {:induction false} PendingIff(c: Config, r: Run, prev: nat, k: nat, ip: string)
    requires IsRun(c, r) && k <= |r.ops| && Since(r, prev, k, ip)
    ensures ip in r.states[k].entries <==> exists i :: prev <= i < k && Records(r, i, ip)
    decreases k
  {
    var m := k - 1;
    if m == prev {
      assert Steps(c, r, m);
      WritesIff(c, r, m, ip);
      StepEntry(c, r.states[m], r.ops[m], ip);
      assert ip in r.states[k].entries <==> Records(r, prev, ip);
    } else {
      PendingIff(c, r, prev, m, ip);
      StepForgets(c, r, m, ip);
    }
  }

  lemma {:induction false} OpenedFirst(c: Config, r: Run, prev: nat, k: nat, ip: string) returns (i: nat)
    requires IsRun(c, r) && k <= |r.ops| && Since(r, prev, k, ip) && ip in r.states[k].entries
    ensures First(r, prev, i, k, ip) && r.states[k].entries[ip].start == r.ops[i].now
    decreases k
  {
    var m := k - 1;
    StepOpens(c, r, m, ip);
    if m == prev {
      i := m;
    } else if ip in r.states[m].entries {
      i := OpenedFirst(c, r, prev, m, ip);
    } else {
      PendingIff(c, r, prev, m, ip);
      i := m;
    }
  }

  /** A line covers the time from the first session it counts, and at most one window. */
  lemma LineSpans(c: Config, r: Run, k: nat, j: nat) returns (prev: nat, i: nat)
    requires IsRun(c, r) && k < |r.ops| && j < |r.lines[k]|
    ensures var line := r.lines[k][j];
      && Since(r, prev, k, line.ip) && First(r, prev, i, k, line.ip)
      && line.entry.start == r.ops[i].now
      && var elapsed := r.ops[k].now - r.ops[i].now;
         line.span == if elapsed <= c.window then elapsed else c.window
  {
    var ip := r.lines[k][j].ip;
    LineIsEntry(c, r, k, j);
    LineSpan(c, r, k, j);
    prev := LastWritten(r, k, ip);
    i := OpenedFirst(c, r, prev, k, ip);
  }

  lemma LineSpan(c: Config, r: Run, k: nat, j: nat)
    requires IsRun(c, r) && k < |r.ops| && j < |r.lines[k]|
    ensures k > 0
    ensures var line := r.lines[k][j];
      && line.ip in r.states[k].entries && line.entry == r.states[k].entries[line.ip]
      && var elapsed := r.ops[k].now - line.entry.start;
         line.span == if elapsed <= c.window then elapsed else c.window
  {
    assert Steps(c, r, k);
    StepLines(c, r.states[k], r.ops[k]);
  }

  // ---------- when a line is written ----------

  ghost predicate Elapsed(c: Config, s: State, ip: string, now: Time) {
    ip in s.entries && s.entries[ip].start + c.window <= now
  }

  /** The operation writes out ip. */
  ghost predicate WritesOut(c: Config, s: State, op: Op, ip: string) {
    match op
    case Record(k, _, now) =>
      && !s.closed
      && if k in s.entries then ip == k && Elapsed(c, s, ip, now)
         else |s.entries| >= c.maxEntries && s.order != [] && s.order[0] == ip
    case FlushDue(now) => Elapsed(c, s, ip, now)
    case Close(_) => false
    case FlushAll(_) => ip in s.entries
  }

  lemma OutgoingIs(c: Config, s: State, k: string, now: Time, ip: string)
    requires Valid(c, s)
    ensures ip in Outgoing(c, s, k, now) <==>
      if k in s.entries then ip == k && Elapsed(c, s, ip, now) else |s.entries| >= c.maxEntries && s.order != [] && s.order[0] == ip
  {
    if k in s.entries && Due(c, s.entries[k], now) {
      DetachValid(c, s, k);
      var t := Detach(s, k);
      IndexedSize(t.order, t.entries);
    }
  }

  lemma LeavingIs(c: Config, s: State, op: Op, ip: string)
    requires Valid(c, s)
    ensures ip in Leaving(c, s, op) <==> WritesOut(c, s, op, ip)
  {
    match op {
      case Record(k, _, now) => OutgoingIs(c, s, k, now, ip);
      case FlushDue(now) =>
        DueKeysFit(c, s, false, now);
        if ip in s.entries {
          assert forall i :: 0 <= i < |s.order| ==> StartAt(s, i) == s.entries[s.order[i]].start;
          DueKeysComplete(c, s.entries, s.order, now, ip);
        }
      case Close(_) =>
      case FlushAll(now) => AllKeysDue(c, s.entries, s.order, now);
    }
  }

  /** A line is written when the window of its source has elapsed at its next session or at a flush, when a new source
      finds the log full and it is the first in the list, or at the final flush; and at no other time. */
  lemma WrittenIff(c: Config, r: Run, n: nat, ip: string)
    requires IsRun(c, r) && n < |r.ops|
    ensures Writes(r, n, ip) <==> WritesOut(c, r.states[n], r.ops[n], ip)
  {
    RunValid(c, r, n);
    WritesIff(c, r, n, ip);
    LeavingIs(c, r.states[n], r.ops[n], ip);
  }

  // ---------- the order of the list ----------

  lemma {:induction false} EmitSuborder(c: Config, s: State, ips: seq<string>, now: Time)
    requires Linked(s) && NoDup(ips) && forall k :: k in ips ==> k in s.entries
    ensures Suborder(Emit(c, s, ips, now).state.order, s.order)
    decreases |ips|
  {
    if ips != [] {
      RemoveSuborder(s.order, ips[0]);
      EmitSuborder(c, Detach(s, ips[0]), ips[1..], now);
    }
  }

  /** The session opens a new window of ip. */
  ghost predicate Opens(r: Run, n: nat, ip: string) {
    n < |r.ops| && n < |r.states| && Records(r, n, ip) && (Writes(r, n, ip) || ip !in r.states[n].entries)
  }

  ghost function PutBack(r: Run, n: nat): Option<string>
    requires n < |r.ops|
  {
    if r.ops[n].Record? && Opens(r, n, r.ops[n].ip) then Some(r.ops[n].ip) else None
  }

  lemma RecordShifts(c: Config, s: State, op: Op, a: string, b: string)
    requires Linked(s) && op.Record? && !s.closed
    ensures var opens := op.ip in Leaving(c, s, op) || op.ip !in s.entries;
      Shifts(if opens then Some(op.ip) else None, s.order, Step(c, s, op).state.order, a, b)
  {
    OutgoingFits(c, s, op.ip, op.now);
    var ks := Outgoing(c, s, op.ip, op.now);
    var t := Emit(c, s, ks, op.now).state;
    EmitSuborder(c, s, ks, op.now);
    EmitKeeps(c, s, ks, op.now);
    if op.ip !in t.entries {
      AppendShifts(s.order, t.order, op.ip, a, b);
    }
  }

  lemma RunShifts(c: Config, r: Run, n: nat, a: string, b: string)
    requires IsRun(c, r) && n < |r.ops|
    ensures Shifts(PutBack(r, n), r.states[n].order, r.states[n + 1].order, a, b)
  {
    var s, op := r.states[n], r.ops[n];
    assert Steps(c, r, n);
    match op {
      case Record(k, _, _) =>
        WritesIff(c, r, n, k);
        StepCloses(c, s, op);
        if !s.closed {
          RecordShifts(c, s, op, a, b);
        }
      case FlushDue(now) =>
        DueKeysFit(c, s, false, now);
        EmitSuborder(c, s, Leaving(c, s, op), now);
      case Close(_) =>
      case FlushAll(now) =>
        DueKeysFit(c, s, true, now);
        EmitSuborder(c, s, Leaving(c, s, op), now);
    }
  }

  /** The i-th operation recorded the first session of ip since its last line before the n-th. */
  ghost predicate OpenedAt(r: Run, i: nat, n: nat, ip: string)
    requires n <= |r.lines|
  {
    exists prev: nat :: Since(r, prev, n, ip) && First(r, prev, i, n, ip)
  }

  /** An opening session is the first since the last line; any other was opened before. */
  lemma OpenedNext(c: Config, r: Run, i: nat, n: nat, ip: string)
    requires IsRun(c, r) && n < |r.ops| && OpenedAt(r, i, n + 1, ip) && ip in r.states[n + 1].entries
    ensures if Opens(r, n, ip) then i == n else OpenedAt(r, i, n, ip) && ip in r.states[n].entries
  {
    var prev: nat :| Since(r, prev, n + 1, ip) && First(r, prev, i, n + 1, ip);
    StepOpens(c, r, n, ip);
    if prev < n {
      PendingIff(c, r, prev, n, ip);
      assert Since(r, prev, n, ip);
    }
  }

  /** The list is in the order in which the windows were opened, also of those at the same time. */
  lemma {:induction false} ListedByOpening(c: Config, r: Run, n: nat, a: string, b: string, i: nat, j: nat)
    requires IsRun(c, r) && n <= |r.ops| && Precedes(r.states[n].order, a, b) && OpenedAt(r, i, n, a) && OpenedAt(r, j, n, b)
    ensures i < j
  {
    if n > 0 {
      var m := n - 1;
      RunValid(c, r, n);
      RunShifts(c, r, m, a, b);
      OpenedNext(c, r, i, m, a);
      OpenedNext(c, r, j, m, b);
      if !Opens(r, m, b) {
        ListedByOpening(c, r, m, a, b, i, j);
      }
    }
  }
}
