/** The list of the probe log is sorted by window start, so a flush that stops at the front misses nothing. */
module ProbeOrder {
  import opened Fifo
  import opened Probes
  import opened ProbeRuns

  ghost function StartAt(s: State, i: int): Time {
    if 0 <= i < |s.order| && s.order[i] in s.entries then s.entries[s.order[i]].start else 0
  }

  ghost predicate Ordered(s: State) {
    forall i, j :: 0 <= i < j < |s.order| ==> StartAt(s, i) <= StartAt(s, j)
  }

  ghost predicate StartedBy(s: State, now: Time) {
    forall ip :: ip in s.entries ==> s.entries[ip].start <= now
  }

  ghost predicate Valid(c: Config, s: State) {
    Linked(s) && Ordered(s) && |s.entries| <= Bound(c)
  }

  lemma DetachValid(c: Config, s: State, ip: string)
    requires Valid(c, s) && ip in s.entries
    ensures Valid(c, Detach(s, ip)) && |Detach(s, ip).entries| == |s.entries| - 1
  {
    var r, p := Detach(s, ip), IndexOf(s.order, ip);
    forall i | 0 <= i < |r.order| ensures StartAt(r, i) == StartAt(s, if i < p then i else i + 1) {
      assert r.order[i] == s.order[if i < p then i else i + 1] && r.order[i] in r.entries;
    }
    assert r.entries.Keys + {ip} == s.entries.Keys;
  }

  lemma {:induction false} EmitValid(c: Config, s: State, ips: seq<string>, now: Time)
    requires Valid(c, s) && NoDup(ips) && forall k :: k in ips ==> k in s.entries
    ensures Valid(c, Emit(c, s, ips, now).state) && |Emit(c, s, ips, now).state.entries| == |s.entries| - |ips|
    decreases |ips|
  {
    if ips != [] {
      DetachValid(c, s, ips[0]);
      EmitValid(c, Detach(s, ips[0]), ips[1..], now);
    }
  }

  lemma AddValid(c: Config, s: State, ip: string, proto: string, now: Time)
    requires Valid(c, s) && StartedBy(s, now) && (ip in s.entries || |s.entries| < Bound(c))
    ensures Valid(c, Add(s, ip, proto, now))
  {
    var r := Add(s, ip, proto, now);
    SizeWith(s.entries, ip, r.entries[ip]);
    forall i | 0 <= i < |s.order| ensures StartAt(r, i) == StartAt(s, i) <= now {
      assert r.order[i] == s.order[i] && s.order[i] in s.entries;
    }
  }

  lemma OutgoingMakesRoom(c: Config, s: State, ip: string, now: Time)
    requires Valid(c, s)
    ensures var out := Outgoing(c, s, ip, now);
      (ip in s.entries && ip !in out) || |s.entries| - |out| < Bound(c)
  {
    IndexedSize(s.order, s.entries);
    if ip in s.entries {
      DetachValid(c, s, ip);
      IndexedSize(Detach(s, ip).order, Detach(s, ip).entries);
    }
  }

  lemma RecordValid(c: Config, s: State, op: Op)
    requires Valid(c, s) && StartedBy(s, op.now) && op.Record?
    ensures Valid(c, Step(c, s, op).state)
  {
    var out := Outgoing(c, s, op.ip, op.now);
    OutgoingFits(c, s, op.ip, op.now);
    OutgoingMakesRoom(c, s, op.ip, op.now);
    EmitValid(c, s, out, op.now);
    EmitKeeps(c, s, out, op.now);
    AddValid(c, Emit(c, s, out, op.now).state, op.ip, op.proto, op.now);
  }

  /** Every operation keeps the map, the sorted list and the bound. */
  lemma StepValid(c: Config, s: State, op: Op)
    requires Valid(c, s) && StartedBy(s, op.now)
    ensures Valid(c, Step(c, s, op).state)
  {
    match op {
      case Record(_, _, _) => RecordValid(c, s, op);
      case FlushDue(now) =>
        DueKeysFit(c, s, false, now);
        EmitValid(c, s, Leaving(c, s, op), now);
      case Close(_) =>
        var r := s.(closed := true);
        assert forall i :: StartAt(r, i) == StartAt(s, i);
      case FlushAll(now) =>
        DueKeysFit(c, s, true, now);
        EmitValid(c, s, Leaving(c, s, op), now);
    }
  }

  lemma {:induction false} RunValid(c: Config, r: Run, n: nat)
    requires IsRun(c, r) && n <= |r.ops|
    ensures Valid(c, r.states[n])
  {
    if n > 0 {
      RunValid(c, r, n - 1);
      assert Steps(c, r, n - 1);
      var s, now := r.states[n - 1], r.ops[n - 1].now;
      forall ip | ip in s.entries ensures s.entries[ip].start <= now {
        RunStarts(c, r, n - 1, ip);
      }
      StepValid(c, s, r.ops[n - 1]);
    }
  }

  /** The flush picks exactly the sources whose window has elapsed. */
  lemma {:induction false} DueKeysComplete(c: Config, entries: map<string, Entry>, order: seq<string>, now: Time, ip: string)
    requires (forall k :: k in order ==> k in entries) && ip in order
    requires forall i, j :: 0 <= i < j < |order| ==> entries[order[i]].start <= entries[order[j]].start
    ensures ip in DueKeys(c, entries, order, false, now) <==> Due(c, entries[ip], now)
  {
    if Due(c, entries[order[0]], now) && ip != order[0] {
      assert ip in order[1..];
      DueKeysComplete(c, entries, order[1..], now, ip);
    }
    if !Due(c, entries[order[0]], now) {
      var i := IndexOf(order, ip);
      assert i > 0 ==> entries[order[0]].start <= entries[order[i]].start;
    }
  }

  /** After a flush no pending source is due. */
  lemma FlushLeavesNoneDue(c: Config, r: Run, n: nat, ip: string)
    requires IsRun(c, r) && n < |r.ops| && r.ops[n].FlushDue? && ip in r.states[n + 1].entries
    ensures !Due(c, r.states[n + 1].entries[ip], r.ops[n].now)
  {
    var s, op := r.states[n], r.ops[n];
    RunValid(c, r, n);
    assert Steps(c, r, n);
    StepEntry(c, s, op, ip);
    assert ip in s.order;
    forall i, j | 0 <= i < j < |s.order| ensures s.entries[s.order[i]].start <= s.entries[s.order[j]].start {
      assert StartAt(s, i) <= StartAt(s, j);
    }
    DueKeysComplete(c, s.entries, s.order, op.now, ip);
  }
}
