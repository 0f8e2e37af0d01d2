/** Which source the scan tracker evicts, and when. */
module ScanEvictions {
  import opened Fifo
  import opened Orders
  import opened Scans
  import opened ScanRuns

  /** The j-th operation is the last touch of ip before the n-th. */
  predicate LastTouch(ops: seq<Op>, ip: string, j: nat, n: nat) {
    && j < n <= |ops| && ops[j].Touch? && ops[j].ip == ip
    && forall k :: j < k < n ==> !(ops[k].Touch? && ops[k].ip == ip)
  }

  // ---------- the age of a source ----------

  lemma {:induction false} AgeIs(c: Config, r: Run, n: nat, ip: string) returns (j: nat)
    requires IsRun(c, r) && n <= |r.ops| && ip in r.states[n].entries
    ensures LastTouch(r.ops, ip, j, n) && r.states[n].entries[ip].last == r.ops[j].now
  {
    var m := n - 1;
    assert Steps(c, r, m);
    if r.ops[m].Touch? && r.ops[m].ip == ip {
      j := m;
    } else {
      StepKeeps(c, r.states[m], r.ops[m], ip);
      j := AgeIs(c, r, m, ip);
    }
  }

  lemma StepKeeps(c: Config, s: State, op: Op, ip: string)
    requires Linked(s) && ip in Step(c, s, op).state.entries && !(op.Touch? && op.ip == ip)
    ensures ip in s.entries && Step(c, s, op).state.entries[ip] == s.entries[ip]
  {
    match op {
      case Touch(key, _, _, now) => ReadyKeeps(c, s, key, now);
      case Cleanup(now) => SweepFrontKeeps(c, s, now);
    }
  }

  // ---------- the order of the list ----------

  lemma {:induction false} SweepWithin(c: Config, s: State, now: Time)
    requires Linked(s)
    ensures Suborder(SweepFront(c, s, now).order, s.order)
    decreases |s.order|
  {
    if s.order != [] && !Recent(c, s.entries[s.order[0]].last, now) {
      RemoveSuborder(s.order, s.order[0]);
      SweepWithin(c, Detach(s, s.order[0]), now);
    }
  }

  lemma ReadyWithin(c: Config, s: State, ip: string, now: Time)
    requires Linked(s)
    ensures Suborder(Ready(c, s, ip, now).order, s.order)
  {
    SweepWithin(c, s, now);
    var swept := SweepFront(c, s, now);
    if ip in s.entries {
      RemoveSuborder(s.order, ip);
    } else if swept.order != [] {
      RemoveSuborder(swept.order, swept.order[0]);
    }
  }

  function PutBack(op: Op): Option<string> {
    if op.Touch? then Some(op.ip) else None
  }

  /** A touch puts its source at the back; otherwise the order stays. */
  lemma StepOrders(c: Config, s: State, op: Op, a: string, b: string)
    requires Linked(s)
    ensures Shifts(PutBack(op), s.order, Step(c, s, op).state.order, a, b)
  {
    match op {
      case Touch(ip, _, _, now) =>
        var ready := Ready(c, s, ip, now);
        ReadyWithin(c, s, ip, now);
        AppendShifts(s.order, ready.order, ip, a, b);
      case Cleanup(now) => SweepWithin(c, s, now);
    }
  }

  lemma RunOrders(c: Config, r: Run, n: nat, a: string, b: string)
    requires IsRun(c, r) && n < |r.ops|
    ensures Shifts(PutBack(r.ops[n]), r.states[n].order, r.states[n + 1].order, a, b)
  {
    assert Steps(c, r, n);
    StepOrders(c, r.states[n], r.ops[n], a, b);
  }

  /** The list is in the order of the last touches, also of those at the same time. */
  lemma {:induction false} ListedByLastTouch(c: Config, r: Run, n: nat, a: string, b: string, i: nat, j: nat)
    requires IsRun(c, r) && n <= |r.ops| && Precedes(r.states[n].order, a, b)
    requires LastTouch(r.ops, a, i, n) && LastTouch(r.ops, b, j, n)
    ensures i < j
  {
    var m := n - 1;
    RunOrders(c, r, m, a, b);
    if PutBack(r.ops[m]) != Some(b) {
      ListedByLastTouch(c, r, m, a, b, i, j);
    }
  }

  // ---------- eviction ----------

  /** A tracked source with a touch in the window makes room. */
  ghost predicate MakesRoom(c: Config, s: State, ip: string, now: Time, v: string)
    requires Linked(s)
  {
    && ip !in s.entries && |s.entries| >= c.maxEntries
    && s.order != [] && s.order[0] == v && now < s.entries[v].last + c.window
  }

  lemma StepEvicts(c: Config, s: State, ip: string, now: Time, v: string)
    requires Valid(c, s)
    ensures Evictee(c, s, ip, now) == Some(v) <==> MakesRoom(c, s, ip, now, v)
  {
    if s.order != [] && !Recent(c, s.entries[s.order[0]].last, now) {
      DetachShrinks(s, s.order[0]);
      SweepShrinks(c, Detach(s, s.order[0]), now);
      var swept := SweepFront(c, s, now);
      IndexedSize(swept.order, swept.entries);
    }
  }

  /** A touch evicts if and only if its source is new, the tracker is full and the source touched longest ago still
      has a touch in the window; that one is evicted. */
  lemma EvictedIff(c: Config, r: Run, n: nat, v: string)
    requires IsRun(c, r) && n < |r.ops| && r.ops[n].Touch?
    ensures Linked(r.states[n])
    ensures r.outs[n].evicted == Some(v) <==> MakesRoom(c, r.states[n], r.ops[n].ip, r.ops[n].now, v)
  {
    RunValid(c, r, n);
    assert Steps(c, r, n);
    StepEvicts(c, r.states[n], r.ops[n].ip, r.ops[n].now, v);
  }

  /** Nothing else is given up but sources without a touch in the window. */
  lemma GivenUpIsSilent(c: Config, r: Run, n: nat, ip: string)
    requires IsRun(c, r) && n < |r.ops| && ip in r.states[n].entries && ip !in r.states[n + 1].entries
    ensures r.outs[n].evicted == Some(ip) || r.states[n].entries[ip].last + c.window <= r.ops[n].now
  {
    assert Steps(c, r, n);
    var s, op := r.states[n], r.ops[n];
    match op {
      case Touch(key, _, _, now) => ReadyKeeps(c, s, key, now);
      case Cleanup(now) => SweepFrontKeeps(c, s, now);
    }
  }
}
