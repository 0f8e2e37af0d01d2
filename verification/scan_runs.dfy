/** Every run of the scan tracker, against the history it was shown. */
module ScanRuns {
  import opened Fifo
  import opened Scans

  datatype Run = Run(ops: seq<Op>, states: seq<State>, outs: seq<Out>)

  ghost predicate Shaped(r: Run) {
    |r.states| == |r.ops| + 1 && |r.outs| == |r.ops|
  }

  ghost predicate Steps(c: Config, r: Run, n: nat)
    requires Shaped(r)
  {
    n < |r.ops| ==> Linked(r.states[n]) && Step(c, r.states[n], r.ops[n]) == Result(r.states[n + 1], r.outs[n])
  }

  /** A run from the empty tracker. Clock readings do not go back in lock order. */
  ghost predicate IsRun(c: Config, r: Run) {
    && Shaped(r) && r.states[0] == EMPTY
    && (forall n: nat :: Steps(c, r, n))
    && (forall i, j :: 0 <= i < j < |r.ops| ==> r.ops[i].now <= r.ops[j].now)
  }

  // ---------- the bound ----------

  lemma DetachShrinks(s: State, ip: string)
    requires Linked(s) && ip in s.entries
    ensures |Detach(s, ip).entries| == |s.entries| - 1
  {
    assert Detach(s, ip).entries.Keys + {ip} == s.entries.Keys;
  }

  lemma {:induction false} SweepShrinks(c: Config, s: State, now: Time)
    requires Linked(s)
    ensures |SweepFront(c, s, now).entries| <= |s.entries|
    decreases |s.order|
  {
    if s.order != [] && !Recent(c, s.entries[s.order[0]].last, now) {
      DetachShrinks(s, s.order[0]);
      SweepShrinks(c, Detach(s, s.order[0]), now);
    }
  }

  lemma ReadyFits(c: Config, s: State, ip: string, now: Time)
    requires Valid(c, s)
    ensures |Ready(c, s, ip, now).entries| < Bound(c)
  {
    var swept := SweepFront(c, s, now);
    SweepShrinks(c, s, now);
    IndexedSize(swept.order, swept.entries);
    if ip in s.entries {
      DetachShrinks(s, ip);
    } else if Evictee(c, s, ip, now).Some? {
      DetachShrinks(swept, swept.order[0]);
    }
  }

  /** Every operation keeps the map, the list and the bound. */
  lemma StepValid(c: Config, s: State, op: Op)
    requires Valid(c, s)
    ensures Valid(c, Step(c, s, op).state)
  {
    match op {
      case Touch(ip, proto, port, now) =>
        ReadyFits(c, s, ip, now);
        SizeWith(Ready(c, s, ip, now).entries, ip, Touched(c, EntryOr(s, ip), proto, port, now));
      case Cleanup(now) => SweepShrinks(c, s, now);
    }
  }

  lemma {:induction false} RunValid(c: Config, r: Run, n: nat)
    requires IsRun(c, r) && n <= |r.ops|
    ensures Valid(c, r.states[n])
  {
    if n > 0 {
      RunValid(c, r, n - 1);
      RunStepValid(c, r, n - 1);
    }
  }

  lemma RunStepValid(c: Config, r: Run, n: nat)
    requires IsRun(c, r) && n < |r.ops| && Valid(c, r.states[n])
    ensures Valid(c, r.states[n + 1])
  {
    assert Steps(c, r, n);
    StepValid(c, r.states[n], r.ops[n]);
  }

  // ---------- the reference: the whole history ----------

  /** The i-th operation touched ip within the window that ends with the n-th. */
  predicate Counts(c: Config, ops: seq<Op>, n: nat, i: nat, ip: string) {
    i <= n < |ops| && ops[i].Touch? && ops[i].ip == ip && ops[n].now < ops[i].now + c.window
  }

  ghost function RecentProtocols(c: Config, ops: seq<Op>, n: nat, ip: string): set<string>
    requires n < |ops|
  {
    set i: nat | i <= n && Counts(c, ops, n, i, ip) :: ops[i].proto
  }

  ghost function RecentPorts(c: Config, ops: seq<Op>, n: nat, ip: string): set<int>
    requires n < |ops|
  {
    set i: nat | i <= n && Counts(c, ops, n, i, ip) && ops[i].port > 0 :: ops[i].port
  }

  /** A source is a scanner by its history. */
  ghost predicate ScansByHistory(c: Config, ops: seq<Op>, n: nat, ip: string)
    requires n < |ops|
  {
    |RecentProtocols(c, ops, n, ip)| >= c.threshold || |RecentPorts(c, ops, n, ip)| >= 5
  }

  // ---------- nothing is made up ----------

  /** The i-th operation touched ip, and ip was not evicted between it and the n-th operation. */
  ghost predicate Stands(r: Run, n: nat, i: nat, ip: string)
    requires Shaped(r)
  {
    && i < n <= |r.ops| && r.ops[i].Touch? && r.ops[i].ip == ip
    && forall m :: i < m < n ==> r.outs[m].evicted != Some(ip)
  }

  /** The i-th operation stands, touched the protocol p, or the port p, at that time, and was not skipped. */
  ghost predicate TouchedBy(r: Run, n: nat, ip: string, p: string, at: Time, i: nat)
    requires Shaped(r)
  {
    Stands(r, n, i, ip) && r.ops[i].proto == p && r.ops[i].now == at
  }

  ghost predicate OpenedBy(r: Run, n: nat, ip: string, p: int, at: Time, i: nat)
    requires Shaped(r)
  {
    Stands(r, n, i, ip) && r.ops[i].port == p > 0 && r.ops[i].now == at && !r.outs[i].skipped
  }

  /** Everything an entry holds was touched since the last eviction of the source, and no skipped port is held. */
  ghost predicate Real(r: Run, n: nat, ip: string, e: Entry)
    requires Shaped(r)
  {
    && (forall p :: p in e.touched ==> exists i: nat :: TouchedBy(r, n, ip, p, e.touched[p], i))
    && (forall p :: p in e.ports ==> exists i: nat :: OpenedBy(r, n, ip, p, e.ports[p], i))
  }

  lemma RealKept(r: Run, n: nat, ip: string, e: Entry)
    requires Shaped(r) && n < |r.ops| && r.outs[n].evicted != Some(ip) && Real(r, n, ip, e)
    ensures Real(r, n + 1, ip, e)
  {
    var m := n + 1;
    forall p | p in e.touched ensures exists i: nat :: TouchedBy(r, m, ip, p, e.touched[p], i) {
      var i: nat :| TouchedBy(r, n, ip, p, e.touched[p], i);
      assert TouchedBy(r, m, ip, p, e.touched[p], i);
    }
    forall p | p in e.ports ensures exists i: nat :: OpenedBy(r, m, ip, p, e.ports[p], i) {
      var i: nat :| OpenedBy(r, n, ip, p, e.ports[p], i);
      assert OpenedBy(r, m, ip, p, e.ports[p], i);
    }
  }

  lemma RealTouched(c: Config, r: Run, n: nat, e: Entry)
    requires Shaped(r) && n < |r.ops| && r.ops[n].Touch? && Real(r, n + 1, r.ops[n].ip, e)
    requires r.outs[n].skipped == Skips(c, e, r.ops[n].port, r.ops[n].now)
    ensures Real(r, n + 1, r.ops[n].ip, Touched(c, e, r.ops[n].proto, r.ops[n].port, r.ops[n].now))
  {
    var op, ip, m := r.ops[n], r.ops[n].ip, n + 1;
    var e' := Touched(c, e, op.proto, op.port, op.now);
    forall p | p in e'.touched ensures exists i: nat :: TouchedBy(r, m, ip, p, e'.touched[p], i) {
      if p == op.proto { assert TouchedBy(r, m, ip, p, e'.touched[p], n); }
    }
    forall p | p in e'.ports ensures exists i: nat :: OpenedBy(r, m, ip, p, e'.ports[p], i) {
      if p == op.port && op.port > 0 && !r.outs[n].skipped { assert OpenedBy(r, m, ip, p, e'.ports[p], n); }
    }
  }

  lemma {:induction false} EntriesAreReal(c: Config, r: Run, n: nat, ip: string)
    requires IsRun(c, r) && n <= |r.ops|
    ensures Real(r, n, ip, EntryOr(r.states[n], ip))
  {
    if n > 0 {
      EntriesAreReal(c, r, n - 1, ip);
      StepReal(c, r, n - 1, ip);
    }
  }

  /** The entry that a step leaves alone, unless the step drops it. */
  lemma OthersKept(c: Config, s: State, op: Op, ip: string)
    requires Linked(s) && (op.Touch? ==> op.ip != ip)
    ensures var e := EntryOr(Step(c, s, op).state, ip);
      e == FRESH || (e == EntryOr(s, ip) && Step(c, s, op).out.evicted != Some(ip))
  {
    match op {
      case Touch(_, _, _, now) =>
        ReadyKeeps(c, s, op.ip, now);
        EvicteeGone(c, s, op.ip, now);
      case Cleanup(now) => SweepFrontKeeps(c, s, now);
    }
  }

  lemma EvicteeGone(c: Config, s: State, ip: string, now: Time)
    requires Linked(s)
    ensures Evictee(c, s, ip, now) != Some(ip)
    ensures Evictee(c, s, ip, now).Some? ==> Evictee(c, s, ip, now).value !in Ready(c, s, ip, now).entries
  {
    SweepFrontKeeps(c, s, now);
  }

  lemma StepReal(c: Config, r: Run, n: nat, ip: string)
    requires IsRun(c, r) && n < |r.ops| && Real(r, n, ip, EntryOr(r.states[n], ip))
    ensures Real(r, n + 1, ip, EntryOr(r.states[n + 1], ip))
  {
    assert Steps(c, r, n);
    var s, op := r.states[n], r.ops[n];
    if op.Touch? && op.ip == ip {
      EvicteeGone(c, s, ip, op.now);
      RealKept(r, n, ip, EntryOr(s, ip));
      RealTouched(c, r, n, EntryOr(s, ip));
    } else {
      OthersKept(c, s, op, ip);
      if EntryOr(r.states[n + 1], ip) != FRESH {
        RealKept(r, n, ip, EntryOr(s, ip));
      }
    }
  }

  // ---------- nothing recent is forgotten ----------

  /** The entry still shows the i-th operation, with the time of that touch or a later one. */
  predicate Shows(op: Op, skipped: bool, e: Entry) {
    && op.Touch? && op.now <= e.last
    && op.proto in e.touched && op.now <= e.touched[op.proto]
    && (op.port > 0 && !skipped ==> op.port in e.ports && op.now <= e.ports[op.port])
  }

  lemma ShowsNext(c: Config, op: Op, skipped: bool, e: Entry, proto: string, port: int, now: Time)
    requires Shows(op, skipped, e) && e.last <= now && Recent(c, op.now, now)
    ensures Shows(op, skipped, Touched(c, e, proto, port, now))
  {
  }

  lemma StepShows(c: Config, s: State, op: Op, ip: string, t: Op, skipped: bool)
    requires Linked(s) && ip in s.entries && Shows(t, skipped, s.entries[ip]) && s.entries[ip].last <= op.now
    requires Recent(c, t.now, op.now) && Step(c, s, op).out.evicted != Some(ip)
    ensures ip in Step(c, s, op).state.entries && Shows(t, skipped, Step(c, s, op).state.entries[ip])
  {
    match op {
      case Touch(_, proto, port, now) =>
        ReadyKeeps(c, s, op.ip, now);
        if op.ip == ip { ShowsNext(c, t, skipped, s.entries[ip], proto, port, now); }
      case Cleanup(now) => SweepFrontKeeps(c, s, now);
    }
  }

  lemma TouchShows(c: Config, s: State, op: Op)
    requires Linked(s) && op.Touch?
    ensures op.ip in Step(c, s, op).state.entries
    ensures Shows(op, Step(c, s, op).out.skipped, Step(c, s, op).state.entries[op.ip])
  {
  }

  lemma StepLast(c: Config, s: State, op: Op, ip: string)
    requires Linked(s) && (forall k :: k in s.entries ==> s.entries[k].last <= op.now)
    ensures ip in Step(c, s, op).state.entries ==> Step(c, s, op).state.entries[ip].last <= op.now
  {
    match op {
      case Touch(_, _, _, now) => ReadyKeeps(c, s, op.ip, now);
      case Cleanup(now) => SweepFrontKeeps(c, s, now);
    }
  }

  lemma {:induction false} RunLast(c: Config, r: Run, n: nat)
    requires IsRun(c, r) && n < |r.ops|
    ensures forall ip :: ip in r.states[n].entries ==> r.states[n].entries[ip].last <= r.ops[n].now
  {
    if n > 0 {
      RunLast(c, r, n - 1);
      assert Steps(c, r, n - 1);
      forall ip | ip in r.states[n].entries ensures r.states[n].entries[ip].last <= r.ops[n].now {
        StepLast(c, r.states[n - 1], r.ops[n - 1], ip);
      }
    }
  }

  /** A touch is shown as long as it is recent and its source was not evicted since. */
  lemma {:induction false} TouchRemembered(c: Config, r: Run, i: nat, k: nat, now: Time)
    requires IsRun(c, r) && i < k <= |r.ops| && r.ops[i].Touch?
    requires r.ops[k - 1].now <= now && Recent(c, r.ops[i].now, now)
    requires Stands(r, k, i, r.ops[i].ip)
    ensures var ip := r.ops[i].ip; ip in r.states[k].entries && Shows(r.ops[i], r.outs[i].skipped, r.states[k].entries[ip])
    decreases k
  {
    if k == i + 1 {
      assert Steps(c, r, i);
      TouchShows(c, r.states[i], r.ops[i]);
    } else {
      TouchRemembered(c, r, i, k - 1, now);
      RunStepShows(c, r, k - 1, r.ops[i].ip, r.ops[i], r.outs[i].skipped);
    }
  }

  lemma RunStepShows(c: Config, r: Run, n: nat, ip: string, t: Op, skipped: bool)
    requires IsRun(c, r) && n < |r.ops| && ip in r.states[n].entries && Shows(t, skipped, r.states[n].entries[ip])
    requires Recent(c, t.now, r.ops[n].now) && r.outs[n].evicted != Some(ip)
    ensures ip in r.states[n + 1].entries && Shows(t, skipped, r.states[n + 1].entries[ip])
  {
    assert Steps(c, r, n);
    RunLast(c, r, n);
    StepShows(c, r.states[n], r.ops[n], ip, t, skipped);
  }
}
