/** What every interleaving of accept loop, handshakes and Close keeps. */
module ProxyRuns {
  import opened Fifo
  import opened ProxyListeners

  lemma OneConn(s: State, op: Op)
    requires Enabled(s, op) && !op.Close?
    ensures var t := Step(s, op); op.c in t.conns && t.conns == s.conns[op.c := t.conns[op.c]] && t.done == s.done
  {
  }

  lemma SoundNext(s: State, op: Op)
    requires Enabled(s, op) && !op.Close? && (op.c in s.conns ==> Sound(s.conns[op.c], s.done))
    ensures op.c in Step(s, op).conns && Sound(Step(s, op).conns[op.c], s.done)
  {
  }

  lemma StepSound(s: State, op: Op)
    requires AllSound(s) && PendingExact(s) && Enabled(s, op)
    ensures AllSound(Step(s, op))
  {
    if op.Close? {
      var t := Cut(s);
      forall c | c in t.conns ensures Sound(t.conns[c], t.done) {
        assert Sound(s.conns[c], s.done);
      }
    } else {
      OneConn(s, op);
      SoundNext(s, op);
    }
  }

  lemma StepPending(s: State, op: Op)
    requires PendingExact(s) && Enabled(s, op)
    ensures PendingExact(Step(s, op))
  {
    var t := Step(s, op);
    if !op.Close? {
      OneConn(s, op);
      assert forall c :: c != op.c ==> (c in t.pending <==> c in s.pending);
    }
  }

  lemma SlotsPut(conns: map<nat, Conn>, c: nat, x: Conn)
    ensures |Slots(conns[c := x])| == |Slots(conns)| - (if c in Slots(conns) then 1 else 0) + (if x.slot then 1 else 0)
  {
    var was, now := Slots(conns), Slots(conns[c := x]);
    assert now == if x.slot then was + {c} else was - {c};
    assert |was - {c}| == |was| - if c in was then 1 else 0;
    assert now - {c} == was - {c};
  }

  lemma StepSem(s: State, op: Op)
    requires AllSound(s) && SemExact(s) && Enabled(s, op)
    ensures SemExact(Step(s, op))
  {
    if op.Close? {
      assert Slots(Cut(s).conns) == Slots(s.conns);
    } else {
      OneConn(s, op);
      SlotsPut(s.conns, op.c, Step(s, op).conns[op.c]);
    }
  }

  lemma StepHanded(s: State, op: Op)
    requires HandedExact(s) && Enabled(s, op)
    ensures HandedExact(Step(s, op))
  {
    var t := Step(s, op);
    if !op.Close? {
      OneConn(s, op);
      assert op.Deliver? ==> op.c !in s.handed;
    }
    assert forall c :: c in t.handed <==> c in s.handed || (op.Deliver? && c == op.c);
  }

  // ---- runs ----

  datatype Run = Run(ops: seq<Op>, states: seq<State>)

  ghost predicate Initial(s: State) {
    s.conns == map[] && s.pending == {} && s.sem == 0 && !s.done && s.handed == []
  }

  ghost predicate Goes(r: Run, n: nat) {
    n < |r.ops| && n + 1 < |r.states| ==> Enabled(r.states[n], r.ops[n]) && r.states[n + 1] == Step(r.states[n], r.ops[n])
  }

  ghost predicate IsRun(r: Run) {
    |r.states| == |r.ops| + 1 && Initial(r.states[0]) && forall n: nat :: Goes(r, n)
  }

  lemma {:induction false} RunInv(r: Run, n: nat)
    requires IsRun(r) && n <= |r.ops|
    ensures Inv(r.states[n])
  {
    if n == 0 {
      assert Slots(r.states[0].conns) == {};
    } else {
      RunInv(r, n - 1);
      assert Goes(r, n - 1);
      StepSound(r.states[n - 1], r.ops[n - 1]);
      StepPending(r.states[n - 1], r.ops[n - 1]);
      StepSem(r.states[n - 1], r.ops[n - 1]);
      StepHanded(r.states[n - 1], r.ops[n - 1]);
    }
  }

  ghost function Handshakes(s: State): set<nat> {
    set c | c in s.conns && Handshaking(s.conns[c].phase)
  }

  /** There are never more handshakes than the semaphore admits. */
  lemma HandshakesBounded(r: Run, n: nat)
    requires IsRun(r) && n <= |r.ops|
    ensures |Handshakes(r.states[n])| <= r.states[n].sem <= r.states[n].limit
  {
    RunInv(r, n);
    var s := r.states[n];
    assert Handshakes(s) <= Slots(s.conns);
    Smaller(Handshakes(s), Slots(s.conns));
  }

  /** Every connection is in exactly one place: in a handshake, returned by Accept once, or closed. */
  lemma EveryConnAccounted(r: Run, n: nat, c: nat)
    requires IsRun(r) && n <= |r.ops| && c in r.states[n].conns
    ensures var s, x := r.states[n], r.states[n].conns[c];
      && NoDup(s.handed)
      && (c in s.handed <==> x.phase == Delivered)
      && (c in s.pending <==> x.phase == Pending)
      && (!Handshaking(x.phase) && c !in s.handed ==> x.closed)
  {
    RunInv(r, n);
  }

  /** What Accept returns came from a trusted peer and carried a valid header. */
  lemma HandedIsVetted(r: Run, n: nat, c: nat)
    requires IsRun(r) && n <= |r.ops| && c in r.states[n].handed
    ensures c in r.states[n].conns && r.states[n].conns[c].trusted && r.states[n].conns[c].header == Some(true)
  {
    RunInv(r, n);
  }

  /** After Close every connection still waiting for its header is closed, and none joins them. */
  lemma CloseReachesPending(r: Run, n: nat, c: nat)
    requires IsRun(r) && n <= |r.ops| && r.states[n].done && c in r.states[n].pending
    ensures c in r.states[n].conns && r.states[n].conns[c].closed && r.states[n].conns[c].cut
  {
    RunInv(r, n);
  }

  /** Close ran at step k and found c among the pending connections. */
  ghost predicate CutAt(r: Run, k: nat, c: nat) {
    k < |r.ops| && k < |r.states| && r.ops[k] == Close && c in r.states[k].pending
  }

  lemma CutNext(s: State, op: Op, c: nat)
    requires Enabled(s, op) && PendingExact(s) && c in Step(s, op).conns
    ensures Step(s, op).conns[c].cut <==> (c in s.conns && s.conns[c].cut) || (op == Close && c in s.pending)
  {
  }

  lemma {:induction false} CutIff(r: Run, n: nat, c: nat)
    requires IsRun(r) && n <= |r.ops| && c in r.states[n].conns
    ensures r.states[n].conns[c].cut <==> exists k :: 0 <= k < n && CutAt(r, k, c)
    decreases n
  {
    if n > 0 {
      RunInv(r, n - 1);
      assert Goes(r, n - 1);
      CutNext(r.states[n - 1], r.ops[n - 1], c);
      assert CutAt(r, n - 1, c) <==> r.ops[n - 1] == Close && c in r.states[n - 1].pending;
      if c in r.states[n - 1].conns {
        CutIff(r, n - 1, c);
      } else {
        NotYetCut(r, n - 1, c);
      }
    }
  }

  /** Connections are never forgotten. */
  lemma {:induction false} Remembered(r: Run, k: nat, n: nat, c: nat)
    requires IsRun(r) && k <= n <= |r.ops| && c in r.states[k].conns
    ensures c in r.states[n].conns
    decreases n
  {
    if k < n {
      Remembered(r, k, n - 1, c);
      assert Goes(r, n - 1);
    }
  }

  lemma NotYetCut(r: Run, n: nat, c: nat)
    requires IsRun(r) && n <= |r.ops| && c !in r.states[n].conns
    ensures forall k :: 0 <= k < n ==> !CutAt(r, k, c)
  {
    forall k | 0 <= k < n ensures !CutAt(r, k, c) {
      RunInv(r, k);
      if c in r.states[k].conns {
        Remembered(r, k, n, c);
      }
    }
  }

  /** The listener returns a closed connection exactly when Close found it waiting for its header. */
  lemma HandedClosedIff(r: Run, n: nat, c: nat)
    requires IsRun(r) && n <= |r.ops| && c in r.states[n].handed
    ensures c in r.states[n].conns
    ensures r.states[n].conns[c].closed <==> exists k :: 0 <= k < n && CutAt(r, k, c)
  {
    RunInv(r, n);
    CutIff(r, n, c);
  }

  // ---- such a run ----

  /** A connection as it goes through its handshake alone. */
  ghost function Alone(limit: nat, c: nat, x: Conn, pending: bool, done: bool, handed: seq<nat>): State {
    State(limit, map[c := x], if pending then {c} else {}, 1, done, handed)
  }

  lemma Opening(limit: nat, c: nat) returns (s: seq<State>)
    requires limit > 0
    ensures |s| == 4 && Initial(s[0]) && s[3] == Alone(limit, c, Conn(true, Pending, Some(true), false, true, false), true, false, [])
    ensures Enabled(s[0], Arrive(c, true)) && s[1] == Step(s[0], Arrive(c, true))
    ensures Enabled(s[1], Enter(c)) && s[2] == Step(s[1], Enter(c))
    ensures Enabled(s[2], Judge(c, true)) && s[3] == Step(s[2], Judge(c, true))
  {
    var s0 := State(limit, map[], {}, 0, false, []);
    var s1 := Alone(limit, c, Conn(true, Spawned, None, false, true, false), false, false, []);
    var s2 := Alone(limit, c, Conn(true, Pending, None, false, true, false), true, false, []);
    s := [s0, s1, s2, Alone(limit, c, Conn(true, Pending, Some(true), false, true, false), true, false, [])];
  }

  lemma Closing(limit: nat, c: nat, s: State) returns (t: seq<State>)
    requires s == Alone(limit, c, Conn(true, Pending, Some(true), false, true, false), true, false, [])
    ensures |t| == 3 && t[2] == Alone(limit, c, Conn(true, Delivered, Some(true), true, true, true), false, true, [c])
    ensures Enabled(s, Close) && t[0] == Step(s, Close)
    ensures Enabled(t[0], Unlist(c)) && t[1] == Step(t[0], Unlist(c))
    ensures Enabled(t[1], Deliver(c)) && t[2] == Step(t[1], Deliver(c))
  {
    var t0 := Alone(limit, c, Conn(true, Pending, Some(true), true, true, true), true, true, []);
    assert Step(s, Close) == t0;
    var t1 := Alone(limit, c, Conn(true, Waiting, Some(true), true, true, true), false, true, []);
    assert Step(t0, Unlist(c)) == t1;
    t := [t0, t1, Alone(limit, c, Conn(true, Delivered, Some(true), true, true, true), false, true, [c])];
  }

  /** The header of c is read, Close finds c still listed, and the handshake hands c over all the same. */
  lemma ClosedIsHanded(limit: nat, c: nat) returns (r: Run, n: nat)
    requires limit > 0
    ensures IsRun(r) && n <= |r.ops| && c in r.states[n].handed
    ensures c in r.states[n].conns && r.states[n].conns[c].closed
  {
    var s := Opening(limit, c);
    var t := Closing(limit, c, s[3]);
    r := Run([Arrive(c, true), Enter(c), Judge(c, true), Close, Unlist(c), Deliver(c)], s + t);
    n := 6;
    forall k: nat ensures Goes(r, k) {
    }
  }
}
