/** Which connections the PROXY listener handshakes with, lists and hands over, told from the steps of a run. */
module ProxyGrants {
  import opened Fifo
  import opened ProxyListeners
  import opened ProxyRuns

  // ---- what the steps say ----

  ghost predicate ArrivedAs(r: Run, n: nat, c: nat, trusted: bool) {
    exists k :: 0 <= k < n && k < |r.ops| && r.ops[k] == Arrive(c, trusted)
  }

  ghost predicate Judged(r: Run, n: nat, c: nat, valid: bool) {
    exists k :: 0 <= k < n && k < |r.ops| && r.ops[k] == Judge(c, valid)
  }

  ghost predicate CloseBefore(r: Run, n: nat) {
    exists k :: 0 <= k < n && k < |r.ops| && r.ops[k] == Close
  }

  /** The k-th step started a handshake with c. */
  predicate Begun(r: Run, k: nat, c: nat) {
    k < |r.ops| && k + 1 < |r.states| && r.ops[k].Arrive? && r.ops[k].c == c && At(r.states[k + 1], c, Spawned)
  }

  /** After n steps the handshake with c has started and has not returned. */
  ghost predicate Running(r: Run, n: nat, c: nat) {
    exists k :: 0 <= k < n && Begun(r, k, c) && forall j :: k < j < n && j < |r.ops| ==> r.ops[j] != FreeSlot(c)
  }

  ghost function AllRunning(r: Run, n: nat): set<nat>
    requires n < |r.states|
  {
    set c | c in r.states[n].conns && Running(r, n, c)
  }

  // ---- one step ----

  predicate HasSlot(s: State, c: nat) {
    c in s.conns && s.conns[c].slot
  }

  lemma StepSlot(s: State, op: Op, c: nat)
    requires Enabled(s, op) && PendingExact(s)
    ensures var t := Step(s, op);
      && (HasSlot(t, c) <==> (op.Arrive? && op.c == c && At(t, c, Spawned)) || (HasSlot(s, c) && op != FreeSlot(c)))
      && t.limit == s.limit && (t.done <==> s.done || op == Close)
  {
  }

  lemma StepNotes(s: State, op: Op, c: nat)
    requires Enabled(s, op) && PendingExact(s) && c in Step(s, op).conns
    ensures var x := Step(s, op).conns[c];
      if c in s.conns
      then x.trusted == s.conns[c].trusted && x.header == if op.Judge? && op.c == c then Some(op.valid) else s.conns[c].header
      else op == Arrive(c, x.trusted) && x.header == None
  {
  }

  // ---- every run ----

  lemma RunningNext(r: Run, m: nat, c: nat)
    requires m < |r.ops| && |r.states| == |r.ops| + 1
    ensures Running(r, m + 1, c) <==> Begun(r, m, c) || (Running(r, m, c) && r.ops[m] != FreeSlot(c))
  {
    if Begun(r, m, c) {
      assert Running(r, m + 1, c);
    }
    if Running(r, m, c) && r.ops[m] != FreeSlot(c) {
      var k :| 0 <= k < m && Begun(r, k, c) && forall j :: k < j < m && j < |r.ops| ==> r.ops[j] != FreeSlot(c);
      assert Running(r, m + 1, c);
    }
  }

  lemma {:induction false} RunningIff(r: Run, n: nat, c: nat)
    requires IsRun(r) && n <= |r.ops|
    ensures HasSlot(r.states[n], c) <==> Running(r, n, c)
    ensures r.states[n].limit == r.states[0].limit && (r.states[n].done <==> CloseBefore(r, n))
  {
    if n > 0 {
      var m := n - 1;
      RunInv(r, m);
      RunningIff(r, m, c);
      assert Goes(r, m);
      StepSlot(r.states[m], r.ops[m], c);
      RunningNext(r, m, c);
    }
  }

  lemma {:induction false} NotesAre(r: Run, n: nat, c: nat)
    requires IsRun(r) && n <= |r.ops| && c in r.states[n].conns
    ensures var x := r.states[n].conns[c];
      ArrivedAs(r, n, c, x.trusted) && (x.header.Some? ==> Judged(r, n, c, x.header.value))
  {
    var m := n - 1;
    assert Goes(r, m);
    RunInv(r, m);
    StepNotes(r.states[m], r.ops[m], c);
    if c in r.states[m].conns {
      NotesAre(r, m, c);
    }
  }

  /** A new connection gets a handshake if and only if its peer is trusted and fewer than the limit are running;
      otherwise it is closed at once. */
  lemma HandshakeIff(r: Run, n: nat, c: nat, trusted: bool)
    requires IsRun(r) && n < |r.ops| && r.ops[n] == Arrive(c, trusted)
    ensures c in r.states[n + 1].conns
    ensures var x := r.states[n + 1].conns[c];
      if trusted && |AllRunning(r, n)| < r.states[0].limit then x.phase == Spawned && !x.closed else x.phase == Dropped && x.closed
  {
    RunInv(r, n);
    assert Goes(r, n);
    RunningIff(r, n, c);
    forall d | d in r.states[n].conns ensures Running(r, n, d) <==> r.states[n].conns[d].slot {
      RunningIff(r, n, d);
    }
    assert AllRunning(r, n) == Slots(r.states[n].conns);
  }

  /** Its header is waited for if and only if the listener is not closed by then. */
  lemma ListedIff(r: Run, n: nat, c: nat)
    requires IsRun(r) && n < |r.ops| && r.ops[n] == Enter(c)
    ensures c in r.states[n + 1].conns
    ensures var x := r.states[n + 1].conns[c];
      if CloseBefore(r, n) then x.phase == Dropped && x.closed else x.phase == Pending && c in r.states[n + 1].pending
  {
    assert Goes(r, n);
    RunningIff(r, n, c);
  }

  /** What Accept returns came from a trusted peer and carried a valid header. */
  lemma HandedCarriedHeader(r: Run, n: nat, c: nat)
    requires IsRun(r) && n <= |r.ops| && c in r.states[n].handed
    ensures ArrivedAs(r, n, c, true) && Judged(r, n, c, true)
  {
    HandedIsVetted(r, n, c);
    NotesAre(r, n, c);
  }
}
