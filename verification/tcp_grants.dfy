/** When a connection gets its slot and when it is served, told from the steps of a run. */
module TcpGrants {
  import opened TcpServers
  import opened TcpRuns

  // ---- what the steps say ----

  /** The k-th step gave c a slot. */
  predicate Granted(r: Run, k: nat, c: nat) {
    k < |r.ops| && k + 1 < |r.states| && r.ops[k] == TakeSlot(c) && At(r.states[k + 1], c, Holding)
  }

  predicate GivesBack(op: Op, c: nat) {
    op == ReturnSlot(c) || op == FreeSlot(c)
  }

  /** After n steps c has been given a slot and has not given it back. */
  ghost predicate Keeps(r: Run, n: nat, c: nat) {
    exists k :: 0 <= k < n && Granted(r, k, c) && forall j :: k < j < n && j < |r.ops| ==> !GivesBack(r.ops[j], c)
  }

  /** c was accepted for the server from ip. */
  ghost predicate AcceptedFrom(r: Run, n: nat, c: nat, server: nat, ip: string) {
    exists k :: 0 <= k < n && k < |r.ops| && r.ops[k] == Accept(c, server, ip)
  }

  ghost predicate StopBefore(r: Run, n: nat, server: nat) {
    exists k :: 0 <= k < n && k < |r.ops| && r.ops[k].StopBegin? && r.ops[k].server == server
  }

  // ---- connections and what they were accepted as ----

  lemma StepConn(s: State, op: Op, c: nat)
    requires Enabled(s, op)
    ensures var t := Step(s, op);
      && (c in t.conns <==> c in s.conns || (op.Accept? && op.c == c))
      && (c in s.conns ==> t.conns[c].server == s.conns[c].server && t.conns[c].ip == s.conns[c].ip && !(op.Accept? && op.c == c))
      && t.limiter.maxGlobal == s.limiter.maxGlobal && t.limiter.maxPerIP == s.limiter.maxPerIP
  {
  }

  lemma {:induction false} ConnsAccepted(r: Run, n: nat, c: nat)
    requires IsRun(r) && n <= |r.ops|
    ensures c in r.states[n].conns ==> AcceptedFrom(r, n, c, r.states[n].conns[c].server, r.states[n].conns[c].ip)
    ensures r.states[n].limiter.maxGlobal == r.states[0].limiter.maxGlobal
    ensures r.states[n].limiter.maxPerIP == r.states[0].limiter.maxPerIP
  {
    if n > 0 {
      ConnsAccepted(r, n - 1, c);
      assert Goes(r, n - 1);
      StepConn(r.states[n - 1], r.ops[n - 1], c);
      if c in r.states[n].conns && c !in r.states[n - 1].conns {
        assert r.ops[n - 1] == Accept(c, r.states[n].conns[c].server, r.states[n].conns[c].ip);
      }
    }
  }

  // ---- slots ----

  predicate HoldsAt(s: State, c: nat) {
    c in s.conns && Holds(s.conns[c].phase)
  }

  lemma StepHolds(s: State, op: Op, c: nat)
    requires Enabled(s, op)
    ensures var t := Step(s, op);
      HoldsAt(t, c) <==> (op == TakeSlot(c) && At(t, c, Holding)) || (HoldsAt(s, c) && !GivesBack(op, c))
  {
  }

  lemma {:induction false} KeepsIff(r: Run, n: nat, c: nat)
    requires IsRun(r) && n <= |r.ops|
    ensures HoldsAt(r.states[n], c) <==> Keeps(r, n, c)
  {
    if n > 0 {
      var m := n - 1;
      KeepsIff(r, m, c);
      assert Goes(r, m);
      StepHolds(r.states[m], r.ops[m], c);
      KeepsNext(r, m, c);
    }
  }

  lemma KeepsNext(r: Run, m: nat, c: nat)
    requires m < |r.ops| && |r.states| == |r.ops| + 1
    ensures Keeps(r, m + 1, c) <==> Granted(r, m, c) || (Keeps(r, m, c) && !GivesBack(r.ops[m], c))
  {
    if Granted(r, m, c) {
      assert Keeps(r, m + 1, c);
    }
    if Keeps(r, m, c) && !GivesBack(r.ops[m], c) {
      var k :| 0 <= k < m && Granted(r, k, c) && forall j :: k < j < m && j < |r.ops| ==> !GivesBack(r.ops[j], c);
      assert Keeps(r, m + 1, c);
    }
  }

  /** The connections that keep a slot, and those of one source. */
  ghost function Keepers(r: Run, n: nat): set<nat>
    requires n < |r.states|
  {
    set c | c in r.states[n].conns && Keeps(r, n, c)
  }

  ghost function KeepersOf(r: Run, n: nat, ip: string): set<nat>
    requires n < |r.states|
  {
    set c | c in r.states[n].conns && r.states[n].conns[c].ip == ip && Keeps(r, n, c)
  }

  lemma KeepersAre(r: Run, n: nat, ip: string)
    requires IsRun(r) && n <= |r.ops|
    ensures Keepers(r, n) == Select(r.states[n].conns, AllHolders)
    ensures KeepersOf(r, n, ip) == Select(r.states[n].conns, HoldersOf(ip))
  {
    forall c | c in r.states[n].conns ensures Keeps(r, n, c) <==> Holds(r.states[n].conns[c].phase) {
      KeepsIff(r, n, c);
    }
  }

  /** A connection that asks gets a slot if and only if fewer than the caps are kept, in all and by its source;
      otherwise it is closed and gone. */
  lemma SlotIff(r: Run, n: nat, c: nat)
    requires IsRun(r) && n < |r.ops| && r.ops[n] == TakeSlot(c)
    ensures c in r.states[n].conns && c in r.states[n + 1].conns
    ensures var ip, caps, x := r.states[n].conns[c].ip, r.states[0].limiter, r.states[n + 1].conns[c];
      if |Keepers(r, n)| < caps.maxGlobal && |KeepersOf(r, n, ip)| < caps.maxPerIP then x.phase == Holding
      else x.phase == Gone && x.closed
  {
    assert Goes(r, n);
    var ip := r.states[n].conns[c].ip;
    RunInv(r, n);
    ConnsAccepted(r, n, c);
    KeepersAre(r, n, ip);
  }

  // ---- service ----

  lemma StepStopping(s: State, op: Op, i: nat)
    requires Enabled(s, op)
    ensures var t := Step(s, op);
      && (i in t.servers <==> i in s.servers)
      && (i in s.servers ==> (t.servers[i].stopping <==> s.servers[i].stopping || (op.StopBegin? && op.server == i)))
  {
  }

  lemma {:induction false} StoppingIff(r: Run, n: nat, i: nat)
    requires IsRun(r) && n <= |r.ops| && i in r.states[n].servers
    ensures r.states[n].servers[i].stopping <==> StopBefore(r, n, i)
  {
    if n > 0 {
      assert Goes(r, n - 1);
      StepStopping(r.states[n - 1], r.ops[n - 1], i);
      StoppingIff(r, n - 1, i);
    }
  }

  /** A connection with a slot is served if and only if Stop has not been called on its server. */
  lemma ServedIff(r: Run, n: nat, c: nat)
    requires IsRun(r) && n < |r.ops| && r.ops[n] == Register(c)
    ensures c in r.states[n].conns && c in r.states[n + 1].conns
    ensures r.states[n + 1].conns[c].phase == if StopBefore(r, n, r.states[n].conns[c].server) then Refused else Serving
  {
    assert Goes(r, n);
    StoppingIff(r, n, r.states[n].conns[c].server);
  }
}
