/** What every interleaving of dispatch, serve and Stop keeps. */
module TcpRuns {
  import opened Limits
  import opened TcpServers

  // ---- the limiter counts the slots ----

  /** A step of one connection that neither takes nor gives back a slot. */
  lemma SlotsKept(s: State, t: State, c: nat, x: Conn)
    requires SlotsCounted(s) && t.limiter == s.limiter && t.conns == s.conns[c := x]
    requires if c in s.conns then s.conns[c].ip == x.ip && Holds(s.conns[c].phase) == Holds(x.phase) else !Holds(x.phase)
    ensures SlotsCounted(t)
  {
    forall ip ensures |Select(t.conns, HoldersOf(ip))| == |Select(s.conns, HoldersOf(ip))| {
      SelectPut(s.conns, c, x, HoldersOf(ip));
    }
    SelectPut(s.conns, c, x, AllHolders);
  }

  lemma SlotTaken(s: State, c: nat)
    requires SlotsCounted(s) && At(s, c, Accepted)
    ensures SlotsCounted(Took(s, c))
  {
    var t, x := Took(s, c), s.conns[c];
    if Admits(s.limiter, x.ip) {
      AcquireValid(s.limiter, x.ip);
      forall ip ensures Held(t.limiter, ip) == |Select(t.conns, HoldersOf(ip))| {
        SelectPut(s.conns, c, t.conns[c], HoldersOf(ip));
      }
      SelectPut(s.conns, c, t.conns[c], AllHolders);
    } else {
      SlotsKept(s, t, c, t.conns[c]);
    }
  }

  lemma SlotGiven(s: State, c: nat, p: Phase)
    requires SlotsCounted(s) && c in s.conns && Holds(s.conns[c].phase) && !Holds(p)
    ensures SlotsCounted(Gave(s, c, p))
  {
    var t, x := Gave(s, c, p), s.conns[c];
    assert c in Select(s.conns, HoldersOf(x.ip));
    assert Held(s.limiter, x.ip) > 0;
    ReleaseValid(s.limiter, x.ip);
    forall ip ensures Held(t.limiter, ip) == |Select(t.conns, HoldersOf(ip))| {
      SelectPut(s.conns, c, t.conns[c], HoldersOf(ip));
    }
    SelectPut(s.conns, c, t.conns[c], AllHolders);
  }

  lemma StepSlots(s: State, op: Op)
    requires SlotsCounted(s) && Enabled(s, op)
    ensures SlotsCounted(Step(s, op))
  {
    var t := Step(s, op);
    match op {
      case TakeSlot(c) => SlotTaken(s, c);
      case ReturnSlot(c) => SlotGiven(s, c, Dropping);
      case FreeSlot(c) => SlotGiven(s, c, Freed);
      case StopBegin(_, _) =>
      case _ => SlotsKept(s, t, op.c, t.conns[op.c]);
    }
  }

  // ---- servers know their workers ----

  /** The operations that leave every server as it is. */
  predicate Quiet(op: Op) {
    !op.Register? && !op.Leave? && !op.Done? && !op.StopBegin?
  }

  predicate SamePost(x: Conn, y: Conn) {
    x.server == y.server && InConns(x.phase) == InConns(y.phase) && Working(x.phase) == Working(y.phase)
  }

  lemma QuietStep(s: State, op: Op)
    requires Enabled(s, op) && Quiet(op)
    ensures var t := Step(s, op);
      && t.servers == s.servers && op.c in t.conns && t.conns == s.conns[op.c := t.conns[op.c]]
      && (op.c in s.conns ==> SamePost(s.conns[op.c], t.conns[op.c]))
      && (op.c !in s.conns ==> !Working(t.conns[op.c].phase) && t.conns[op.c].server in s.servers)
  {
  }

  lemma ServerKept(v: Server, conns: map<nat, Conn>, c: nat, x: Conn, i: nat)
    requires Counted(v, conns, i)
    requires Fits(MembersOf(i), x) <==> c in Select(conns, MembersOf(i))
    requires Fits(WorkersOf(i), x) <==> c in Select(conns, WorkersOf(i))
    ensures Counted(v, conns[c := x], i)
  {
    SelectPut(conns, c, x, MembersOf(i));
    SelectPut(conns, c, x, WorkersOf(i));
  }

  lemma ServerMoved(v: Server, conns: map<nat, Conn>, c: nat, x: Conn, i: nat)
    requires Counted(v, conns, i)
    ensures Counted(Server(
        if Fits(MembersOf(i), x) then v.conns + {c} else v.conns - {c},
        v.stopping,
        v.wg - (if c in Select(conns, WorkersOf(i)) then 1 else 0) + (if Fits(WorkersOf(i), x) then 1 else 0)),
      conns[c := x], i)
  {
    SelectPut(conns, c, x, MembersOf(i));
    SelectPut(conns, c, x, WorkersOf(i));
  }

  /** A step of one connection that changes no group of a server. */
  lemma WorkersKept(s: State, c: nat, x: Conn)
    requires WorkersCounted(s) && x.server in s.servers
    requires c in s.conns ==> SamePost(s.conns[c], x)
    requires c !in s.conns ==> !Working(x.phase)
    ensures forall i :: i in s.servers ==> Counted(s.servers[i], s.conns[c := x], i)
  {
    forall i | i in s.servers ensures Counted(s.servers[i], s.conns[c := x], i) {
      ServerKept(s.servers[i], s.conns, c, x, i);
    }
  }

  /** A step that moves one connection within its own server leaves the other servers. */
  lemma OthersKept(s: State, c: nat, x: Conn, i: nat)
    requires WorkersCounted(s) && c in s.conns && x.server == s.conns[c].server != i && i in s.servers
    ensures Counted(s.servers[i], s.conns[c := x], i)
  {
    ServerKept(s.servers[i], s.conns, c, x, i);
  }

  lemma RegisterWorkers(s: State, c: nat)
    requires WorkersCounted(s) && At(s, c, Holding) && !s.servers[s.conns[c].server].stopping
    ensures WorkersCounted(Registered(s, c))
  {
    var t, i := Registered(s, c), s.conns[c].server;
    ServerMoved(s.servers[i], s.conns, c, t.conns[c], i);
    forall j | j in t.servers && j != i ensures Counted(t.servers[j], t.conns, j) {
      OthersKept(s, c, t.conns[c], j);
    }
  }

  lemma LeaveWorkers(s: State, c: nat)
    requires WorkersCounted(s) && At(s, c, Freed)
    ensures WorkersCounted(LeftServer(s, c))
  {
    var t, i := LeftServer(s, c), s.conns[c].server;
    ServerMoved(s.servers[i], s.conns, c, t.conns[c], i);
    forall j | j in t.servers && j != i ensures Counted(t.servers[j], t.conns, j) {
      OthersKept(s, c, t.conns[c], j);
    }
  }

  lemma DoneWorkers(s: State, c: nat)
    requires WorkersCounted(s) && At(s, c, Left)
    ensures WorkersCounted(DoneIn(s, c))
  {
    var t, i := DoneIn(s, c), s.conns[c].server;
    assert Counted(s.servers[i], s.conns, i);
    assert s.servers[i].conns - {c} == s.servers[i].conns;
    ServerMoved(s.servers[i], s.conns, c, t.conns[c], i);
    forall j | j in t.servers && j != i ensures Counted(t.servers[j], t.conns, j) {
      OthersKept(s, c, t.conns[c], j);
    }
  }

  lemma QuietWorkers(s: State, op: Op)
    requires WorkersCounted(s) && Enabled(s, op) && Quiet(op)
    ensures WorkersCounted(Step(s, op))
  {
    QuietStep(s, op);
    WorkersKept(s, op.c, Step(s, op).conns[op.c]);
  }

  lemma StepWorkers(s: State, op: Op)
    requires WorkersCounted(s) && Enabled(s, op)
    ensures WorkersCounted(Step(s, op))
  {
    match op {
      case Register(c) =>
        if s.servers[s.conns[c].server].stopping {
          WorkersKept(s, c, s.conns[c].(phase := Refused));
        } else {
          RegisterWorkers(s, c);
        }
      case Leave(c) => LeaveWorkers(s, c);
      case Done(c) => DoneWorkers(s, c);
      case StopBegin(_, _) =>
      case _ => QuietWorkers(s, op);
    }
  }

  // ---- Stop reaches every registered connection ----

  /** A closed connection stays closed. */
  lemma ClosedStays(s: State, op: Op, c: nat)
    requires Enabled(s, op) && c in s.conns && s.conns[c].closed
    ensures c in Step(s, op).conns && Step(s, op).conns[c].closed
  {
  }

  lemma StillCovers(s: State, op: Op, p: Stopper, q: Stopper)
    requires Enabled(s, op) && Covers(s, p) && q.server == p.server
    requires forall c :: c in p.todo ==> c in q.todo || (c in Step(s, op).conns && Step(s, op).conns[c].closed)
    ensures Covers(Step(s, op), q)
  {
    StepStopped(s, op, p.server);
    forall c | c in Step(s, op).servers[p.server].conns
      ensures c in q.todo || (c in Step(s, op).conns && Step(s, op).conns[c].closed)
    {
      if c !in p.todo {
        ClosedStays(s, op, c);
      }
    }
  }

  lemma StopsOf(s: State, op: Op, t: nat)
    requires Enabled(s, op) && t in Step(s, op).stops && (t in s.stops ==> Covers(s, s.stops[t]))
    ensures Covers(Step(s, op), Step(s, op).stops[t])
  {
    if t in s.stops {
      StillCovers(s, op, s.stops[t], Step(s, op).stops[t]);
    }
  }

  lemma StepStops(s: State, op: Op)
    requires StopsCover(s) && Enabled(s, op)
    ensures StopsCover(Step(s, op))
  {
    forall t | t in Step(s, op).stops ensures Covers(Step(s, op), Step(s, op).stops[t]) {
      assert t in s.stops ==> Covers(s, s.stops[t]);
      StopsOf(s, op, t);
    }
  }

  /** Every step but the start of a Stop changes one connection. */
  lemma OneConn(s: State, op: Op)
    requires Enabled(s, op) && !op.StopBegin?
    ensures var t := Step(s, op); op.c in t.conns && t.conns == s.conns[op.c := t.conns[op.c]]
  {
  }

  lemma PairedNext(s: State, op: Op)
    requires Enabled(s, op) && !op.StopBegin? && (op.c in s.conns ==> Paired(s.conns[op.c]))
    ensures op.c in Step(s, op).conns && Paired(Step(s, op).conns[op.c])
  {
  }

  lemma StepPairs(s: State, op: Op)
    requires SlotsPaired(s) && Enabled(s, op)
    ensures SlotsPaired(Step(s, op))
  {
    if !op.StopBegin? {
      OneConn(s, op);
      PairedNext(s, op);
    }
  }

  lemma StepCloses(s: State, op: Op)
    requires DoneIsClosed(s) && Enabled(s, op)
    ensures DoneIsClosed(Step(s, op))
  {
  }

  // ---- runs ----

  ghost predicate Initial(s: State) {
    && s.limiter.global == 0 && s.limiter.perIP == map[] && s.conns == map[] && s.stops == map[]
    && forall i :: i in s.servers ==> s.servers[i] == Server({}, false, 0)
  }

  datatype Run = Run(ops: seq<Op>, states: seq<State>)

  ghost predicate Goes(r: Run, n: nat) {
    n < |r.ops| && n + 1 < |r.states| ==> Enabled(r.states[n], r.ops[n]) && r.states[n + 1] == Step(r.states[n], r.ops[n])
  }

  ghost predicate IsRun(r: Run) {
    |r.states| == |r.ops| + 1 && Initial(r.states[0]) && forall n: nat :: Goes(r, n)
  }

  lemma InitialInv(s: State)
    requires Initial(s)
    ensures Inv(s)
  {
    assert forall g :: Select(s.conns, g) == {};
  }

  /** Every reachable state keeps the whole invariant. */
  lemma {:induction false} RunInv(r: Run, n: nat)
    requires IsRun(r) && n <= |r.ops|
    ensures Inv(r.states[n])
  {
    if n == 0 {
      InitialInv(r.states[0]);
    } else {
      RunInv(r, n - 1);
      assert Goes(r, n - 1);
      var s, op := r.states[n - 1], r.ops[n - 1];
      StepSlots(s, op);
      StepWorkers(s, op);
      StepStops(s, op);
      StepPairs(s, op);
      StepCloses(s, op);
    }
  }

  /** The limiter counts the slots held, per source and in total, and never more than the caps. */
  lemma SlotsWithinCaps(r: Run, n: nat, ip: string)
    requires IsRun(r) && n <= |r.ops|
    ensures var s := r.states[n];
      && s.limiter.global == |Select(s.conns, AllHolders)| == Sum(s.limiter.perIP)
      && Held(s.limiter, ip) == |Select(s.conns, HoldersOf(ip))|
      && (Select(s.conns, AllHolders) != {} ==> |Select(s.conns, AllHolders)| <= s.limiter.maxGlobal)
      && (Select(s.conns, HoldersOf(ip)) != {} ==> |Select(s.conns, HoldersOf(ip))| <= s.limiter.maxPerIP)
  {
    RunInv(r, n);
  }

  /** A connection that is gone has given back the slot it took, and is closed. */
  lemma GoneIsSettled(r: Run, n: nat, c: nat)
    requires IsRun(r) && n <= |r.ops| && c in r.states[n].conns && r.states[n].conns[c].phase == Gone
    ensures var x := r.states[n].conns[c]; x.given == x.taken <= 1 && x.closed
  {
    RunInv(r, n);
  }

  /** A stopping server only loses connections and workers. */
  lemma StepStopped(s: State, op: Op, i: nat)
    requires Enabled(s, op) && i in s.servers && s.servers[i].stopping
    ensures var t := Step(s, op);
      i in t.servers && t.servers[i].stopping && t.servers[i].wg <= s.servers[i].wg && t.servers[i].conns <= s.servers[i].conns
  {
    if Quiet(op) {
      QuietStep(s, op);
    }
  }

  lemma RunStopped(r: Run, n: nat, i: nat)
    requires IsRun(r) && n < |r.ops| && i in r.states[n].servers && r.states[n].servers[i] == Server({}, true, 0)
    ensures i in r.states[n + 1].servers && r.states[n + 1].servers[i] == Server({}, true, 0)
  {
    RunInv(r, n + 1);
    assert Goes(r, n);
    StepStopped(r.states[n], r.ops[n], i);
    assert Counted(r.states[n + 1].servers[i], r.states[n + 1].conns, i);
  }

  lemma RunDrained(r: Run, n: nat, i: nat)
    requires IsRun(r) && n <= |r.ops|
    requires i in r.states[n].servers && r.states[n].servers[i].stopping && r.states[n].servers[i].wg == 0
    ensures r.states[n].servers[i] == Server({}, true, 0)
  {
    RunInv(r, n);
    NoWorkersNoMembers(r.states[n], i);
  }

  /** Once a server is stopping and its wait group is zero, nothing is registered and nothing ever will be. */
  lemma {:induction false} StoppedForGood(r: Run, m: nat, n: nat, i: nat)
    requires IsRun(r) && m <= n <= |r.ops|
    requires i in r.states[m].servers && r.states[m].servers[i].stopping && r.states[m].servers[i].wg == 0
    ensures i in r.states[n].servers && r.states[n].servers[i] == Server({}, true, 0)
    decreases n
  {
    if n == m {
      RunDrained(r, m, i);
    } else {
      StoppedForGood(r, m, n - 1, i);
      RunStopped(r, n - 1, i);
    }
  }

  lemma NoWorkersNoMembers(s: State, i: nat)
    requires WorkersCounted(s) && i in s.servers && s.servers[i].wg == 0
    ensures s.servers[i].conns == {}
  {
    assert Select(s.conns, MembersOf(i)) <= Select(s.conns, WorkersOf(i));
  }

  /** When a Stop call has worked off its snapshot, no registered connection of its server is open. */
  lemma StopLeavesNoneOpen(r: Run, n: nat, t: nat, c: nat)
    requires IsRun(r) && n <= |r.ops| && t in r.states[n].stops && r.states[n].stops[t].todo == {}
    requires var i := r.states[n].stops[t].server; i in r.states[n].servers && c in r.states[n].servers[i].conns
    ensures c in r.states[n].conns && r.states[n].conns[c].closed
  {
    RunInv(r, n);
  }
}
