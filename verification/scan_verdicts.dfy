/** Exactly when a touch of the scan tracker is called a scan. */
module ScanVerdicts {
  import opened Fifo
  import opened Scans
  import opened ScanRuns

  // ---------- what an entry holds ----------

  /** The i-th touch is recent at the n-th, a touch of the same source, and not lost with an eviction. */
  ghost predicate Standing(c: Config, r: Run, n: nat, i: nat)
    requires Shaped(r) && n < |r.ops| && r.ops[n].Touch?
  {
    Counts(c, r.ops, n, i, r.ops[n].ip) && forall m :: i < m < n ==> r.outs[m].evicted != Some(r.ops[n].ip)
  }

  ghost function StandingProtocols(c: Config, r: Run, n: nat): set<string>
    requires Shaped(r) && n < |r.ops| && r.ops[n].Touch?
  {
    set i: nat | i <= n && Standing(c, r, n, i) :: r.ops[i].proto
  }

  /** The ports of the standing touches before the k-th, without the skipped ones. */
  ghost function StandingPorts(c: Config, r: Run, n: nat, k: nat): set<int>
    requires Shaped(r) && n < |r.ops| && r.ops[n].Touch? && k <= n + 1
  {
    set i: nat | i < k && Standing(c, r, n, i) && r.ops[i].port > 0 && !r.outs[i].skipped :: r.ops[i].port
  }

  lemma NoSelfEviction(c: Config, r: Run, n: nat)
    requires IsRun(c, r) && n < |r.ops| && r.ops[n].Touch?
    ensures r.outs[n].evicted != Some(r.ops[n].ip)
  {
    assert Steps(c, r, n);
    EvicteeGone(c, r.states[n], r.ops[n].ip, r.ops[n].now);
  }

  lemma StandingShown(c: Config, r: Run, n: nat, i: nat)
    requires IsRun(c, r) && n < |r.ops| && r.ops[n].Touch? && Standing(c, r, n, i)
    ensures var ip := r.ops[n].ip; ip in r.states[n + 1].entries && Shows(r.ops[i], r.outs[i].skipped, r.states[n + 1].entries[ip])
    ensures i < n ==> r.ops[i].ip in r.states[n].entries && Shows(r.ops[i], r.outs[i].skipped, r.states[n].entries[r.ops[i].ip])
  {
    NoSelfEviction(c, r, n);
    assert Stands(r, n + 1, i, r.ops[n].ip);
    TouchRemembered(c, r, i, n + 1, r.ops[n].now);
    if i < n {
      assert Stands(r, n, i, r.ops[n].ip);
      TouchRemembered(c, r, i, n, r.ops[n].now);
    }
  }

  lemma TouchedEntry(c: Config, r: Run, n: nat)
    requires IsRun(c, r) && n < |r.ops| && r.ops[n].Touch?
    ensures var op := r.ops[n];
      && op.ip in r.states[n + 1].entries
      && r.states[n + 1].entries[op.ip] == Touched(c, EntryOr(r.states[n], op.ip), op.proto, op.port, op.now)
      && r.outs[n].scanner == Verdict(c, r.states[n + 1].entries[op.ip])
      && r.outs[n].skipped == Skips(c, EntryOr(r.states[n], op.ip), op.port, op.now)
  {
    assert Steps(c, r, n);
  }

  lemma ProtocolsHeld(c: Config, r: Run, n: nat)
    requires IsRun(c, r) && n < |r.ops| && r.ops[n].Touch? && r.ops[n].ip in r.states[n + 1].entries
    ensures r.states[n + 1].entries[r.ops[n].ip].touched.Keys == StandingProtocols(c, r, n)
  {
    var ip := r.ops[n].ip;
    var e := r.states[n + 1].entries[ip];
    TouchedEntry(c, r, n);
    EntriesAreReal(c, r, n + 1, ip);
    forall p | p in e.touched ensures p in StandingProtocols(c, r, n) {
      var i: nat :| TouchedBy(r, n + 1, ip, p, e.touched[p], i);
      assert Standing(c, r, n, i);
    }
    forall p | p in StandingProtocols(c, r, n) ensures p in e.touched {
      var i: nat :| i <= n && Standing(c, r, n, i) && r.ops[i].proto == p;
      StandingShown(c, r, n, i);
    }
  }

  lemma PortsHeld(c: Config, r: Run, n: nat)
    requires IsRun(c, r) && n < |r.ops| && r.ops[n].Touch? && r.ops[n].ip in r.states[n + 1].entries
    ensures r.states[n + 1].entries[r.ops[n].ip].ports.Keys == StandingPorts(c, r, n, n + 1)
  {
    var ip := r.ops[n].ip;
    var e := r.states[n + 1].entries[ip];
    forall p | p in e.ports ensures p in StandingPorts(c, r, n, n + 1) {
      HeldPortStands(c, r, n, p);
    }
    forall p | p in StandingPorts(c, r, n, n + 1) ensures p in e.ports {
      var i: nat :| i < n + 1 && Standing(c, r, n, i) && r.ops[i].port > 0 && !r.outs[i].skipped && r.ops[i].port == p;
      StandingShown(c, r, n, i);
    }
  }

  lemma HeldPortStands(c: Config, r: Run, n: nat, p: int)
    requires IsRun(c, r) && n < |r.ops| && r.ops[n].Touch? && r.ops[n].ip in r.states[n + 1].entries
    requires p in r.states[n + 1].entries[r.ops[n].ip].ports
    ensures p in StandingPorts(c, r, n, n + 1)
  {
    var ip := r.ops[n].ip;
    var at := r.states[n + 1].entries[ip].ports[p];
    TouchedEntry(c, r, n);
    EntriesAreReal(c, r, n + 1, ip);
    var i: nat :| OpenedBy(r, n + 1, ip, p, at, i);
    assert Standing(c, r, n, i);
  }

  lemma LivePorts(c: Config, r: Run, n: nat)
    requires IsRun(c, r) && n < |r.ops| && r.ops[n].Touch?
    ensures Unexpired(c, EntryOr(r.states[n], r.ops[n].ip).ports, r.ops[n].now).Keys == StandingPorts(c, r, n, n)
  {
    var ip := r.ops[n].ip;
    var e := EntryOr(r.states[n], ip);
    var live := Unexpired(c, e.ports, r.ops[n].now);
    EntriesAreReal(c, r, n, ip);
    forall p | p in live ensures p in StandingPorts(c, r, n, n) {
      var i: nat :| OpenedBy(r, n, ip, p, e.ports[p], i);
      assert Standing(c, r, n, i);
    }
    forall p | p in StandingPorts(c, r, n, n) ensures p in live {
      var i: nat :| i < n && Standing(c, r, n, i) && r.ops[i].port > 0 && !r.outs[i].skipped && r.ops[i].port == p;
      StandingShown(c, r, n, i);
    }
  }

  // ---------- verdicts ----------

  /** On every run, a touch is called a scan exactly if the recent touches of the source since its last eviction
      reach enough protocols, or enough ports without the skipped ones. */
  lemma VerdictIsExact(c: Config, r: Run, n: nat)
    requires IsRun(c, r) && n < |r.ops| && r.ops[n].Touch?
    ensures r.outs[n].scanner <==>
            |StandingProtocols(c, r, n)| >= c.threshold || |StandingPorts(c, r, n, n + 1)| >= 5
  {
    TouchedEntry(c, r, n);
    ProtocolsHeld(c, r, n);
    PortsHeld(c, r, n);
  }

  /** A port is skipped exactly if sixteen others are standing and it is not among them. */
  lemma SkippedIff(c: Config, r: Run, n: nat)
    requires IsRun(c, r) && n < |r.ops| && r.ops[n].Touch?
    ensures r.outs[n].skipped <==>
            r.ops[n].port > 0 && r.ops[n].port !in StandingPorts(c, r, n, n) && |StandingPorts(c, r, n, n)| >= 16
  {
    TouchedEntry(c, r, n);
    LivePorts(c, r, n);
  }

  /** A scan verdict always has enough distinct protocols or ports touched within the window. */
  lemma VerdictIsEarned(c: Config, r: Run, n: nat)
    requires IsRun(c, r) && n < |r.ops| && r.ops[n].Touch? && r.outs[n].scanner
    ensures ScansByHistory(c, r.ops, n, r.ops[n].ip)
  {
    var ip := r.ops[n].ip;
    VerdictIsExact(c, r, n);
    Smaller(StandingProtocols(c, r, n), RecentProtocols(c, r.ops, n, ip));
    Smaller(StandingPorts(c, r, n, n + 1), RecentPorts(c, r.ops, n, ip));
  }

  /** The source was not evicted within the window. */
  ghost predicate Unevicted(c: Config, r: Run, n: nat)
    requires Shaped(r) && n < |r.ops| && r.ops[n].Touch?
  {
    forall m :: 0 <= m < n && r.outs[m].evicted == Some(r.ops[n].ip) ==> r.ops[m].now + c.window <= r.ops[n].now
  }

  /** The ports touched within the window, without the touches that were skipped. */
  ghost function KeptPorts(c: Config, r: Run, n: nat): set<int>
    requires Shaped(r) && n < |r.ops| && r.ops[n].Touch?
  {
    set i: nat | i <= n && Counts(c, r.ops, n, i, r.ops[n].ip) && r.ops[i].port > 0 && !r.outs[i].skipped :: r.ops[i].port
  }

  lemma UnevictedStands(c: Config, r: Run, n: nat, i: nat)
    requires IsRun(c, r) && n < |r.ops| && r.ops[n].Touch? && Unevicted(c, r, n)
    ensures Standing(c, r, n, i) <==> Counts(c, r.ops, n, i, r.ops[n].ip)
  {
    assert i < |r.ops| ==> forall m :: i < m < n ==> r.ops[i].now <= r.ops[m].now;
  }

  /** For a source that was not evicted within the window the verdict misses a scan by its history exactly if
      it touched few protocols, and enough ports only when the skipped ones are counted. */
  lemma ScanMissedIff(c: Config, r: Run, n: nat)
    requires IsRun(c, r) && n < |r.ops| && r.ops[n].Touch? && Unevicted(c, r, n)
    ensures var ip := r.ops[n].ip;
      && (r.outs[n].scanner <==> |RecentProtocols(c, r.ops, n, ip)| >= c.threshold || |KeptPorts(c, r, n)| >= 5)
      && (ScansByHistory(c, r.ops, n, ip) && !r.outs[n].scanner <==>
            |RecentProtocols(c, r.ops, n, ip)| < c.threshold && |KeptPorts(c, r, n)| < 5 <= |RecentPorts(c, r.ops, n, ip)|)
  {
    var ip := r.ops[n].ip;
    VerdictIsExact(c, r, n);
    forall i: nat ensures Standing(c, r, n, i) <==> Counts(c, r.ops, n, i, ip) {
      UnevictedStands(c, r, n, i);
    }
    assert StandingProtocols(c, r, n) == RecentProtocols(c, r.ops, n, ip);
    assert StandingPorts(c, r, n, n + 1) == KeptPorts(c, r, n);
  }

  // ---------- every sequence of operations has a run ----------

  ghost function At(c: Config, ops: seq<Op>, n: nat): (s: State)
    requires n <= |ops|
    ensures Linked(s)
  {
    if n == 0 then EMPTY else Step(c, At(c, ops, n - 1), ops[n - 1]).state
  }

  ghost function RunOf(c: Config, ops: seq<Op>): Run {
    Run(ops, seq(|ops| + 1, n requires 0 <= n <= |ops| => At(c, ops, n)),
        seq(|ops|, n requires 0 <= n < |ops| => Step(c, At(c, ops, n), ops[n]).out))
  }

  lemma RunOfIsRun(c: Config, ops: seq<Op>)
    requires forall i, j :: 0 <= i < j < |ops| ==> ops[i].now <= ops[j].now
    ensures IsRun(c, RunOf(c, ops))
  {
    forall n: nat ensures Steps(c, RunOf(c, ops), n) {
      if n < |ops| {
        RunOfSteps(c, ops, n);
      }
    }
  }

  lemma RunOfSteps(c: Config, ops: seq<Op>, n: nat)
    requires n < |ops|
    ensures Steps(c, RunOf(c, ops), n)
  {
    var r := RunOf(c, ops);
    AtNext(c, ops, n);
    assert r.states[n] == At(c, ops, n) && r.states[n + 1] == At(c, ops, n + 1);
    assert r.outs[n] == Step(c, At(c, ops, n), ops[n]).out;
  }

  lemma AtNext(c: Config, ops: seq<Op>, n: nat)
    requires n < |ops|
    ensures At(c, ops, n + 1) == Step(c, At(c, ops, n), ops[n]).state
  {
  }

  // ---------- a missed scan ----------

  ghost predicate OneSource(ops: seq<Op>, ip: string) {
    forall i :: 0 <= i < |ops| ==> ops[i].Touch? && ops[i].ip == ip
  }

  /** A source that is alone is never evicted. */
  lemma {:induction false} AloneStays(c: Config, r: Run, n: nat, ip: string)
    requires IsRun(c, r) && OneSource(r.ops, ip) && n <= |r.ops|
    ensures r.states[n].entries.Keys <= {ip}
    ensures forall m :: 0 <= m < n ==> r.outs[m].evicted == None
  {
    if n > 0 {
      AloneStays(c, r, n - 1, ip);
      AloneStep(c, r, n - 1, ip);
    }
  }

  lemma AloneStep(c: Config, r: Run, n: nat, ip: string)
    requires IsRun(c, r) && OneSource(r.ops, ip) && n < |r.ops| && r.states[n].entries.Keys <= {ip}
    ensures r.states[n + 1].entries.Keys <= {ip} && r.outs[n].evicted == None
  {
    assert Steps(c, r, n);
    var s, op := r.states[n], r.ops[n];
    ReadyKeeps(c, s, ip, op.now);
    EvicteeGone(c, s, ip, op.now);
    SweepFrontKeeps(c, s, op.now);
  }

  /** The k-th touch of ports 1, 2, ...: sixteen at 0, one just before the end of the window, the rest at its end. */
  function Probe(c: Config, k: nat): Op {
    Touch("a", "ssh", k + 1, if k < MAX_SCAN_PORTS then 0 else if k == MAX_SCAN_PORTS then c.window - 1 else c.window)
  }

  function Probes(c: Config, n: nat): seq<Op> {
    seq(n, k requires 0 <= k < n => Probe(c, k))
  }

  ghost predicate IsProbes(c: Config, r: Run) {
    IsRun(c, r) && r.ops == Probes(c, 21)
  }

  lemma ProbesAlone(c: Config, r: Run, n: nat)
    requires IsProbes(c, r) && n < 21
    ensures r.ops[n].Touch? && r.ops[n].ip == "a" && Unevicted(c, r, n)
  {
    AloneStays(c, r, |r.ops|, "a");
  }

  lemma {:induction false} UpTo(n: nat) returns (s: set<int>)
    ensures |s| == n && forall p :: p in s <==> 1 <= p <= n
  {
    if n == 0 {
      s := {};
    } else {
      var t := UpTo(n - 1);
      s := t + {n};
    }
  }

  /** The first sixteen ports all fit, the next one does not. */
  lemma EarlyPortsFit(c: Config, r: Run, n: nat)
    requires IsProbes(c, r) && n < MAX_SCAN_PORTS
    ensures !r.outs[n].skipped
  {
    ProbesAlone(c, r, n);
    SkippedIff(c, r, n);
    var all := UpTo(n);
    Smaller(StandingPorts(c, r, n, n), all);
  }

  lemma SeventeenthSkipped(c: Config, r: Run, n: nat)
    requires IsProbes(c, r) && n == MAX_SCAN_PORTS
    ensures r.outs[n].skipped
  {
    ProbesAlone(c, r, n);
    SkippedIff(c, r, n);
    var all := UpTo(n);
    forall p | p in all ensures p in StandingPorts(c, r, n, n) {
      var i := p - 1;
      EarlyPortsFit(c, r, i);
      assert r.ops[i] == Probe(c, i);
      UnevictedStands(c, r, n, i);
    }
    Smaller(all, StandingPorts(c, r, n, n));
  }

  lemma LastWindow(c: Config, r: Run, n: nat, i: nat)
    requires IsProbes(c, r) && c.window > 1 && n == 20 && i <= n
    ensures Counts(c, r.ops, n, i, "a") <==> i >= MAX_SCAN_PORTS
  {
    assert r.ops[i] == Probe(c, i) && r.ops[n] == Probe(c, n);
  }

  lemma LastPorts(c: Config, r: Run, n: nat)
    requires IsProbes(c, r) && c.window > 1 && n == 20
    ensures r.ops[n].Touch? && KeptPorts(c, r, n) <= {18, 19, 20, 21} && {17, 18, 19, 20, 21} <= RecentPorts(c, r.ops, n, "a")
    ensures RecentProtocols(c, r.ops, n, "a") <= {"ssh"}
  {
    forall i: nat | i <= n ensures Counts(c, r.ops, n, i, "a") <==> i >= MAX_SCAN_PORTS {
      LastWindow(c, r, n, i);
    }
    SeventeenthSkipped(c, r, MAX_SCAN_PORTS);
    forall p | p in {17, 18, 19, 20, 21} ensures p in RecentPorts(c, r.ops, n, "a") {
      var i: nat := p - 1;
      assert r.ops[i] == Probe(c, i);
      assert Counts(c, r.ops, n, i, "a");
    }
  }

  lemma Sizes(kept: set<int>, ports: set<int>, protocols: set<string>)
    requires kept <= {18, 19, 20, 21} && {17, 18, 19, 20, 21} <= ports && protocols <= {"ssh"}
    ensures |kept| < SCAN_PORTS <= |ports| && |protocols| < 2
  {
    Smaller({17, 18, 19, 20, 21}, ports);
    Smaller(kept, {18, 19, 20, 21});
    Smaller(protocols, {"ssh"});
  }

  lemma LastSizes(c: Config, r: Run, n: nat)
    requires IsProbes(c, r) && c.window > 1 && n == 20
    ensures r.ops[n].Touch? && |KeptPorts(c, r, n)| < 5 <= |RecentPorts(c, r.ops, n, "a")|
    ensures |RecentProtocols(c, r.ops, n, "a")| < 2
  {
    LastPorts(c, r, n);
    Sizes(KeptPorts(c, r, n), RecentPorts(c, r.ops, n, "a"), RecentProtocols(c, r.ops, n, "a"));
  }

  lemma LastMissed(c: Config, r: Run, n: nat)
    requires IsProbes(c, r) && c.threshold > 1 && c.window > 1 && n == 20
    ensures r.ops[n].Touch? && Unevicted(c, r, n) && ScansByHistory(c, r.ops, n, r.ops[n].ip) && !r.outs[n].scanner
  {
    ProbesAlone(c, r, n);
    LastSizes(c, r, n);
    ScanMissedIff(c, r, n);
  }

  /** A run that misses a scan: sixteen ports fill the entry and push the seventeenth out. When the sixteen have
      expired, the source has touched five ports within the window, and four of them are held. */
  lemma ScanMissed(c: Config) returns (r: Run, n: nat)
    requires c.threshold > 1 && c.window > 1
    ensures IsRun(c, r) && n < |r.ops| && r.ops[n].Touch? && Unevicted(c, r, n)
    ensures ScansByHistory(c, r.ops, n, r.ops[n].ip) && !r.outs[n].scanner
  {
    r, n := RunOf(c, Probes(c, 21)), 20;
    RunOfIsRun(c, Probes(c, 21));
    LastMissed(c, r, n);
  }
}
