/** What a probe summary counts. */
module ProbeCounts {
  import opened Fifo
  import opened Probes
  import opened ProbeRuns

  /** The k-th operation wrote a line of ip. */
  ghost predicate Writes(r: Run, k: nat, ip: string) {
    k < |r.lines| && exists j :: 0 <= j < |r.lines[k]| && r.lines[k][j].ip == ip
  }

  /** From the operation that wrote the last line of ip, or from the start, no line of ip was written before the k-th
      operation. */
  ghost predicate Since(r: Run, prev: nat, k: nat, ip: string)
    requires k <= |r.lines|
  {
    prev < k && (prev == 0 || Writes(r, prev, ip)) && forall m :: prev < m < k ==> !Writes(r, m, ip)
  }

  lemma WritesIff(c: Config, r: Run, n: nat, ip: string)
    requires IsRun(c, r) && n < |r.ops|
    ensures Linked(r.states[n]) && (Writes(r, n, ip) <==> ip in Leaving(c, r.states[n], r.ops[n]))
  {
    assert Steps(c, r, n);
    StepLines(c, r.states[n], r.ops[n]);
    var ks := Leaving(c, r.states[n], r.ops[n]);
    assert forall j :: 0 <= j < |ks| ==> r.lines[n][j].ip == ks[j];
  }

  /** After its line is written, a source has only the session of the same operation pending. */
  lemma WrittenAfresh(c: Config, r: Run, n: nat, ip: string, proto: Option<string>)
    requires IsRun(c, r) && n < |r.ops| && (Writes(r, n, ip) || ip !in r.states[n].entries)
    ensures Pending(r.states[n + 1], ip, proto) == if Records(r, n, ip) && Matches(r.ops[n], proto) then 1 else 0
  {
    assert Steps(c, r, n);
    WritesIff(c, r, n, ip);
    StepEntry(c, r.states[n], r.ops[n], ip);
  }

  lemma UnwrittenAdds(c: Config, r: Run, n: nat, ip: string, proto: Option<string>)
    requires IsRun(c, r) && n < |r.ops| && !Writes(r, n, ip)
    ensures Pending(r.states[n + 1], ip, proto) ==
      Pending(r.states[n], ip, proto) + if Records(r, n, ip) && Matches(r.ops[n], proto) then 1 else 0
  {
    assert Steps(c, r, n);
    WritesIff(c, r, n, ip);
    StepEntry(c, r.states[n], r.ops[n], ip);
  }

  /** What is pending are the sessions recorded since the last line. */
  lemma {:induction false} PendingSince(c: Config, r: Run, prev: nat, k: nat, ip: string, proto: Option<string>)
    requires IsRun(c, r) && k <= |r.ops| && Since(r, prev, k, ip)
    ensures Pending(r.states[k], ip, proto) == Recorded(r, k, ip, proto) - Recorded(r, prev, ip, proto)
    decreases k
  {
    if k == prev + 1 {
      WrittenAfresh(c, r, prev, ip, proto);
    } else {
      PendingSince(c, r, prev, k - 1, ip, proto);
      UnwrittenAdds(c, r, k - 1, ip, proto);
    }
  }

  lemma {:induction false} LastWritten(r: Run, k: nat, ip: string) returns (prev: nat)
    requires 0 < k <= |r.lines|
    ensures Since(r, prev, k, ip)
    decreases k
  {
    if k == 1 || Writes(r, k - 1, ip) {
      prev := k - 1;
    } else {
      prev := LastWritten(r, k - 1, ip);
    }
  }

  /** A line of a source counts exactly the sessions of that source recorded since its previous line, in total and
      per protocol; a session that the previous line made way for is among them. */
  lemma LineCounts(c: Config, r: Run, k: nat, j: nat) returns (prev: nat)
    requires IsRun(c, r) && k < |r.ops| && j < |r.lines[k]|
    ensures var line := r.lines[k][j];
      && Since(r, prev, k, line.ip)
      && forall proto :: Tally(line.entry, proto) == Recorded(r, k, line.ip, proto) - Recorded(r, prev, line.ip, proto)
  {
    var line := r.lines[k][j];
    LineIsEntry(c, r, k, j);
    prev := LastWritten(r, k, line.ip);
    forall proto ensures Tally(line.entry, proto) == Recorded(r, k, line.ip, proto) - Recorded(r, prev, line.ip, proto) {
      PendingSince(c, r, prev, k, line.ip, proto);
    }
  }
}
