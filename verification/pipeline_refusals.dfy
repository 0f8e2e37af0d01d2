/** When a source is refused, over every interleaving of the sink, in terms of alerts made, failed and dropped. */
module PipelineRefusals {
  import opened Fifo
  import Off = Offenders
  import OffSteps = OffenderRuns
  import OffRuns = OffenderHistory
  import W = BatchWorker
  import opened Pipeline
  import opened PipelineTrace
  import opened PipelineTheorems

  // ---------- a run of the table with its states ----------

  /** The m-th operation takes back the alert that opened the window that runs. */
  ghost predicate Closes(r: OffRuns.Run, m: nat, ip: string)
    requires OffRuns.Shaped(r) && m < |r.ops|
  {
    && r.ops[m].Revert? && r.ops[m].mark.key == ip && r.ops[m].mark.win != 0
    && OffRuns.Runs(OffSteps.View(r.states[m], ip), r.ops[m].mark.win)
  }

  /** From the i-th operation to the n-th the source was not lost and the opening of its window not taken back. */
  ghost predicate Standing(r: OffRuns.Run, ip: string, i: nat, n: nat)
    requires OffRuns.Shaped(r) && n <= |r.ops|
  {
    forall m :: i < m < n ==> ip !in r.outs[m].lost && !Closes(r, m, ip)
  }

  lemma MarkShape(c: Off.Settings, s: Off.State, op: Off.Op)
    requires Off.Linked(s) && op.Accept? && Off.Step(c, s, op).out.mark.win != 0
    ensures Off.Step(c, s, op).out.mark.ok && Off.Step(c, s, op).out.mark.idx < 3
  {
  }

  lemma MarkFits(c: Off.Settings, ops: seq<Off.Op>, m: nat)
    requires OffRuns.RevertsOnce(c, ops) && m < |ops| && ops[m].Revert? && ops[m].mark.win != 0
    ensures ops[m].mark.ok && ops[m].mark.idx < 3
  {
    MarkShape(c, OffRuns.At(c, ops, ops[m].of), ops[ops[m].of]);
  }

  lemma ClosesIff(c: Off.Settings, r: OffRuns.Run, m: nat, ip: string)
    requires OffRuns.IsRun(c, r) && OffRuns.RevertsOnce(c, r.ops) && m < |r.ops|
    ensures Closes(r, m, ip) <==> OffRuns.Ends(r.ops[m], ip, OffRuns.HistoryOf(c, r.ops, ip).views[m])
    ensures OffRuns.HistoryOf(c, r.ops, ip).lost[m] <==> ip in r.outs[m].lost
  {
    OffRuns.RunIsAt(c, r, m);
    OffRuns.RunOutIsAt(c, r, m);
    if r.ops[m].Revert? && r.ops[m].mark.win != 0 {
      MarkFits(c, r.ops, m);
    }
  }

  lemma StandingIff(c: Off.Settings, r: OffRuns.Run, ip: string, i: nat, n: nat)
    requires OffRuns.IsRun(c, r) && OffRuns.RevertsOnce(c, r.ops) && n <= |r.ops|
    ensures Standing(r, ip, i, n) <==> OffRuns.Undisturbed(r.ops, ip, OffRuns.HistoryOf(c, r.ops, ip), i, n)
  {
    var h := OffRuns.HistoryOf(c, r.ops, ip);
    forall m | i < m < n
      ensures Closes(r, m, ip) <==> OffRuns.Ends(r.ops[m], ip, h.views[m])
      ensures h.lost[m] <==> ip in r.outs[m].lost
    {
      ClosesIff(c, r, m, ip);
    }
  }

  // ---------- every recorded alert is known ----------

  ghost predicate AcceptsMade(s: State) {
    forall i: nat :: i < |s.off.ops| && s.off.ops[i].Accept? ==> i in s.made
  }

  lemma AcceptsLast(s: State, r: State, op: Off.Op)
    requires AcceptsMade(s) && s.made.Keys <= r.made.Keys
    requires r.off.ops == s.off.ops || (r.off.ops == s.off.ops + [op] && (op.Accept? ==> |s.off.ops| in r.made))
    ensures AcceptsMade(r)
  {
    forall i: nat | i < |r.off.ops| && r.off.ops[i].Accept? ensures i in r.made {
      if i < |s.off.ops| {
        assert s.off.ops[i] == r.off.ops[i];
      }
    }
  }

  lemma RecordAccepts(c: Config, s: State, t: nat, now: Time)
    requires AcceptsMade(s) && Linked(s) && Enabled(c, s, Record(t, now))
    ensures AcceptsMade(DoRecord(c, s, t, now))
  {
    var r := DoRecord(c, s, t, now);
    AcceptsLast(s, r, r.off.ops[|s.off.ops|]);
  }

  lemma AllowAccepts(c: Config, s: State, t: nat, now: Time, tableNow: Time)
    requires AcceptsMade(s) && Linked(s) && Enabled(c, s, Allow(t, now, tableNow))
    ensures AcceptsMade(DoAllow(c, s, t, now, tableNow))
  {
    AcceptsLast(s, DoAllow(c, s, t, now, tableNow), Off.Flush(0));
  }

  lemma WorkAccepts(c: Config, s: State, a: W.Action, now: Time)
    requires AcceptsMade(s) && Linked(s) && Enabled(c, s, Work(a, now))
    ensures AcceptsMade(DoWork(c, s, a, now))
  {
    var r := DoWork(c, s, a, now);
    AcceptsLast(s, r, if a.Revert? then r.off.ops[|s.off.ops|] else Off.Flush(0));
  }

  lemma StepAccepts(c: Config, s: State, a: Action)
    requires AcceptsMade(s) && Linked(s) && Enabled(c, s, a)
    ensures AcceptsMade(Next(c, s, a))
  {
    match a {
      case Allow(t, now, tableNow) => AllowAccepts(c, s, t, now, tableNow);
      case Record(t, now) => RecordAccepts(c, s, t, now);
      case Free(t, now) => AcceptsLast(s, DoFree(c, s, t, now), Off.Flush(0));
      case Undo(t, now) => AcceptsLast(s, DoUndo(c, s, t, now), DoUndo(c, s, t, now).off.ops[|s.off.ops|]);
      case Work(wa, now) => WorkAccepts(c, s, wa, now);
      case Table(op) => AcceptsLast(s, Next(c, s, a), op);
      case Cleanup(_) => AcceptsLast(s, Next(c, s, a), Off.Flush(0));
      case _ =>
        IdleKeeps(c, s, a);
        AcceptsLast(s, Next(c, s, a), Off.Flush(0));
    }
  }

  lemma {:induction false} TraceAccepts(c: Config, acts: seq<Action>, states: seq<State>, n: nat)
    requires IsTrace(c, acts, states) && n <= |acts|
    ensures AcceptsMade(states[n])
  {
    if n > 0 {
      TraceAccepts(c, acts, states, n - 1);
      assert Takes(c, states[n - 1], acts[n - 1], states[n]);
      StepAccepts(c, states[n - 1], acts[n - 1]);
    }
  }

  // ---------- refusals ----------

  /** The alert was taken back: the queue had no room for it or its push failed. */
  ghost predicate Fallen(s: State, id: nat) {
    id in s.made && (id in s.dropped || s.made[id] in s.worker.failed)
  }

  /** The m-th operation of the table takes back a fallen alert that opened the window of ip that runs. */
  ghost predicate FallEnds(s: State, m: nat, ip: string)
    requires OffRuns.Shaped(s.off) && m < |s.off.ops|
  {
    s.off.ops[m].Revert? &&
    var id := s.off.ops[m].of;
    && Fallen(s, id) && s.made[id].mark.key == ip && s.made[id].mark.win != 0
    && OffRuns.Runs(OffSteps.View(s.off.states[m], ip), s.made[id].mark.win)
  }

  /** The alert shuns ip at the time of the n-th operation of the table: since it was made, ip was not lost and no
      fall ended its window. */
  ghost predicate Holds(s: State, n: nat, ip: string, id: nat, until: Time)
    requires OffRuns.Shaped(s.off) && n < |s.off.ops|
  {
    && id < n && id in s.made && OffRuns.Shuns(s.off.ops, id, ip, until) && s.off.ops[n].now < until
    && forall m :: id < m < n ==> ip !in s.off.outs[m].lost && !FallEnds(s, m, ip)
  }

  lemma FallEndsIff(s: State, m: nat, ip: string)
    requires OffRuns.Shaped(s.off) && m < |s.off.ops| && UndoneAt(s, m)
    ensures FallEnds(s, m, ip) <==> Closes(s.off, m, ip)
  {
  }

  lemma HoldsIff(c: Config, s: State, n: nat, ip: string, id: nat, until: Time)
    requires OffRuns.IsRun(c.off, s.off) && OffRuns.RevertsOnce(c.off, s.off.ops) && AcceptsMade(s) && n < |s.off.ops|
    requires forall j: nat :: UndoneAt(s, j)
    ensures Holds(s, n, ip, id, until) <==> OffRuns.Effective(c.off, s.off.ops, n, ip, id, until)
  {
    StandingIff(c.off, s.off, ip, id, n);
    forall m: nat | id < m < n ensures FallEnds(s, m, ip) <==> Closes(s.off, m, ip) {
      FallEndsIff(s, m, ip);
    }
  }

  /** In every reachable state of the sink: a query of the table was refused if and only if some alert shuns the source
      at its time, ends and losses of the window in between taken into account. */
  lemma RefusedIff(c: Config, acts: seq<Action>, states: seq<State>, k: nat, n: nat, ip: string)
    requires c.off.shun && IsTrace(c, acts, states) && k < |states| && n < |states[k].off.ops|
    requires states[k].off.ops[n].Shunned? && states[k].off.ops[n].key == Some(ip)
    ensures OffRuns.Shaped(states[k].off)
    ensures states[k].off.outs[n].refused <==> exists id: nat, until: Time :: Holds(states[k], n, ip, id, until)
  {
    Reachable(c, acts, states, k);
    TraceAccepts(c, acts, states, k);
    RecordsUndoneOnce(c, states[k]);
    RefusedIn(c, states[k], n, ip);
  }

  lemma RefusedIn(c: Config, s: State, n: nat, ip: string)
    requires c.off.shun && OffRuns.IsRun(c.off, s.off) && OffRuns.Clocked(s.off.ops) && OffRuns.RevertsOnce(c.off, s.off.ops)
    requires AcceptsMade(s) && (forall j: nat :: UndoneAt(s, j)) && n < |s.off.ops|
    requires s.off.ops[n].Shunned? && s.off.ops[n].key == Some(ip)
    ensures s.off.outs[n].refused <==> exists id: nat, until: Time :: Holds(s, n, ip, id, until)
  {
    OffRuns.RefusedIff(c.off, s.off.ops, n, ip);
    OffRuns.RunOutIsAt(c.off, s.off, n);
    forall id: nat, until: Time
      ensures Holds(s, n, ip, id, until) <==> OffRuns.Effective(c.off, s.off.ops, n, ip, id, until)
    {
      HoldsIff(c, s, n, ip, id, until);
    }
  }

  /** A source that was not lost and none of whose alerts fell is refused exactly inside the window of some alert. */
  lemma DeliveredIsRefused(c: Config, acts: seq<Action>, states: seq<State>, k: nat, n: nat, ip: string)
    requires c.off.shun && IsTrace(c, acts, states) && k < |states| && n < |states[k].off.ops| && OffRuns.Shaped(states[k].off)
    requires states[k].off.ops[n].Shunned? && states[k].off.ops[n].key == Some(ip)
    requires forall id :: id in states[k].made && states[k].made[id].mark.key == ip ==> !Fallen(states[k], id)
    requires forall m :: 0 <= m < n ==> ip !in states[k].off.outs[m].lost
    ensures states[k].off.outs[n].refused <==>
      exists id: nat, until: Time :: OffRuns.Shuns(states[k].off.ops, id, ip, until) && id < n && states[k].off.ops[n].now < until
  {
    var s := states[k];
    RefusedIff(c, acts, states, k, n, ip);
    TraceAccepts(c, acts, states, k);
    forall id: nat, until: Time | OffRuns.Shuns(s.off.ops, id, ip, until) && id < n && s.off.ops[n].now < until
      ensures Holds(s, n, ip, id, until)
    {
    }
  }

  /** A refused source has an alert that set the end of its window; if that alert had fallen by then, it had only
      extended the window. */
  lemma RefusedByAlert(c: Config, acts: seq<Action>, states: seq<State>, k: nat, n: nat) returns (id: nat, until: Time)
    requires IsTrace(c, acts, states) && k < |states| && n < |states[k].off.ops| && OffRuns.Shaped(states[k].off)
    requires states[k].off.outs[n].refused
    ensures var s := states[k];
      && id in s.made && id < n && s.off.ops[n].Shunned? && s.off.ops[n].key.Some?
      && OffRuns.Shuns(s.off.ops, id, s.off.ops[n].key.value, until) && s.off.ops[n].now < until
      && (OffRuns.Reverted(s.off.ops, n, id) ==> Fallen(s, id) && s.made[id].mark.win == 0)
  {
    Reachable(c, acts, states, k);
    TraceAccepts(c, acts, states, k);
    RecordsUndoneOnce(c, states[k]);
    id, until := AlertOf(c, states[k], n);
  }

  lemma AlertOf(c: Config, s: State, n: nat) returns (id: nat, until: Time)
    requires OffRuns.IsRun(c.off, s.off) && OffRuns.Clocked(s.off.ops) && OffRuns.RevertsOnce(c.off, s.off.ops)
    requires AcceptsMade(s) && Made(s) && (forall j: nat :: UndoneAt(s, j)) && n < |s.off.ops| && s.off.outs[n].refused
    ensures id in s.made && id < n && s.off.ops[n].Shunned? && s.off.ops[n].key.Some?
    ensures OffRuns.Shuns(s.off.ops, id, s.off.ops[n].key.value, until) && s.off.ops[n].now < until
    ensures OffRuns.Reverted(s.off.ops, n, id) ==> Fallen(s, id) && s.made[id].mark.win == 0
  {
    OffRuns.RunOutIsAt(c.off, s.off, n);
    id := OffRuns.RefusedHasCause(c.off, s.off.ops, n);
    var h := OffRuns.HistoryOf(c.off, s.off.ops, s.off.ops[n].key.value);
    until := h.views[n].value.shunUntil;
    OffRuns.RunOutIsAt(c.off, s.off, id);
    assert Traces(s, s.made[id]);
    if OffRuns.Reverted(s.off.ops, n, id) {
      var j: nat :| j < n && s.off.ops[j].Revert? && s.off.ops[j].of == id;
      assert UndoneAt(s, j);
    }
  }

  /** Every fallen alert was taken back by one operation of the table, and that ended the window of its source if and
      only if the alert opened the window and it ran unchanged since. */
  lemma FallEndsOwnWindow(c: Config, acts: seq<Action>, states: seq<State>, k: nat, id: nat) returns (j: nat)
    requires IsTrace(c, acts, states) && k < |states| && Fallen(states[k], id) && states[k].made[id].mark.ok
    ensures OffRuns.Shaped(states[k].off) && j < |states[k].off.ops|
    ensures var s := states[k];
      && s.off.ops[j].Revert? && s.off.ops[j].of == id < j && Ended(s.off, id, j, s.made[id].mark)
  {
    Reachable(c, acts, states, k);
    RecordsUndoneOnce(c, states[k]);
    j := TakenBackBy(c, states[k], id);
    OwnWindow(c.off, states[k].off, j);
  }

  /** The window of the source ended with the j-th operation exactly if the id-th opened it and it ran since. */
  ghost predicate Ended(r: OffRuns.Run, id: nat, j: nat, mark: Off.Mark)
    requires OffRuns.Shaped(r) && j < |r.ops|
  {
    var before, after := OffSteps.View(r.states[j], mark.key), OffSteps.View(r.states[j + 1], mark.key);
    OffRuns.Open(before) && !OffRuns.Open(after) <==>
      mark.win != 0 && forall i :: id < i <= j ==> OffRuns.Runs(OffSteps.View(r.states[i], mark.key), mark.win)
  }

  lemma TakenBackBy(c: Config, s: State, id: nat) returns (j: nat)
    requires Made(s) && Undone(s) && Fallen(s, id)
    ensures j < |s.off.ops| && s.off.ops[j].Revert? && s.off.ops[j].of == id < j && s.off.ops[j].mark == s.made[id].mark
  {
    assert OffRuns.Reverted(s.off.ops, |s.off.ops|, id);
    j :| j < |s.off.ops| && s.off.ops[j].Revert? && s.off.ops[j].of == id;
    assert UndoneAt(s, j);
  }

  lemma OwnWindow(c: Off.Settings, r: OffRuns.Run, j: nat)
    requires OffRuns.IsRun(c, r) && OffRuns.Clocked(r.ops) && OffRuns.RevertsOnce(c, r.ops)
    requires j < |r.ops| && r.ops[j].Revert? && r.ops[j].mark.ok
    ensures Ended(r, r.ops[j].of, j, r.ops[j].mark)
  {
    OffRuns.RevertEndsOwnWindow(c, r.ops, j);
    ViewsMatch(c, r, r.ops[j].mark.key);
    EndedFrom(r, j, OffRuns.HistoryOf(c, r.ops, r.ops[j].mark.key).views);
  }

  lemma ViewsMatch(c: Off.Settings, r: OffRuns.Run, ip: string)
    requires OffRuns.IsRun(c, r)
    ensures forall i :: 0 <= i <= |r.ops| ==> OffRuns.HistoryOf(c, r.ops, ip).views[i] == OffSteps.View(r.states[i], ip)
  {
    forall i: nat | i <= |r.ops| ensures OffRuns.HistoryOf(c, r.ops, ip).views[i] == OffSteps.View(r.states[i], ip) {
      OffRuns.RunIsAt(c, r, i);
    }
  }

  lemma EndedFrom(r: OffRuns.Run, j: nat, views: seq<Option<Off.Offender>>)
    requires OffRuns.Shaped(r) && j < |r.ops| && r.ops[j].Revert? && |views| == |r.ops| + 1
    requires forall i :: 0 <= i <= |r.ops| ==> views[i] == OffSteps.View(r.states[i], r.ops[j].mark.key)
    requires var id, w := r.ops[j].of, r.ops[j].mark.win;
      OffRuns.Open(views[j]) && !OffRuns.Open(views[j + 1]) <==> w != 0 && forall i :: id < i <= j ==> OffRuns.Runs(views[i], w)
    ensures Ended(r, r.ops[j].of, j, r.ops[j].mark)
  {
  }
}
