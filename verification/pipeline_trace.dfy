/** Every alert of the sink can be traced to the operations that let it through and recorded it, and none
    of them is undone twice. */
module PipelineTrace {
  import opened Fifo
  import Cd = Cooldown
  import CdRuns = CooldownRuns
  import Off = Offenders
  import OffRuns = OffenderHistory
  import W = BatchWorker
  import opened Pipeline
  import opened PipelineRuns

  // ---------- the invariant ----------

  /** The cooldown filter and the offender table went through runs of their own. */
  ghost predicate Running(c: Config, s: State) {
    && CdRuns.IsRun(c.cd, s.cd) && OffRuns.IsRun(c.off, s.off) && OffRuns.Clocked(s.off.ops)
    && (forall t :: t in s.threads && s.threads[t].Allowed? ==> CdRuns.Passed(s.cd, s.threads[t].pass))
  }

  /** The alert carries the slot and the mark that its two operations returned. */
  ghost predicate Traces(s: State, m: W.Msg) {
    && m.id < |s.off.ops| && m.id < |s.off.outs| && s.off.ops[m.id].Accept? && s.off.outs[m.id].mark == m.mark
    && CdRuns.Passed(s.cd, m.pass) && s.cd.outs[m.pass].key == m.key && s.cd.outs[m.pass].slot == m.slot
  }

  ghost predicate Made(s: State) {
    forall id :: id in s.made ==> s.made[id].id == id && Traces(s, s.made[id])
  }

  predicate IsMade(s: State, m: W.Msg) {
    m.id in s.made && s.made[m.id] == m
  }

  predicate Holding(p: Phase) {
    p.Recorded? || p.Full? || p.Freed?
  }

  /** An alert is in one place: with one thread, in the queue, or dropped. */
  ghost predicate Placed(s: State) {
    && NoDup(s.queue)
    && (forall m :: m in s.queue ==> IsMade(s, m) && m.id !in s.dropped)
    && (forall t :: t in s.threads && Holding(s.threads[t]) ==>
          var m := s.threads[t].msg; IsMade(s, m) && m !in s.queue && m.id !in s.dropped)
    && (forall t, u :: t in s.threads && u in s.threads && t != u && Holding(s.threads[t]) && Holding(s.threads[u]) ==>
          s.threads[t].msg.id != s.threads[u].msg.id)
    && s.dropped <= s.made.Keys
  }

  /** A record is undone only for a dropped or failed alert, with its own mark, and only once. */
  ghost predicate UndoneAt(s: State, j: nat) {
    j < |s.off.ops| && s.off.ops[j].Revert? ==>
      var of := s.off.ops[j].of;
      && of < j && of in s.made && s.off.ops[j].mark == s.made[of].mark
      && (of in s.dropped || s.made[of] in s.worker.failed)
  }

  ghost predicate Undone(s: State) {
    && (forall j: nat :: UndoneAt(s, j))
    && (forall j, k :: 0 <= j < k < |s.off.ops| && s.off.ops[j].Revert? && s.off.ops[k].Revert? ==>
          s.off.ops[j].of != s.off.ops[k].of)
    && (forall id :: id in s.dropped ==> OffRuns.Reverted(s.off.ops, |s.off.ops|, id))
    && (forall m :: m in s.worker.failed ==> OffRuns.Reverted(s.off.ops, |s.off.ops|, m.id))
  }

  // ---------- keeping it ----------

  lemma RunningLinked(c: Config, s: State)
    requires Running(c, s)
    ensures Linked(s)
  {
    CdRuns.RunValid(c.cd, s.cd, |s.cd.ops|);
    OffRuns.LastLinked(c.off, s.off);
  }

  /** Later operations do not change what an alert is traced to. */
  lemma TracesLast(s: State, r: State, m: W.Msg)
    requires Traces(s, m)
    requires s.off.ops <= r.off.ops && s.off.outs <= r.off.outs && s.cd.ops <= r.cd.ops && s.cd.outs <= r.cd.outs
    ensures Traces(r, m)
  {
  }

  lemma {:induction false} CountIn(ms: seq<W.Msg>, m: W.Msg)
    ensures W.Count(ms, m) > 0 <==> m in ms
  {
    if ms != [] {
      CountIn(ms[..|ms| - 1], m);
      assert ms == ms[..|ms| - 1] + [ms[|ms| - 1]];
    }
  }

  lemma {:induction false} CountOnce(ms: seq<W.Msg>, m: W.Msg)
    requires NoDup(ms)
    ensures W.Count(ms, m) <= 1
  {
    if ms != [] {
      CountOnce(ms[..|ms| - 1], m);
      CountIn(ms[..|ms| - 1], m);
    }
  }

  lemma CountOf(s: State, m: W.Msg)
    requires Queued(s) && NoDup(s.queue) && W.Accounted(s.worker)
    ensures W.Count(s.worker.sent, m) + W.Count(s.worker.failed, m) + W.Held(s.worker.w, m) + W.Count(s.ch, m) <= 1
    ensures W.Count(s.worker.sent, m) + W.Count(s.worker.failed, m) + W.Held(s.worker.w, m) > 0 ==> m in s.queue
  {
    W.CountAppend(s.worker.taken, s.ch, m);
    CountOnce(s.queue, m);
    CountIn(s.queue, m);
  }

  /** What the worker is about to undo is in the queue and was not undone before. */
  lemma FailingIsOpen(s: State)
    requires Queued(s) && NoDup(s.queue) && W.Accounted(s.worker) && W.Enabled(s.worker.w, W.Revert)
    ensures var m := s.worker.w.pc.b[0]; m in s.queue && m !in s.worker.failed
  {
    var m := s.worker.w.pc.b[0];
    CountIn(s.worker.w.pc.b, m);
    CountOf(s, m);
    CountIn(s.worker.failed, m);
  }

  lemma FailedWereQueued(s: State, m: W.Msg)
    requires Queued(s) && NoDup(s.queue) && W.Accounted(s.worker) && m in s.worker.failed
    ensures m in s.queue && m !in s.worker.sent
  {
    CountIn(s.worker.failed, m);
    CountOf(s, m);
    CountIn(s.worker.sent, m);
  }

  // ---------- the runs of filter and table go on ----------

  lemma CdGoesOn(c: Config, s: State, op: Cd.Op, r: State)
    requires Running(c, s) && Linked(s) && (s.cd.ops == [] || s.cd.ops[|s.cd.ops| - 1].now <= op.now)
    requires r.off == s.off && r.cd == CdRuns.Extend(c.cd, s.cd, op)
    requires forall t :: t in r.threads && r.threads[t].Allowed? ==>
               (t in s.threads && r.threads[t] == s.threads[t]) || CdRuns.Passed(r.cd, r.threads[t].pass)
    ensures Running(c, r)
  {
    CdRuns.RunExtends(c.cd, s.cd, op);
  }

  lemma OffGoesOn(c: Config, s: State, op: Off.Op, r: State)
    requires Running(c, s) && Linked(s) && (s.off.ops == [] || s.off.ops[|s.off.ops| - 1].now <= op.now)
    requires r.cd == s.cd && r.off == OffRuns.Extend(c.off, s.off, op)
    requires forall t :: t in r.threads && r.threads[t].Allowed? ==> t in s.threads && r.threads[t] == s.threads[t]
    ensures Running(c, r)
  {
    OffRuns.RunExtends(c.off, s.off, op);
  }

  lemma PassedRunning(c: Config, s: State, t: nat, ev: Event, op: Cd.Op)
    requires Running(c, s) && Linked(s) && op.Allow? && (s.cd.ops == [] || s.cd.ops[|s.cd.ops| - 1].now <= op.now)
    ensures Running(c, Passed(s, t, ev, CdRuns.Extend(c.cd, s.cd, op)))
  {
    CdGoesOn(c, s, op, Passed(s, t, ev, CdRuns.Extend(c.cd, s.cd, op)));
  }

  lemma AllowRunning(c: Config, s: State, t: nat, now: Time, tableNow: Time)
    requires Running(c, s) && Linked(s) && Enabled(c, s, Allow(t, now, tableNow))
    ensures Running(c, DoAllow(c, s, t, now, tableNow))
  {
    var ev := s.threads[t].ev;
    var win := Off.WindowFor(c.off, OffRuns.Last(s.off), Some(ev.ip), ev.cls, c.cd.window, tableNow);
    PassedRunning(c, s, t, ev, Cd.Allow(ev.ip, ev.cls, win, now));
  }

  lemma RecordRunning(c: Config, s: State, t: nat, now: Time)
    requires Running(c, s) && Linked(s) && Enabled(c, s, Record(t, now))
    ensures Running(c, DoRecord(c, s, t, now))
  {
    var ev := s.threads[t].ev;
    OffGoesOn(c, s, Off.Accept(Some(ev.ip), ev.cls, s.cd.outs[s.threads[t].pass].win, now), DoRecord(c, s, t, now));
  }

  lemma WorkRunning(c: Config, s: State, a: W.Action, now: Time)
    requires Running(c, s) && Linked(s) && Enabled(c, s, Work(a, now))
    ensures Running(c, DoWork(c, s, a, now))
  {
    var r := DoWork(c, s, a, now);
    if a.Revert? {
      var m := s.worker.w.pc.b[0];
      OffGoesOn(c, s, Off.Revert(m.mark, m.id, now), r);
    } else if a.Release? {
      var m := s.worker.w.pc.b[0];
      CdGoesOn(c, s, Cd.Release(m.key, m.slot, now), r);
    }
  }

  lemma UndoRunning(c: Config, s: State, a: Action)
    requires Running(c, s) && Linked(s) && Enabled(c, s, a) && (a.Free? || a.Undo?)
    ensures Running(c, Next(c, s, a))
  {
    var m := s.threads[a.t].msg;
    if a.Free? {
      CdGoesOn(c, s, Cd.Release(m.key, m.slot, a.now), Next(c, s, a));
    } else {
      OffGoesOn(c, s, Off.Revert(m.mark, m.id, a.now), Next(c, s, a));
    }
  }

  lemma OthersRunning(c: Config, s: State, a: Action)
    requires Running(c, s) && Linked(s) && Enabled(c, s, a) && (a.Table? || a.Cleanup?)
    ensures Running(c, Next(c, s, a))
  {
    if a.Table? {
      OffGoesOn(c, s, a.op, Next(c, s, a));
    } else {
      CdGoesOn(c, s, Cd.Cleanup(a.now), Next(c, s, a));
    }
  }

  lemma SameRuns(c: Config, s: State, r: State)
    requires Running(c, s) && r.cd == s.cd && r.off == s.off
    requires forall t :: t in r.threads && r.threads[t].Allowed? ==> t in s.threads && r.threads[t] == s.threads[t]
    ensures Running(c, r)
  {
  }

  /** What a step of Submit leaves alone when it touches neither the filter nor the table. */
  ghost predicate Apart(s: State, r: State) {
    && r.cd == s.cd && r.off == s.off && r.made == s.made && r.dropped == s.dropped && r.worker == s.worker
    && forall t :: t in r.threads && r.threads[t].Allowed? ==> t in s.threads && r.threads[t] == s.threads[t]
  }

  lemma EnterApart(c: Config, s: State, t: nat)
    requires t in s.threads && s.threads[t].Waiting?
    ensures Apart(s, DoEnter(c, s, t))
  {
  }

  lemma EnqueueApart(s: State, t: nat)
    requires t in s.threads && s.threads[t].Recorded?
    ensures Apart(s, DoEnqueue(s, t))
  {
  }

  lemma IdleKeeps(c: Config, s: State, a: Action)
    requires Linked(s) && Enabled(c, s, a) && Idle(a)
    ensures Apart(s, Next(c, s, a))
  {
    match a {
      case Enter(t) => EnterApart(c, s, t);
      case Enqueue(t) => EnqueueApart(s, t);
      case _ =>
    }
  }

  lemma SubmitRunning(c: Config, s: State, a: Action)
    requires Running(c, s) && Linked(s) && Enabled(c, s, a) && Idle(a)
    ensures Running(c, Next(c, s, a))
  {
    IdleKeeps(c, s, a);
    SameRuns(c, s, Next(c, s, a));
  }

  lemma StepRunning(c: Config, s: State, a: Action)
    requires Running(c, s) && Linked(s) && Enabled(c, s, a)
    ensures Running(c, Next(c, s, a))
  {
    match a {
      case Allow(t, now, tableNow) => AllowRunning(c, s, t, now, tableNow);
      case Record(t, now) => RecordRunning(c, s, t, now);
      case Free(_, _) => UndoRunning(c, s, a);
      case Undo(_, _) => UndoRunning(c, s, a);
      case Work(wa, now) => WorkRunning(c, s, wa, now);
      case Table(_) => OthersRunning(c, s, a);
      case Cleanup(_) => OthersRunning(c, s, a);
      case _ => SubmitRunning(c, s, a);
    }
  }

  // ---------- alerts stay traced ----------

  ghost predicate Grows(s: State, r: State) {
    s.off.ops <= r.off.ops && s.off.outs <= r.off.outs && s.cd.ops <= r.cd.ops && s.cd.outs <= r.cd.outs
  }

  /** A step of Submit that leaves the filter and the table alone. */
  predicate Idle(a: Action) {
    a.Receive? || a.Enter? || a.Enqueue? || a.Close?
  }

  lemma MadeLasts(s: State, r: State)
    requires Made(s) && Grows(s, r) && r.made == s.made
    ensures Made(r)
  {
    forall id | id in r.made ensures r.made[id].id == id && Traces(r, r.made[id]) {
      TracesLast(s, r, s.made[id]);
    }
  }

  lemma RecordMade(c: Config, s: State, t: nat, now: Time)
    requires Running(c, s) && Made(s) && Linked(s) && Enabled(c, s, Record(t, now))
    ensures Made(DoRecord(c, s, t, now))
  {
    var r := DoRecord(c, s, t, now);
    forall id | id in r.made ensures r.made[id].id == id && Traces(r, r.made[id]) {
      if id in s.made && id != |s.off.ops| {
        TracesLast(s, r, s.made[id]);
      }
    }
  }

  lemma PassedMade(s: State, t: nat, ev: Event, cd: CdRuns.Run)
    requires Made(s) && cd.outs != [] && s.cd.ops <= cd.ops && s.cd.outs <= cd.outs
    ensures Made(Passed(s, t, ev, cd))
  {
    MadeLasts(s, Passed(s, t, ev, cd));
  }

  lemma AllowMade(c: Config, s: State, t: nat, now: Time, tableNow: Time)
    requires Made(s) && Linked(s) && Enabled(c, s, Allow(t, now, tableNow))
    ensures Made(DoAllow(c, s, t, now, tableNow))
  {
    var ev := s.threads[t].ev;
    var win := Off.WindowFor(c.off, OffRuns.Last(s.off), Some(ev.ip), ev.cls, c.cd.window, tableNow);
    PassedMade(s, t, ev, CdRuns.Extend(c.cd, s.cd, Cd.Allow(ev.ip, ev.cls, win, now)));
  }

  lemma FreeMade(c: Config, s: State, t: nat, now: Time)
    requires Made(s) && Linked(s) && Enabled(c, s, Free(t, now))
    ensures Made(DoFree(c, s, t, now))
  {
    MadeLasts(s, DoFree(c, s, t, now));
  }

  lemma UndoMade(c: Config, s: State, t: nat, now: Time)
    requires Made(s) && Linked(s) && Enabled(c, s, Undo(t, now))
    ensures Made(DoUndo(c, s, t, now))
  {
    MadeLasts(s, DoUndo(c, s, t, now));
  }

  lemma WorkMade(c: Config, s: State, a: W.Action, now: Time)
    requires Made(s) && Linked(s) && Enabled(c, s, Work(a, now))
    ensures Made(DoWork(c, s, a, now))
  {
    MadeLasts(s, DoWork(c, s, a, now));
  }

  lemma StepMade(c: Config, s: State, a: Action)
    requires Running(c, s) && Made(s) && Linked(s) && Enabled(c, s, a)
    ensures Made(Next(c, s, a))
  {
    match a {
      case Allow(t, now, tableNow) => AllowMade(c, s, t, now, tableNow);
      case Record(t, now) => RecordMade(c, s, t, now);
      case Free(t, now) => FreeMade(c, s, t, now);
      case Undo(t, now) => UndoMade(c, s, t, now);
      case Work(wa, now) => WorkMade(c, s, wa, now);
      case Table(_) => MadeLasts(s, Next(c, s, a));
      case Cleanup(_) => MadeLasts(s, Next(c, s, a));
      case _ =>
        IdleKeeps(c, s, a);
        MadeLasts(s, Next(c, s, a));
    }
  }

  // ---------- alerts stay in one place ----------

  /** Threads keep their alerts, some leave. */
  lemma PlacedLast(s: State, r: State)
    requires Placed(s) && r.queue == s.queue && r.made == s.made && r.dropped == s.dropped
    requires forall t :: t in r.threads && Holding(r.threads[t]) ==>
               t in s.threads && Holding(s.threads[t]) && r.threads[t].msg == s.threads[t].msg
    ensures Placed(r)
  {
  }

  lemma NotedPlaced(s: State, t: nat, off: OffRuns.Run, m: W.Msg)
    requires Placed(s) && t in s.threads && m.id !in s.made
    ensures Placed(Noted(s, t, off, m))
  {
  }

  lemma NewRecord(s: State)
    requires Made(s)
    ensures |s.off.ops| !in s.made
  {
    assert forall id :: id in s.made ==> Traces(s, s.made[id]);
  }

  lemma RecordPlaced(c: Config, s: State, t: nat, now: Time)
    requires Made(s) && Placed(s) && Linked(s) && Enabled(c, s, Record(t, now))
    ensures Placed(DoRecord(c, s, t, now))
  {
    NewRecord(s);
    var r := DoRecord(c, s, t, now);
    NotedPlaced(s, t, r.off, r.threads[t].msg);
  }

  lemma EnqueuePlaced(s: State, t: nat)
    requires Placed(s) && t in s.threads && s.threads[t].Recorded?
    ensures Placed(DoEnqueue(s, t))
  {
  }

  lemma UndoPlaced(c: Config, s: State, t: nat, now: Time)
    requires Placed(s) && Linked(s) && Enabled(c, s, Undo(t, now))
    ensures Placed(DoUndo(c, s, t, now))
  {
  }

  lemma PassedPlaced(s: State, t: nat, ev: Event, cd: CdRuns.Run)
    requires Placed(s) && cd.outs != []
    ensures Placed(Passed(s, t, ev, cd))
  {
    PlacedLast(s, Passed(s, t, ev, cd));
  }

  lemma AllowPlaced(c: Config, s: State, t: nat, now: Time, tableNow: Time)
    requires Placed(s) && Linked(s) && Enabled(c, s, Allow(t, now, tableNow))
    ensures Placed(DoAllow(c, s, t, now, tableNow))
  {
    var ev := s.threads[t].ev;
    var win := Off.WindowFor(c.off, OffRuns.Last(s.off), Some(ev.ip), ev.cls, c.cd.window, tableNow);
    PassedPlaced(s, t, ev, CdRuns.Extend(c.cd, s.cd, Cd.Allow(ev.ip, ev.cls, win, now)));
  }

  lemma FreePlaced(c: Config, s: State, t: nat, now: Time)
    requires Placed(s) && Linked(s) && Enabled(c, s, Free(t, now))
    ensures Placed(DoFree(c, s, t, now))
  {
    PlacedLast(s, DoFree(c, s, t, now));
  }

  lemma WorkPlaced(c: Config, s: State, a: W.Action, now: Time)
    requires Placed(s) && Linked(s) && Enabled(c, s, Work(a, now))
    ensures Placed(DoWork(c, s, a, now))
  {
    PlacedLast(s, DoWork(c, s, a, now));
  }

  lemma EnterPlaced(c: Config, s: State, t: nat)
    requires Placed(s) && t in s.threads && s.threads[t].Waiting?
    ensures Placed(DoEnter(c, s, t))
  {
    PlacedLast(s, DoEnter(c, s, t));
  }

  lemma OtherPlaced(c: Config, s: State, a: Action)
    requires Placed(s) && Linked(s) && Enabled(c, s, a) && (a.Receive? || a.Close? || a.Table? || a.Cleanup?)
    ensures Placed(Next(c, s, a))
  {
    PlacedLast(s, Next(c, s, a));
  }

  lemma StepPlaced(c: Config, s: State, a: Action)
    requires Running(c, s) && Made(s) && Placed(s) && Linked(s) && Enabled(c, s, a)
    ensures Placed(Next(c, s, a))
  {
    match a {
      case Enter(t) => EnterPlaced(c, s, t);
      case Allow(t, now, tableNow) => AllowPlaced(c, s, t, now, tableNow);
      case Record(t, now) => RecordPlaced(c, s, t, now);
      case Enqueue(t) => EnqueuePlaced(s, t);
      case Free(t, now) => FreePlaced(c, s, t, now);
      case Undo(t, now) => UndoPlaced(c, s, t, now);
      case Work(wa, now) => WorkPlaced(c, s, wa, now);
      case _ => OtherPlaced(c, s, a);
    }
  }

  // ---------- nothing is undone twice ----------

  lemma RevertedLasts(ops: seq<Off.Op>, op: Off.Op, i: nat)
    requires OffRuns.Reverted(ops, |ops|, i)
    ensures OffRuns.Reverted(ops + [op], |ops| + 1, i)
  {
    var j :| 0 <= j < |ops| && ops[j].Revert? && ops[j].of == i;
    assert (ops + [op])[j] == ops[j];
  }

  /** The table did something that undoes nothing, or nothing. */
  lemma UndoneLasts(s: State, r: State, op: Off.Op)
    requires Undone(s) && !op.Revert? && (r.off.ops == s.off.ops || r.off.ops == s.off.ops + [op])
    requires s.made.Keys <= r.made.Keys && (forall id :: id in s.made ==> r.made[id] == s.made[id])
    requires r.dropped == s.dropped && r.worker.failed == s.worker.failed
    ensures Undone(r)
  {
    forall j: nat | j < |r.off.ops| ensures UndoneAt(r, j) {
      assert UndoneAt(s, j);
    }
    forall id | OffRuns.Reverted(s.off.ops, |s.off.ops|, id) ensures OffRuns.Reverted(r.off.ops, |r.off.ops|, id) {
      if r.off.ops != s.off.ops { RevertedLasts(s.off.ops, op, id); }
    }
  }

  /** The table undoes the record of an alert that was open until now. */
  lemma UndoneNow(s: State, r: State, m: W.Msg, now: Time)
    requires Undone(s) && Made(s) && IsMade(s, m) && m.id !in s.dropped && m !in s.worker.failed
    requires r.off.ops == s.off.ops + [Off.Revert(m.mark, m.id, now)] && r.made == s.made
    requires s.dropped <= r.dropped <= s.dropped + {m.id}
    requires s.worker.failed <= r.worker.failed && forall x :: x in r.worker.failed ==> x in s.worker.failed || x == m
    requires m.id in r.dropped || m in r.worker.failed
    ensures Undone(r)
  {
    var n := |s.off.ops|;
    assert Traces(s, m);
    forall j: nat | j < |r.off.ops| ensures UndoneAt(r, j) {
      assert UndoneAt(s, j);
    }
    forall j | 0 <= j < n && s.off.ops[j].Revert? ensures s.off.ops[j].of != m.id {
      assert UndoneAt(s, j);
    }
    forall id | OffRuns.Reverted(s.off.ops, n, id) ensures OffRuns.Reverted(r.off.ops, n + 1, id) {
      RevertedLasts(s.off.ops, Off.Revert(m.mark, m.id, now), id);
    }
    assert r.off.ops[n].of == m.id;
    assert OffRuns.Reverted(r.off.ops, n + 1, m.id);
  }

  lemma FailedUndone(c: Config, s: State, now: Time)
    requires Orderly(s) && W.Accounted(s.worker) && Made(s) && Placed(s) && Undone(s) && Linked(s)
    requires Enabled(c, s, Work(W.Revert, now))
    ensures Undone(DoWork(c, s, W.Revert, now))
  {
    FailingIsOpen(s);
    UndoneNow(s, DoWork(c, s, W.Revert, now), s.worker.w.pc.b[0], now);
  }

  lemma WorkUndone(c: Config, s: State, a: W.Action, now: Time)
    requires Orderly(s) && W.Accounted(s.worker) && Made(s) && Placed(s) && Undone(s) && Linked(s)
    requires Enabled(c, s, Work(a, now))
    ensures Undone(DoWork(c, s, a, now))
  {
    if a.Revert? {
      FailedUndone(c, s, now);
    } else {
      assert s.worker.failed + [] == s.worker.failed;
      UndoneLasts(s, DoWork(c, s, a, now), Off.Flush(0));
    }
  }

  lemma AllowUndone(c: Config, s: State, t: nat, now: Time, tableNow: Time)
    requires Undone(s) && Linked(s) && Enabled(c, s, Allow(t, now, tableNow))
    ensures Undone(DoAllow(c, s, t, now, tableNow))
  {
    UndoneLasts(s, DoAllow(c, s, t, now, tableNow), Off.Flush(0));
  }

  lemma FreeUndone(c: Config, s: State, t: nat, now: Time)
    requires Undone(s) && Linked(s) && Enabled(c, s, Free(t, now))
    ensures Undone(DoFree(c, s, t, now))
  {
    UndoneLasts(s, DoFree(c, s, t, now), Off.Flush(0));
  }

  lemma UndoUndone(c: Config, s: State, t: nat, now: Time)
    requires Orderly(s) && W.Accounted(s.worker) && Made(s) && Placed(s) && Undone(s) && Linked(s)
    requires Enabled(c, s, Undo(t, now))
    ensures Undone(DoUndo(c, s, t, now))
  {
    FailedNotHeld(s, t);
    UndoneNow(s, DoUndo(c, s, t, now), s.threads[t].msg, now);
  }

  lemma StepUndone(c: Config, s: State, a: Action)
    requires Orderly(s) && W.Accounted(s.worker) && Running(c, s) && Made(s) && Placed(s) && Undone(s)
    requires Linked(s) && Enabled(c, s, a)
    ensures Undone(Next(c, s, a))
  {
    match a {
      case Allow(t, now, tableNow) => AllowUndone(c, s, t, now, tableNow);
      case Record(t, now) => RecordUndone(c, s, t, now);
      case Free(t, now) => FreeUndone(c, s, t, now);
      case Undo(t, now) => UndoUndone(c, s, t, now);
      case Work(wa, now) => WorkUndone(c, s, wa, now);
      case Table(op) => UndoneLasts(s, Next(c, s, a), op);
      case Cleanup(_) => UndoneLasts(s, Next(c, s, a), Off.Flush(0));
      case _ =>
        IdleKeeps(c, s, a);
        UndoneLasts(s, Next(c, s, a), Off.Flush(0));
    }
  }

  lemma NotedUndone(s: State, t: nat, off: OffRuns.Run, m: W.Msg, op: Off.Op)
    requires Undone(s) && !op.Revert? && off.ops == s.off.ops + [op] && m.id !in s.made
    ensures Undone(Noted(s, t, off, m))
  {
    UndoneLasts(s, Noted(s, t, off, m), op);
  }

  lemma RecordUndone(c: Config, s: State, t: nat, now: Time)
    requires Made(s) && Undone(s) && Linked(s) && Enabled(c, s, Record(t, now))
    ensures Undone(DoRecord(c, s, t, now))
  {
    NewRecord(s);
    var r := DoRecord(c, s, t, now);
    NotedUndone(s, t, r.off, r.threads[t].msg, r.off.ops[|s.off.ops|]);
  }

  lemma FailedNotHeld(s: State, t: nat)
    requires Queued(s) && W.Accounted(s.worker) && Placed(s) && t in s.threads && Holding(s.threads[t])
    ensures s.threads[t].msg !in s.worker.failed
  {
    if s.threads[t].msg in s.worker.failed {
      FailedWereQueued(s, s.threads[t].msg);
      assert false;
    }
  }
}
