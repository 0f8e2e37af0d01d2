/** Every interleaving of Submit, the worker and Close. */
module PipelineRuns {
  import opened Fifo
  import W = BatchWorker
  import opened Pipeline

  // ---------- counters, lock and queue ----------

  /** Every received event is counted under exactly one outcome or is still being submitted. */
  predicate Counted(s: State) {
    s.n.received == s.n.invalid + s.n.closed + s.n.filtered + s.n.cooldown + s.n.queued + s.n.dropped + |s.threads|
  }

  ghost predicate Locked(s: State) {
    && !s.panicked
    && (s.closed ==> forall t :: t in s.threads ==> !HoldsLock(s.threads[t]))
    && (W.ContOf(s.worker.w.pc).Exit? ==> s.closed && s.ch == [])
  }

  predicate Queued(s: State) {
    |s.ch| <= QUEUE_CAPACITY && s.queue == s.worker.taken + s.ch && s.n.queued == |s.queue|
  }

  ghost predicate Orderly(s: State) {
    Counted(s) && Locked(s) && Queued(s)
  }

  // A thread that moves on, and one that leaves with its outcome counted.
  lemma MoveOrderly(s: State, t: nat, p: Phase, r: State)
    requires Orderly(s) && t in s.threads && (s.closed ==> !HoldsLock(p))
    requires r.threads == s.threads[t := p] && r.n == s.n && r.closed == s.closed && r.panicked == s.panicked
    requires r.ch == s.ch && r.queue == s.queue && r.worker == s.worker
    ensures Orderly(r)
  {
    SizeWith(s.threads, t, p);
  }

  lemma LeaveOrderly(s: State, t: nat, r: State)
    requires Orderly(s) && t in s.threads
    requires r.threads == s.threads - {t} && r.closed == s.closed && r.panicked == s.panicked && r.worker == s.worker
    requires r.n.received == s.n.received
    requires r.n.invalid + r.n.closed + r.n.filtered + r.n.cooldown + r.n.queued + r.n.dropped
          == s.n.invalid + s.n.closed + s.n.filtered + s.n.cooldown + s.n.queued + s.n.dropped + 1
    requires Queued(r) && (r.ch == s.ch || !s.closed)
    ensures Orderly(r)
  {
    SizeWithout(s.threads, t);
  }

  lemma ReceiveOrderly(c: Config, s: State, t: nat, ev: Event)
    requires Orderly(s) && Linked(s) && t !in s.threads
    ensures Orderly(Next(c, s, Receive(t, ev)))
  {
    SizeWith(s.threads, t, Phase.Waiting(ev));
  }

  lemma EnterOrderly(c: Config, s: State, t: nat)
    requires Orderly(s) && t in s.threads && s.threads[t].Waiting?
    ensures Orderly(DoEnter(c, s, t))
  {
    var ev := s.threads[t].ev;
    var r := DoEnter(c, s, t);
    if s.closed || Effective(c, ev) !in c.banOn {
      LeaveOrderly(s, t, r);
    } else {
      MoveOrderly(s, t, Entered(ev.(cls := Effective(c, ev))), r);
    }
  }

  lemma AllowOrderly(c: Config, s: State, t: nat, now: Time, tableNow: Time)
    requires Orderly(s) && Linked(s) && t in s.threads && s.threads[t].Entered?
    ensures Orderly(DoAllow(c, s, t, now, tableNow))
  {
    var r := DoAllow(c, s, t, now, tableNow);
    if t in r.threads {
      MoveOrderly(s, t, r.threads[t], r);
    } else {
      LeaveOrderly(s, t, r);
    }
  }

  lemma EnqueueOrderly(s: State, t: nat)
    requires Orderly(s) && t in s.threads && s.threads[t].Recorded?
    ensures Orderly(DoEnqueue(s, t))
  {
    assert HoldsLock(s.threads[t]);
    var r := DoEnqueue(s, t);
    if |s.ch| < QUEUE_CAPACITY {
      assert s.worker.taken + s.ch + [s.threads[t].msg] == s.worker.taken + (s.ch + [s.threads[t].msg]);
      LeaveOrderly(s, t, r);
    } else {
      MoveOrderly(s, t, Full(s.threads[t].msg), r);
    }
  }

  lemma RestOrderly(c: Config, s: State, a: Action)
    requires Orderly(s) && Linked(s) && Enabled(c, s, a)
    requires a.Record? || a.Free? || a.Undo? || a.Table? || a.Cleanup?
    ensures Orderly(Next(c, s, a))
  {
    var r := Next(c, s, a);
    if a.Undo? {
      LeaveOrderly(s, a.t, r);
    } else if a.Record? || a.Free? {
      assert HoldsLock(s.threads[a.t]);
      MoveOrderly(s, a.t, r.threads[a.t], r);
    }
  }

  lemma ExitOnlyWhenClosed(c: W.Config, w: W.Worker, a: W.Action)
    requires W.Enabled(w, a) && !W.ContOf(w.pc).Exit? && !a.TakeClosed?
    ensures !W.ContOf(W.On(c, w, a).w.pc).Exit?
  {
  }

  lemma WorkLocked(c: Config, s: State, a: W.Action, now: Time)
    requires Locked(s) && Linked(s) && Enabled(c, s, Work(a, now))
    ensures Locked(DoWork(c, s, a, now))
  {
    if !a.TakeClosed? && !W.ContOf(s.worker.w.pc).Exit? {
      ExitOnlyWhenClosed(c.worker, s.worker.w, a);
    }
  }

  lemma WorkQueued(c: Config, s: State, a: W.Action, now: Time)
    requires Queued(s) && Linked(s) && Enabled(c, s, Work(a, now))
    ensures Queued(DoWork(c, s, a, now))
  {
    if a.Take? {
      assert s.ch == [s.ch[0]] + s.ch[1..];
      assert s.worker.taken + ([s.ch[0]] + s.ch[1..]) == (s.worker.taken + [s.ch[0]]) + s.ch[1..];
    } else {
      assert s.worker.taken + W.Intake(a) == s.worker.taken;
    }
  }

  lemma WorkOrderly(c: Config, s: State, a: W.Action, now: Time)
    requires Orderly(s) && Linked(s) && Enabled(c, s, Work(a, now))
    ensures Orderly(DoWork(c, s, a, now))
  {
    WorkLocked(c, s, a, now);
    WorkQueued(c, s, a, now);
  }

  /** Counters, lock and queue stay in order through every step; a closed queue is never sent to. */
  lemma StepOrderly(c: Config, s: State, a: Action)
    requires Orderly(s) && Linked(s) && Enabled(c, s, a)
    ensures Orderly(Next(c, s, a))
  {
    match a {
      case Receive(t, ev) => ReceiveOrderly(c, s, t, ev);
      case Enter(t) => EnterOrderly(c, s, t);
      case Allow(t, now, tableNow) => AllowOrderly(c, s, t, now, tableNow);
      case Enqueue(t) => EnqueueOrderly(s, t);
      case Close =>
      case Work(wa, now) => WorkOrderly(c, s, wa, now);
      case _ => RestOrderly(c, s, a);
    }
  }
}
