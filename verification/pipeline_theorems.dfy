/** What holds in every reachable state of the CrowdSec sink. */
module PipelineTheorems {
  import opened Fifo
  import opened Severity
  import Cd = Cooldown
  import CdRuns = CooldownRuns
  import Off = Offenders
  import OffRuns = OffenderHistory
  import W = BatchWorker
  import opened Pipeline
  import opened PipelineRuns
  import opened PipelineTrace

  ghost predicate Inv(c: Config, s: State) {
    && Orderly(s) && Running(c, s) && Made(s) && Placed(s) && Undone(s) && Freeing(s)
    && W.Sound(c.worker, s.worker) && W.InOrder(c.worker, s.worker) && W.Accounted(s.worker)
  }

  /** A run of the sink: any interleaving of enabled steps from the start. */
  ghost predicate IsTrace(c: Config, acts: seq<Action>, states: seq<State>) {
    && |states| == |acts| + 1 && states[0] == START
    && forall i: nat :: i < |acts| ==> Takes(c, states[i], acts[i], states[i + 1])
  }

  ghost predicate Takes(c: Config, s: State, a: Action, r: State) {
    Linked(s) && Enabled(c, s, a) && r == Next(c, s, a)
  }

  // ---------- a failed alert gives its slot back ----------

  /** The worker is between undoing the record of m and freeing its slot. */
  predicate Releasing(w: W.Worker, m: W.Msg) {
    w.pc.Failing? && w.pc.reverted && w.pc.b != [] && w.pc.b[0] == m
  }

  ghost predicate Released(s: State, m: W.Msg) {
    exists i :: m.pass < i < |s.cd.ops| && s.cd.ops[i].Release? && s.cd.ops[i].key == m.key && s.cd.ops[i].slot == m.slot
  }

  ghost predicate Freeing(s: State) {
    forall m :: m in s.worker.failed ==> Releasing(s.worker.w, m) || Released(s, m)
  }

  lemma FreeingLasts(s: State, r: State)
    requires Freeing(s) && s.cd.ops <= r.cd.ops && r.worker == s.worker
    ensures Freeing(r)
  {
    forall m | Released(s, m) ensures Released(r, m) {
      var i :| m.pass < i < |s.cd.ops| && s.cd.ops[i].Release? && s.cd.ops[i].key == m.key && s.cd.ops[i].slot == m.slot;
      assert r.cd.ops[i] == s.cd.ops[i];
    }
  }

  lemma WorkFreeing(c: Config, s: State, a: W.Action, now: Time)
    requires Freeing(s) && Linked(s) && Made(s) && Placed(s) && Queued(s) && W.Accounted(s.worker)
    requires Enabled(c, s, Work(a, now))
    ensures Freeing(DoWork(c, s, a, now))
  {
    var r := DoWork(c, s, a, now);
    FreeingLasts(s, r.(worker := s.worker));
    forall m | m in r.worker.failed ensures Releasing(r.worker.w, m) || Released(r, m) {
      if a.Release? && Releasing(s.worker.w, m) {
        FailedWereQueued(s, m);
        assert Traces(s, m);
        assert r.cd.ops[|s.cd.ops|] == Cd.Release(m.key, m.slot, now);
        assert Released(r, m);
      } else if a.Revert? {
        assert m == s.worker.w.pc.b[0] || m in s.worker.failed;
      }
    }
  }

  lemma StepFreeing(c: Config, s: State, a: Action)
    requires Freeing(s) && Linked(s) && Made(s) && Placed(s) && Queued(s) && W.Accounted(s.worker) && Enabled(c, s, a)
    ensures Freeing(Next(c, s, a))
  {
    match a {
      case Work(wa, now) => WorkFreeing(c, s, wa, now);
      case Allow(t, now, tableNow) => FreeingLasts(s, DoAllow(c, s, t, now, tableNow));
      case Record(t, now) => FreeingLasts(s, DoRecord(c, s, t, now));
      case Free(t, now) => FreeingLasts(s, DoFree(c, s, t, now));
      case Undo(t, now) => FreeingLasts(s, DoUndo(c, s, t, now));
      case Table(_) => FreeingLasts(s, Next(c, s, a));
      case Cleanup(_) => FreeingLasts(s, Next(c, s, a));
      case _ =>
        IdleKeeps(c, s, a);
        FreeingLasts(s, Next(c, s, a));
    }
  }

  // ---------- every reachable state ----------

  lemma WorkerStep(c: Config, s: State, a: Action)
    requires W.Sound(c.worker, s.worker) && W.InOrder(c.worker, s.worker) && W.Accounted(s.worker)
    requires Linked(s) && Enabled(c, s, a)
    ensures var w := Next(c, s, a).worker;
      W.Sound(c.worker, w) && W.InOrder(c.worker, w) && W.Accounted(w)
  {
    if a.Work? {
      W.StepKeepsOrder(c.worker, s.worker, a.a);
      W.StepAccounted(c.worker, s.worker, a.a);
    }
  }

  lemma StepInv(c: Config, s: State, a: Action)
    requires Inv(c, s) && Linked(s) && Enabled(c, s, a)
    ensures Inv(c, Next(c, s, a))
  {
    StepOrderly(c, s, a);
    StepRunning(c, s, a);
    StepMade(c, s, a);
    StepPlaced(c, s, a);
    StepUndone(c, s, a);
    StepFreeing(c, s, a);
    WorkerStep(c, s, a);
  }

  lemma StartInv(c: Config)
    ensures Inv(c, START)
  {
  }

  lemma {:induction false} Reachable(c: Config, acts: seq<Action>, states: seq<State>, n: nat)
    requires IsTrace(c, acts, states) && n <= |acts|
    ensures Inv(c, states[n]) && Linked(states[n])
  {
    if n == 0 {
      StartInv(c);
    } else {
      Reachable(c, acts, states, n - 1);
      assert Takes(c, states[n - 1], acts[n - 1], states[n]);
      StepInv(c, states[n - 1], acts[n - 1]);
    }
    RunningLinked(c, states[n]);
  }

  // ---------- the promises ----------

  /** Every received event is counted under exactly one outcome, up to the calls still running; and no call
      sends on the closed queue. */
  lemma ReceivedAccounted(c: Config, acts: seq<Action>, states: seq<State>, n: nat)
    requires IsTrace(c, acts, states) && n < |states|
    ensures var k := states[n].n;
      k.received == k.invalid + k.closed + k.filtered + k.cooldown + k.queued + k.dropped + |states[n].threads|
    ensures !states[n].panicked
  {
    Reachable(c, acts, states, n);
  }

  /** Every queued alert is in exactly one place, once: the queue, the worker, sent or failed. */
  lemma QueuedOnce(c: Config, acts: seq<Action>, states: seq<State>, n: nat, m: W.Msg)
    requires IsTrace(c, acts, states) && n < |states| && m in states[n].queue
    ensures var s := states[n];
      W.Count(s.worker.sent, m) + W.Count(s.worker.failed, m) + W.Held(s.worker.w, m) + W.Count(s.ch, m) == 1
  {
    Reachable(c, acts, states, n);
    var s := states[n];
    CountOf(s, m);
    CountIn(s.queue, m);
    W.CountAppend(s.worker.taken, s.ch, m);
  }

  lemma StoppedHoldsNothing(c: W.Config, w: W.Worker, m: W.Msg)
    requires W.Filling(c, w) && w.pc.Stopped?
    ensures W.Held(w, m) == 0 && W.Waiting(w) == []
  {
  }

  /** When the worker has stopped, every queued alert was sent or failed, and not both. */
  lemma EndsSentOrFailed(c: Config, acts: seq<Action>, states: seq<State>, n: nat, m: W.Msg)
    requires IsTrace(c, acts, states) && n < |states| && states[n].worker.w.pc.Stopped? && m in states[n].queue
    ensures m in states[n].worker.sent <==> m !in states[n].worker.failed
  {
    var s := states[n];
    Reachable(c, acts, states, n);
    QueuedOnce(c, acts, states, n, m);
    StoppedHoldsNothing(c.worker, s.worker.w, m);
    CountIn(s.worker.sent, m);
    CountIn(s.worker.failed, m);
  }

  lemma {:induction false} BatchableConcat(c: W.Config, a: seq<W.Msg>, b: seq<W.Msg>)
    ensures W.Batchable(c, a + b) == W.Batchable(c, a) + W.Batchable(c, b)
  {
    if b == [] {
      assert a + b == a;
    } else {
      var last := b[|b| - 1];
      BatchableConcat(c, a, b[..|b| - 1]);
      assert a + b == (a + b[..|b| - 1]) + [last];
      assert b == b[..|b| - 1] + [last];
      W.BatchableAppend(c, a + b[..|b| - 1], last);
      W.BatchableAppend(c, b[..|b| - 1], last);
    }
  }

  /** The batches given to send follow the queue order, but for alerts that do not encode; a batch of two or
      more is at most 512 KiB. */
  lemma BatchesFollowQueue(c: Config, acts: seq<Action>, states: seq<State>, n: nat)
    requires IsTrace(c, acts, states) && n < |states|
    ensures var s := states[n];
      && W.Batchable(c.worker, s.queue) == W.Flatten(s.worker.given) + W.Waiting(s.worker.w) + W.Batchable(c.worker, s.ch)
      && (s.worker.w.pc.Stopped? ==> W.Flatten(s.worker.given) == W.Batchable(c.worker, s.queue))
      && (forall b :: b in s.worker.given && |b| >= 2 ==> W.Bytes(b) <= 512 * 1024 && |b| <= c.worker.batchSize)
  {
    var s := states[n];
    Reachable(c, acts, states, n);
    GivenFollowsQueue(c.worker, s.worker, s.ch);
  }

  lemma GivenFollowsQueue(c: W.Config, w: W.State, ch: seq<W.Msg>)
    requires W.InOrder(c, w) && W.Filling(c, w.w)
    ensures W.Batchable(c, w.taken + ch) == W.Flatten(w.given) + W.Waiting(w.w) + W.Batchable(c, ch)
    ensures w.w.pc.Stopped? && ch == [] ==> W.Flatten(w.given) == W.Batchable(c, w.taken + ch)
  {
    BatchableConcat(c, w.taken, ch);
    if w.w.pc.Stopped? && ch == [] {
      assert W.Flatten(w.given) + [] + [] == W.Flatten(w.given);
    }
  }

  /** The record of a queued alert is undone exactly if the alert failed; a sent alert keeps it. */
  lemma UndoneIffFailed(c: Config, acts: seq<Action>, states: seq<State>, n: nat, m: W.Msg)
    requires IsTrace(c, acts, states) && n < |states| && m in states[n].queue
    ensures var s := states[n]; OffRuns.Reverted(s.off.ops, |s.off.ops|, m.id) <==> m in s.worker.failed
    ensures m in states[n].worker.sent ==> m !in states[n].worker.failed
  {
    var s := states[n];
    Reachable(c, acts, states, n);
    if OffRuns.Reverted(s.off.ops, |s.off.ops|, m.id) {
      var j :| 0 <= j < |s.off.ops| && s.off.ops[j].Revert? && s.off.ops[j].of == m.id;
      assert UndoneAt(s, j);
    }
    if m in s.worker.failed {
      FailedWereQueued(s, m);
    }
  }

  lemma RecordsUndoneOnce(c: Config, s: State)
    requires Inv(c, s)
    ensures OffRuns.RevertsOnce(c.off, s.off.ops)
  {
    forall j | 0 <= j < |s.off.ops| && s.off.ops[j].Revert?
      ensures s.off.ops[j].of < j && s.off.ops[s.off.ops[j].of].Accept?
      ensures s.off.ops[j].mark == OffRuns.OutAt(c.off, s.off.ops, s.off.ops[j].of).mark
    {
      assert UndoneAt(s, j);
      assert Traces(s, s.made[s.off.ops[j].of]);
      OffRuns.RunOutIsAt(c.off, s.off, s.off.ops[j].of);
    }
  }

  /** In the whole sink, the repeat cooldown is applied to a source and class only when RepeatAfter of its
      alerts stand, counting the next one: failed and dropped ones do not count. */
  lemma RepeatIsEarned(c: Config, acts: seq<Action>, states: seq<State>, n: nat, ip: string, cls: Class, now: Time)
    requires IsTrace(c, acts, states) && n < |states| && cls != NoClass
    ensures states[n].off.states != []
    ensures var s := states[n];
      var w := Off.WindowFor(c.off, OffRuns.Last(s.off), Some(ip), cls, c.cd.window, now);
      w == c.cd.window || (w == c.off.repeat && |OffRuns.Standing(s.off.ops, |s.off.ops|, ip, cls)| + 1 >= c.off.repeatAfter)
  {
    var s := states[n];
    Reachable(c, acts, states, n);
    RecordsUndoneOnce(c, s);
    OffRuns.RunIsAt(c.off, s.off, |s.off.ops|);
    OffRuns.RepeatNeedsStanding(c.off, s.off.ops, |s.off.ops|, ip, cls, c.cd.window, now);
  }

  /** Once a failed alert is dealt with, its cooldown slot is free for good: the source is reported again. */
  lemma FailedSlotIsFree(c: Config, acts: seq<Action>, states: seq<State>, n: nat, m: W.Msg)
    requires IsTrace(c, acts, states) && n < |states| && c.cd.window != 0
    requires m in states[n].worker.failed && !Releasing(states[n].worker.w, m)
    ensures states[n].cd.states != [] && CdRuns.SlotFree(CdRuns.Last(states[n].cd), m.slot)
  {
    var s := states[n];
    Reachable(c, acts, states, n);
    FailedWereQueued(s, m);
    assert Traces(s, m);
    assert Released(s, m);
    var i :| m.pass < i < |s.cd.ops| && s.cd.ops[i].Release? && s.cd.ops[i].key == m.key && s.cd.ops[i].slot == m.slot;
    CdRuns.ReleasedForGood(c.cd, s.cd, m.pass, i, |s.cd.ops|);
  }
}
