/** After Close the worker never gets stuck and runs out of work. */
module PipelineProgress {
  import opened Fifo
  import W = BatchWorker
  import opened Pipeline
  import opened PipelineRuns
  import opened PipelineTheorems

  // ---------- the work that is left ----------

  function PcWork(pc: W.Pc): nat {
    match pc
    case Selecting => 1
    case Sending(b, _) => 4 * |b| + 1
    case Failing(b, reverted, _, _) => 3 * |b| + 1 - (if reverted && b != [] then 1 else 0)
    case Holding(_) => 2
    case Stopped => 0
  }

  function WorkerWork(w: W.Worker): nat {
    5 * |w.batch| + 5 * |W.Next(w.pc)| + PcWork(w.pc)
  }

  /** An upper bound on the steps the worker still makes. */
  function Left(s: State): nat {
    6 * |s.ch| + WorkerWork(s.worker.w)
  }

  /** A tick that finds no batch. */
  predicate IdleTick(c: W.Config, w: W.Worker, a: W.Action) {
    a.Tick? && !(c.batched && w.batch != [])
  }

  lemma SendFalls(w: W.Worker, k: W.Cont)
    requires w.batch != []
    ensures WorkerWork(W.SendBatch(w, k).w) <= 4 * |w.batch| + 1 + 5 * |W.Carried(k)|
  {
  }

  lemma AddFalls(c: W.Config, w: W.Worker, m: W.Msg)
    ensures WorkerWork(W.AddToBatch(c, w, m).w) <= 5 * |w.batch| + 6
  {
    var full := w.(pc := W.Selecting, batch := w.batch + [m], bytes := w.bytes + m.size);
    SendFalls(full, W.Resume);
  }

  lemma ContinueFalls(c: W.Config, w: W.Worker, k: W.Cont)
    ensures WorkerWork(W.Continue(c, w, k).w) <= 5 * |w.batch| + 5 * |W.Carried(k)| + 1
  {
    if k.Append? {
      AddFalls(c, w, k.msg);
    }
  }

  lemma TakeFalls(c: W.Config, w: W.Worker, m: W.Msg)
    requires w.pc == W.Selecting
    ensures WorkerWork(W.OnTake(c, w, m).w) < WorkerWork(w) + 6
  {
    if c.batched && m.encodes {
      if w.batch != [] && w.bytes + m.size > W.MAX_BATCH_BYTES {
        SendFalls(w, W.Append(m));
      } else {
        AddFalls(c, w, m);
      }
    }
  }

  lemma PostFalls(c: W.Config, w: W.Worker, ok: bool)
    requires W.Filling(c, w) && w.pc.Sending?
    ensures WorkerWork(W.OnPost(c, w, ok).w) < WorkerWork(w)
  {
    if ok {
      ContinueFalls(c, if w.abandon then w.(finalTried := true, abandon := !ok) else w, w.pc.k);
    }
  }

  lemma ReleaseFalls(c: W.Config, w: W.Worker)
    requires w.pc.Failing? && w.pc.reverted && w.pc.b != []
    ensures WorkerWork(W.OnRelease(c, w).w) < WorkerWork(w)
  {
    if |w.pc.b| == 1 && !w.pc.hold {
      ContinueFalls(c, w, w.pc.k);
    }
  }

  /** Every step of the worker but an idle tick uses up some of the work. */
  lemma WorkerFalls(c: W.Config, w: W.Worker, a: W.Action)
    requires W.Filling(c, w) && W.Enabled(w, a) && !IdleTick(c, w, a)
    ensures WorkerWork(W.On(c, w, a).w) < WorkerWork(w) + (if a.Take? then 6 else 0)
  {
    match a {
      case Take(m) => TakeFalls(c, w, m);
      case TakeClosed => if c.batched && w.batch != [] { SendFalls(w, W.Exit); }
      case Tick => SendFalls(w, W.Resume);
      case Post(ok) => PostFalls(c, w, ok);
      case Revert =>
      case Release => ReleaseFalls(c, w);
      case Hold(interrupted) => ContinueFalls(c, w.(abandon := w.abandon || interrupted), w.pc.k);
    }
  }

  // ---------- after Close ----------

  predicate Busy(c: Config, s: State, a: Action) {
    a.Work? && !IdleTick(c.worker, s.worker.w, a.a)
  }

  lemma WorkFalls(c: Config, s: State, a: Action)
    requires Linked(s) && Enabled(c, s, a) && W.Filling(c.worker, s.worker.w) && Busy(c, s, a)
    ensures Left(Next(c, s, a)) < Left(s)
  {
    WorkerFalls(c.worker, s.worker.w, a.a);
  }

  /** Once closed, no other step adds to the work. */
  lemma OthersIdle(c: Config, s: State, a: Action)
    requires Linked(s) && Enabled(c, s, a) && Locked(s) && s.closed && !Busy(c, s, a)
    ensures Left(Next(c, s, a)) == Left(s)
  {
  }

  lemma ClosedStays(c: Config, s: State, a: Action)
    requires Linked(s) && Enabled(c, s, a) && s.closed
    ensures Next(c, s, a).closed
  {
  }

  function Now(s: State): (now: Time) {
    var a := if s.cd.ops == [] then 0 else s.cd.ops[|s.cd.ops| - 1].now;
    var b := if s.off.ops == [] then 0 else s.off.ops[|s.off.ops| - 1].now;
    if a < b then b else a
  }

  /** Until it has stopped, the worker of a closed sink can make a step that uses up work. */
  lemma WorkerCanStep(c: Config, acts: seq<Action>, states: seq<State>, n: nat) returns (a: Action)
    requires IsTrace(c, acts, states) && n < |states| && states[n].closed && !states[n].worker.w.pc.Stopped?
    ensures Enabled(c, states[n], a) && Busy(c, states[n], a)
  {
    Reachable(c, acts, states, n);
    a := StepOf(c, states[n]);
  }

  lemma StepOf(c: Config, s: State) returns (a: Action)
    requires s.closed && !s.worker.w.pc.Stopped? && W.Filling(c.worker, s.worker.w)
    ensures Enabled(c, s, a) && Busy(c, s, a)
  {
    var pc := s.worker.w.pc;
    var wa :=
      if pc.Selecting? then (if s.ch != [] then W.Take(s.ch[0]) else W.TakeClosed)
      else if pc.Sending? then W.Post(false)
      else if pc.Failing? then (if pc.reverted then W.Release else W.Revert)
      else W.Hold(false);
    a := Work(wa, Now(s));
  }

  lemma StepLeft(c: Config, s: State, a: Action)
    requires Linked(s) && Enabled(c, s, a) && Locked(s) && W.Filling(c.worker, s.worker.w) && s.closed
    ensures Next(c, s, a).closed && Left(Next(c, s, a)) + (if Busy(c, s, a) then 1 else 0) <= Left(s)
  {
    ClosedStays(c, s, a);
    if Busy(c, s, a) {
      WorkFalls(c, s, a);
    } else {
      OthersIdle(c, s, a);
    }
  }

  lemma TraceLeft(c: Config, acts: seq<Action>, states: seq<State>, n: nat)
    requires IsTrace(c, acts, states) && n < |acts| && states[n].closed
    ensures states[n + 1].closed && Left(states[n + 1]) + (if Busy(c, states[n], acts[n]) then 1 else 0) <= Left(states[n])
  {
    Reachable(c, acts, states, n);
    assert Takes(c, states[n], acts[n], states[n + 1]);
    StepLeft(c, states[n], acts[n]);
  }

  /** The busy steps from k to n. */
  ghost function BusySteps(c: Config, acts: seq<Action>, states: seq<State>, k: nat, n: nat): nat
    requires k <= n <= |acts| < |states|
    decreases n
  {
    if k == n then 0 else BusySteps(c, acts, states, k, n - 1) + if Busy(c, states[n - 1], acts[n - 1]) then 1 else 0
  }

  /** In every run, the busy steps after Close are bounded by the work Close found: with WorkerCanStep, the worker
      stops as soon as it was given that many steps. */
  lemma {:induction false} WorkRunsOut(c: Config, acts: seq<Action>, states: seq<State>, k: nat, n: nat)
    requires IsTrace(c, acts, states) && k <= n <= |acts| && states[k].closed
    ensures states[n].closed && BusySteps(c, acts, states, k, n) + Left(states[n]) <= Left(states[k])
    decreases n
  {
    if k < n {
      WorkRunsOut(c, acts, states, k, n - 1);
      TraceLeft(c, acts, states, n - 1);
    }
  }

  /** With no work left the worker has stopped, and then every queued alert was sent or failed. */
  lemma NoWorkIsStopped(c: Config, acts: seq<Action>, states: seq<State>, n: nat)
    requires IsTrace(c, acts, states) && n < |states|
    ensures Left(states[n]) == 0 <==> states[n].worker.w.pc.Stopped?
  {
    Reachable(c, acts, states, n);
  }
}
