/** The CrowdSec sink: concurrent Submit calls, the queue, the batch worker and Close, as interleaved steps.
    Each step is one critical section of the program. */
module Pipeline {
  import opened Fifo
  import opened Severity
  import Cd = Cooldown
  import CdRuns = CooldownRuns
  import Off = Offenders
  import OffRuns = OffenderHistory
  import W = BatchWorker

  const QUEUE_CAPACITY := 256

  datatype Config = Config(banOn: set<Class>, cd: Cd.Config, off: Off.Settings, worker: W.Config)

  /** A classified session. bannable: the address parses and is publicly routable; own: the class of the
      session itself; size and encodes describe the JSON form of the alert. */
  datatype Event = Event(bannable: bool, ip: string, cls: Class, own: Class, size: nat, encodes: bool)

  /** Where a Submit call stands. From Entered on it holds the read lock of Close. */
  datatype Phase =
    | Waiting(ev: Event)
    | Entered(ev: Event)
    | Allowed(ev: Event, pass: nat)   // pass: the cooldown operation that let the alert through
    | Recorded(msg: W.Msg)
    | Full(msg: W.Msg)                // the queue was full
    | Freed(msg: W.Msg)               // its cooldown slot is free again

  datatype Counters = Counters(
    received: nat, invalid: nat, closed: nat, filtered: nat, cooldown: nat, queued: nat, dropped: nat)

  /** queue is every alert ever queued; made maps the number of an accept operation to its alert; dropped are
      the numbers of alerts undone because the queue was full; panicked tells of a send on a closed channel. */
  datatype State = State(
    closed: bool, panicked: bool, ch: seq<W.Msg>, threads: map<nat, Phase>, worker: W.State, n: Counters,
    cd: CdRuns.Run, off: OffRuns.Run,
    queue: seq<W.Msg>, made: map<nat, W.Msg>, dropped: set<nat>)

  const START := State(false, false, [], map[], W.START, Counters(0, 0, 0, 0, 0, 0, 0),
                       CdRuns.START, OffRuns.START, [], map[], {})

  datatype Action =
    | Receive(t: nat, ev: Event)
    | Enter(t: nat)
    | Allow(t: nat, now: Time, tableNow: Time)
    | Record(t: nat, now: Time)
    | Enqueue(t: nat)
    | Free(t: nat, now: Time)
    | Undo(t: nat, now: Time)
    | Close
    | Work(a: W.Action, now: Time)     // now: the clock of a revert or a release
    | Table(op: Off.Op)                // a query, rejection, sweep or flush of the shun gate
    | Cleanup(now: Time)

  function Effective(c: Config, ev: Event): Class {
    if ev.cls == Scan && Scan !in c.banOn then ev.own else ev.cls
  }

  predicate HoldsLock(p: Phase) {
    !p.Waiting?
  }

  ghost predicate Enabled(c: Config, s: State, a: Action) {
    match a
    case Receive(t, _) => t !in s.threads
    case Enter(t) => t in s.threads && s.threads[t].Waiting?
    case Allow(t, now, _) =>
      t in s.threads && s.threads[t].Entered? && (s.cd.ops == [] || s.cd.ops[|s.cd.ops| - 1].now <= now)
    case Record(t, now) =>
      t in s.threads && s.threads[t].Allowed? && (s.off.ops == [] || s.off.ops[|s.off.ops| - 1].now <= now)
    case Enqueue(t) => t in s.threads && s.threads[t].Recorded?
    case Free(t, now) =>
      t in s.threads && s.threads[t].Full? && (s.cd.ops == [] || s.cd.ops[|s.cd.ops| - 1].now <= now)
    case Undo(t, now) =>
      t in s.threads && s.threads[t].Freed? && (s.off.ops == [] || s.off.ops[|s.off.ops| - 1].now <= now)
    case Close => !s.closed && forall t :: t in s.threads ==> !HoldsLock(s.threads[t])
    case Work(wa, now) =>
      && W.Enabled(s.worker.w, wa)
      && (wa.Take? ==> s.ch != [] && wa.msg == s.ch[0])
      && (wa.TakeClosed? ==> s.ch == [] && s.closed)
      && (wa.Hold? && wa.interrupted ==> s.closed)
      && (wa.Revert? ==> s.off.ops == [] || s.off.ops[|s.off.ops| - 1].now <= now)
      && (wa.Release? ==> s.cd.ops == [] || s.cd.ops[|s.cd.ops| - 1].now <= now)
    case Table(op) =>
      && !op.Accept? && !op.Revert?
      && (s.off.ops == [] || s.off.ops[|s.off.ops| - 1].now <= op.now)
    case Cleanup(now) => s.cd.ops == [] || s.cd.ops[|s.cd.ops| - 1].now <= now
  }

  // The component runs can be extended.
  ghost predicate Linked(s: State) {
    && s.cd.states != [] && Cd.Linked(CdRuns.Last(s.cd))
    && s.off.states != [] && Off.Linked(OffRuns.Last(s.off))
    && (forall t :: t in s.threads && s.threads[t].Allowed? ==> s.threads[t].pass < |s.cd.outs|)
  }

  function Leave(s: State, t: nat): State {
    s.(threads := s.threads - {t})
  }

  function DoEnter(c: Config, s: State, t: nat): State
    requires t in s.threads && s.threads[t].Waiting?
  {
    var ev := s.threads[t].ev;
    if s.closed then Leave(s, t).(n := s.n.(closed := s.n.closed + 1))
    else if Effective(c, ev) !in c.banOn then Leave(s, t).(n := s.n.(filtered := s.n.filtered + 1))
    else s.(threads := s.threads[t := Entered(ev.(cls := Effective(c, ev)))])
  }

  /** The call goes on with its slot, or ends with the cooldown. */
  function Passed(s: State, t: nat, ev: Event, cd: CdRuns.Run): State
    requires cd.outs != []
  {
    if cd.outs[|cd.outs| - 1].ok then s.(cd := cd, threads := s.threads[t := Allowed(ev, |cd.outs| - 1)])
    else Leave(s, t).(cd := cd, n := s.n.(cooldown := s.n.cooldown + 1))
  }

  ghost function DoAllow(c: Config, s: State, t: nat, now: Time, tableNow: Time): State
    requires Linked(s) && t in s.threads && s.threads[t].Entered?
  {
    var ev := s.threads[t].ev;
    var win := Off.WindowFor(c.off, OffRuns.Last(s.off), Some(ev.ip), ev.cls, c.cd.window, tableNow);
    Passed(s, t, ev, CdRuns.Extend(c.cd, s.cd, Cd.Allow(ev.ip, ev.cls, win, now)))
  }

  /** The call holds the alert it made. */
  function Noted(s: State, t: nat, off: OffRuns.Run, msg: W.Msg): State {
    s.(off := off, threads := s.threads[t := Recorded(msg)], made := s.made[msg.id := msg])
  }

  ghost function DoRecord(c: Config, s: State, t: nat, now: Time): State
    requires Linked(s) && t in s.threads && s.threads[t].Allowed?
  {
    var ev, pass := s.threads[t].ev, s.threads[t].pass;
    var out := s.cd.outs[pass];
    var off := OffRuns.Extend(c.off, s.off, Off.Accept(Some(ev.ip), ev.cls, out.win, now));
    Noted(s, t, off, W.Msg(|s.off.ops|, pass, out.key, out.slot, off.outs[|off.outs| - 1].mark, ev.size, ev.encodes))
  }

  function DoEnqueue(s: State, t: nat): State
    requires t in s.threads && s.threads[t].Recorded?
  {
    var msg := s.threads[t].msg;
    if s.closed then s.(panicked := true)
    else if |s.ch| < QUEUE_CAPACITY then
      Leave(s, t).(ch := s.ch + [msg], queue := s.queue + [msg], n := s.n.(queued := s.n.queued + 1))
    else s.(threads := s.threads[t := Full(msg)])
  }

  ghost function DoFree(c: Config, s: State, t: nat, now: Time): State
    requires Linked(s) && t in s.threads && s.threads[t].Full?
  {
    var msg := s.threads[t].msg;
    s.(cd := CdRuns.Extend(c.cd, s.cd, Cd.Release(msg.key, msg.slot, now)), threads := s.threads[t := Freed(msg)])
  }

  ghost function DoUndo(c: Config, s: State, t: nat, now: Time): State
    requires Linked(s) && t in s.threads && s.threads[t].Freed?
  {
    var msg := s.threads[t].msg;
    Leave(s, t).(off := OffRuns.Extend(c.off, s.off, Off.Revert(msg.mark, msg.id, now)),
                 dropped := s.dropped + {msg.id}, n := s.n.(dropped := s.n.dropped + 1))
  }

  ghost function DoWork(c: Config, s: State, a: W.Action, now: Time): State
    requires Linked(s) && W.Enabled(s.worker.w, a) && (a.Take? ==> s.ch != [])
  {
    var t := s.(worker := W.Step(c.worker, s.worker, a), ch := if a.Take? then s.ch[1..] else s.ch);
    if a.Revert? then
      var m := s.worker.w.pc.b[0];
      t.(off := OffRuns.Extend(c.off, s.off, Off.Revert(m.mark, m.id, now)))
    else if a.Release? then
      var m := s.worker.w.pc.b[0];
      t.(cd := CdRuns.Extend(c.cd, s.cd, Cd.Release(m.key, m.slot, now)))
    else t
  }

  ghost function Next(c: Config, s: State, a: Action): State
    requires Linked(s) && Enabled(c, s, a)
  {
    match a
    case Receive(t, ev) =>
      if !ev.bannable then s.(n := s.n.(received := s.n.received + 1, invalid := s.n.invalid + 1))
      else s.(threads := s.threads[t := Waiting(ev)], n := s.n.(received := s.n.received + 1))
    case Enter(t) => DoEnter(c, s, t)
    case Allow(t, now, tableNow) => DoAllow(c, s, t, now, tableNow)
    case Record(t, now) => DoRecord(c, s, t, now)
    case Enqueue(t) => DoEnqueue(s, t)
    case Free(t, now) => DoFree(c, s, t, now)
    case Undo(t, now) => DoUndo(c, s, t, now)
    case Close => s.(closed := true)
    case Work(wa, now) => DoWork(c, s, wa, now)
    case Table(op) => s.(off := OffRuns.Extend(c.off, s.off, op))
    case Cleanup(now) => s.(cd := CdRuns.Extend(c.cd, s.cd, Cd.Cleanup(now)))
  }
}
