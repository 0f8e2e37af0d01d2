/** Which events the sink reports, over every interleaving, in terms of the events received and the settings. */
module PipelineClasses {
  import opened Fifo
  import opened Severity
  import Cd = Cooldown
  import CdRuns = CooldownRuns
  import CdAnswers = CooldownAnswers
  import Off = Offenders
  import OffRuns = OffenderHistory
  import W = BatchWorker
  import opened Pipeline
  import opened PipelineTrace
  import opened PipelineTheorems

  // ---------- events and classes ----------

  /** A scan that is not reported counts as what the session did itself; every other event keeps its class. */
  predicate CountsAs(banOn: set<Class>, ev: Event, cls: Class) {
    if ev.cls == Scan && Scan !in banOn then cls == ev.own else cls == ev.cls
  }

  /** The i-th action received a bannable event of that source, and its class is reported. */
  predicate Brings(c: Config, acts: seq<Action>, i: nat, ip: string, cls: Class, size: nat, encodes: bool) {
    && i < |acts| && acts[i].Receive?
    && var ev := acts[i].ev;
      ev.bannable && ev.ip == ip && ev.size == size && ev.encodes == encodes && CountsAs(c.banOn, ev, cls) && cls in c.banOn
  }

  ghost predicate Brought(c: Config, acts: seq<Action>, n: nat, ip: string, cls: Class, size: nat, encodes: bool) {
    exists i: nat :: i < n && Brings(c, acts, i, ip, cls, size, encodes)
  }

  /** The call t was received with ev by one of the first n actions. */
  ghost predicate Received(acts: seq<Action>, n: nat, t: nat, ev: Event) {
    exists i: nat :: i < n && i < |acts| && acts[i] == Receive(t, ev) && ev.bannable
  }

  ghost predicate ThreadOk(c: Config, acts: seq<Action>, n: nat, s: State, t: nat)
    requires t in s.threads
  {
    match s.threads[t]
    case Waiting(ev) => Received(acts, n, t, ev)
    case Entered(ev) => Brought(c, acts, n, ev.ip, ev.cls, ev.size, ev.encodes)
    case Allowed(ev, pass) =>
      && Brought(c, acts, n, ev.ip, ev.cls, ev.size, ev.encodes)
      && pass < |s.cd.ops| && s.cd.ops[pass].Allow? && s.cd.ops[pass].ip == ev.ip && s.cd.ops[pass].cls == ev.cls
    case _ => true
  }

  /** The alert was brought by a received event; the filter let it through and the table recorded it, both under the
      source and class of that event, and the table with the window the filter answered. */
  ghost predicate Reported(c: Config, acts: seq<Action>, n: nat, s: State, m: W.Msg) {
    && m.id < |s.off.ops| && m.pass < |s.cd.ops| && m.pass < |s.cd.outs|
    && s.off.ops[m.id].Accept? && s.off.ops[m.id].key.Some? && s.cd.ops[m.pass].Allow?
    && Brought(c, acts, n, s.off.ops[m.id].key.value, s.off.ops[m.id].cls, m.size, m.encodes)
    && s.cd.ops[m.pass].ip == s.off.ops[m.id].key.value && s.cd.ops[m.pass].cls == s.off.ops[m.id].cls
    && s.off.ops[m.id].window == s.cd.outs[m.pass].win
  }

  ghost predicate Classed(c: Config, acts: seq<Action>, n: nat, s: State) {
    && (forall t :: t in s.threads ==> ThreadOk(c, acts, n, s, t))
    && (forall id :: id in s.made ==> Reported(c, acts, n, s, s.made[id]))
  }

  // ---------- kept by every step ----------

  lemma BroughtLater(c: Config, acts: seq<Action>, n: nat, ip: string, cls: Class, size: nat, encodes: bool)
    requires Brought(c, acts, n, ip, cls, size, encodes)
    ensures Brought(c, acts, n + 1, ip, cls, size, encodes)
  {
    var i: nat :| i < n && Brings(c, acts, i, ip, cls, size, encodes);
    assert i < n + 1 && Brings(c, acts, i, ip, cls, size, encodes);
  }

  lemma ThreadLater(c: Config, acts: seq<Action>, n: nat, s: State, r: State, t: nat)
    requires t in s.threads && t in r.threads && r.threads[t] == s.threads[t] && s.cd.ops <= r.cd.ops
    requires ThreadOk(c, acts, n, s, t)
    ensures ThreadOk(c, acts, n + 1, r, t)
  {
    match s.threads[t] {
      case Waiting(ev) =>
        var i: nat :| i < n && i < |acts| && acts[i] == Receive(t, ev) && ev.bannable;
        assert i < n + 1 && acts[i] == Receive(t, ev);
      case Entered(ev) => BroughtLater(c, acts, n, ev.ip, ev.cls, ev.size, ev.encodes);
      case Allowed(ev, pass) => BroughtLater(c, acts, n, ev.ip, ev.cls, ev.size, ev.encodes);
      case _ =>
    }
  }

  lemma ReportedLater(c: Config, acts: seq<Action>, n: nat, s: State, r: State, m: W.Msg)
    requires Reported(c, acts, n, s, m)
    requires s.off.ops <= r.off.ops && s.cd.ops <= r.cd.ops && s.cd.outs <= r.cd.outs
    ensures Reported(c, acts, n + 1, r, m)
  {
    BroughtLater(c, acts, n, s.off.ops[m.id].key.value, s.off.ops[m.id].cls, m.size, m.encodes);
  }

  /** Only the thread t moves, and no alert is made. */
  lemma OneMoves(c: Config, acts: seq<Action>, n: nat, s: State, r: State, t: nat)
    requires Classed(c, acts, n, s) && r.made == s.made
    requires s.off.ops <= r.off.ops && s.cd.ops <= r.cd.ops && s.cd.outs <= r.cd.outs
    requires forall u :: u in r.threads && u != t ==> u in s.threads && r.threads[u] == s.threads[u]
    requires t in r.threads ==> ThreadOk(c, acts, n + 1, r, t)
    ensures Classed(c, acts, n + 1, r)
  {
    forall u | u in r.threads ensures ThreadOk(c, acts, n + 1, r, u) {
      if u != t { ThreadLater(c, acts, n, s, r, u); }
    }
    forall id | id in r.made ensures Reported(c, acts, n + 1, r, r.made[id]) {
      ReportedLater(c, acts, n, s, r, s.made[id]);
    }
  }

  lemma NoneMoves(c: Config, acts: seq<Action>, n: nat, s: State, r: State)
    requires Classed(c, acts, n, s) && r.made == s.made && r.threads == s.threads
    requires s.off.ops <= r.off.ops && s.cd.ops <= r.cd.ops && s.cd.outs <= r.cd.outs
    ensures Classed(c, acts, n + 1, r)
  {
    forall u | u in r.threads ensures ThreadOk(c, acts, n + 1, r, u) {
      ThreadLater(c, acts, n, s, r, u);
    }
    forall id | id in r.made ensures Reported(c, acts, n + 1, r, r.made[id]) {
      ReportedLater(c, acts, n, s, r, s.made[id]);
    }
  }

  lemma ReceiveClassed(c: Config, acts: seq<Action>, n: nat, s: State, t: nat, ev: Event)
    requires Classed(c, acts, n, s) && n < |acts| && acts[n] == Receive(t, ev) && Linked(s) && Enabled(c, s, acts[n])
    ensures Classed(c, acts, n + 1, Next(c, s, acts[n]))
  {
    assert ev.bannable ==> n < n + 1 && acts[n] == Receive(t, ev);
    OneMoves(c, acts, n, s, Next(c, s, acts[n]), t);
  }

  lemma EnterClassed(c: Config, acts: seq<Action>, n: nat, s: State, t: nat)
    requires Classed(c, acts, n, s) && n < |acts| && t in s.threads && s.threads[t].Waiting?
    ensures Classed(c, acts, n + 1, DoEnter(c, s, t))
  {
    var r, ev := DoEnter(c, s, t), s.threads[t].ev;
    assert ThreadOk(c, acts, n, s, t);
    if t in r.threads {
      var e := r.threads[t].ev;
      var i: nat :| i < n && i < |acts| && acts[i] == Receive(t, ev) && ev.bannable;
      assert Brings(c, acts, i, e.ip, e.cls, e.size, e.encodes);
      assert i < n + 1;
    }
    OneMoves(c, acts, n, s, r, t);
  }

  lemma PassedClassed(c: Config, acts: seq<Action>, n: nat, s: State, t: nat, ev: Event, cd: CdRuns.Run)
    requires Classed(c, acts, n, s) && t in s.threads && s.threads[t] == Entered(ev)
    requires s.cd.ops <= cd.ops && s.cd.outs <= cd.outs && |cd.ops| == |cd.outs| == |s.cd.ops| + 1
    requires cd.ops[|s.cd.ops|].Allow? && cd.ops[|s.cd.ops|].ip == ev.ip && cd.ops[|s.cd.ops|].cls == ev.cls
    ensures Classed(c, acts, n + 1, Passed(s, t, ev, cd))
  {
    var r := Passed(s, t, ev, cd);
    assert ThreadOk(c, acts, n, s, t);
    BroughtLater(c, acts, n, ev.ip, ev.cls, ev.size, ev.encodes);
    PassedParts(s, t, ev, cd);
    assert t in r.threads ==> ThreadOk(c, acts, n + 1, r, t);
    OneMoves(c, acts, n, s, r, t);
  }

  lemma PassedParts(s: State, t: nat, ev: Event, cd: CdRuns.Run)
    requires cd.outs != []
    ensures var r := Passed(s, t, ev, cd);
      && r.cd == cd && r.off == s.off && r.made == s.made
      && (forall u :: u in r.threads && u != t ==> u in s.threads && r.threads[u] == s.threads[u])
      && (t in r.threads ==> r.threads[t] == Allowed(ev, |cd.outs| - 1))
  {
  }

  lemma AllowClassed(c: Config, acts: seq<Action>, n: nat, s: State, t: nat, now: Time, tableNow: Time)
    requires Classed(c, acts, n, s) && Linked(s) && |s.cd.ops| == |s.cd.outs| && Enabled(c, s, Allow(t, now, tableNow))
    ensures Classed(c, acts, n + 1, DoAllow(c, s, t, now, tableNow))
  {
    var ev := s.threads[t].ev;
    var win := Off.WindowFor(c.off, OffRuns.Last(s.off), Some(ev.ip), ev.cls, c.cd.window, tableNow);
    PassedClassed(c, acts, n, s, t, ev, CdRuns.Extend(c.cd, s.cd, Cd.Allow(ev.ip, ev.cls, win, now)));
  }

  /** What the record of a call is made of. */
  lemma RecordParts(c: Config, s: State, t: nat, now: Time)
    requires Linked(s) && t in s.threads && s.threads[t].Allowed?
    ensures var r, ev, pass := DoRecord(c, s, t, now), s.threads[t].ev, s.threads[t].pass;
      && t in r.threads && r.threads[t].Recorded? && r.cd == s.cd
      && var m := r.threads[t].msg;
      && m.id == |s.off.ops| && m.pass == pass && m.size == ev.size && m.encodes == ev.encodes
      && r.made == s.made[m.id := m]
      && r.off.ops == s.off.ops + [Off.Accept(Some(ev.ip), ev.cls, s.cd.outs[pass].win, now)]
      && forall u :: u in r.threads && u != t ==> u in s.threads && r.threads[u] == s.threads[u]
  {
  }

  lemma NotedClassed(c: Config, acts: seq<Action>, n: nat, s: State, t: nat, off: OffRuns.Run, m: W.Msg)
    requires Classed(c, acts, n, s) && Made(s) && t in s.threads && m.id == |s.off.ops|
    requires s.off.ops <= off.ops && Reported(c, acts, n + 1, s.(off := off), m)
    ensures Classed(c, acts, n + 1, Noted(s, t, off, m))
  {
    var r := Noted(s, t, off, m);
    NewRecord(s);
    forall u | u in r.threads ensures ThreadOk(c, acts, n + 1, r, u) {
      if u != t { ThreadLater(c, acts, n, s, r, u); }
    }
    forall id | id in r.made ensures Reported(c, acts, n + 1, r, r.made[id]) {
      if id != m.id { ReportedLater(c, acts, n, s, r, s.made[id]); }
    }
  }

  lemma RecordClassed(c: Config, acts: seq<Action>, n: nat, s: State, t: nat, now: Time)
    requires Classed(c, acts, n, s) && Made(s) && Linked(s) && Enabled(c, s, Record(t, now)) && |s.cd.ops| == |s.cd.outs|
    ensures Classed(c, acts, n + 1, DoRecord(c, s, t, now))
  {
    var r, ev := DoRecord(c, s, t, now), s.threads[t].ev;
    RecordParts(c, s, t, now);
    assert ThreadOk(c, acts, n, s, t);
    BroughtLater(c, acts, n, ev.ip, ev.cls, ev.size, ev.encodes);
    NotedClassed(c, acts, n, s, t, r.off, r.threads[t].msg);
  }

  lemma HeldMoves(c: Config, s: State, a: Action)
    requires Linked(s) && Enabled(c, s, a) && (a.Enqueue? || a.Free? || a.Undo?)
    ensures var r := Next(c, s, a);
      && r.made == s.made && s.off.ops <= r.off.ops && s.cd.ops <= r.cd.ops && s.cd.outs <= r.cd.outs
      && (forall u :: u in r.threads && u != a.t ==> u in s.threads && r.threads[u] == s.threads[u])
      && (a.t in r.threads ==> Holding(r.threads[a.t]))
  {
  }

  lemma HeldClassed(c: Config, acts: seq<Action>, n: nat, s: State, a: Action)
    requires Classed(c, acts, n, s) && Linked(s) && Enabled(c, s, a) && (a.Enqueue? || a.Free? || a.Undo?)
    ensures Classed(c, acts, n + 1, Next(c, s, a))
  {
    HeldMoves(c, s, a);
    OneMoves(c, acts, n, s, Next(c, s, a), a.t);
  }

  lemma WorkClassed(c: Config, acts: seq<Action>, n: nat, s: State, a: W.Action, now: Time)
    requires Classed(c, acts, n, s) && Linked(s) && Enabled(c, s, Work(a, now))
    ensures Classed(c, acts, n + 1, DoWork(c, s, a, now))
  {
    NoneMoves(c, acts, n, s, DoWork(c, s, a, now));
  }

  lemma OtherClassed(c: Config, acts: seq<Action>, n: nat, s: State, a: Action)
    requires Classed(c, acts, n, s) && Linked(s) && Enabled(c, s, a) && (a.Close? || a.Table? || a.Cleanup?)
    ensures Classed(c, acts, n + 1, Next(c, s, a))
  {
    NoneMoves(c, acts, n, s, Next(c, s, a));
  }

  lemma StepClassed(c: Config, acts: seq<Action>, n: nat, s: State)
    requires n < |acts| && Classed(c, acts, n, s) && Made(s) && Linked(s) && Enabled(c, s, acts[n]) && |s.cd.ops| == |s.cd.outs|
    ensures Classed(c, acts, n + 1, Next(c, s, acts[n]))
  {
    match acts[n] {
      case Receive(t, ev) => ReceiveClassed(c, acts, n, s, t, ev);
      case Enter(t) => EnterClassed(c, acts, n, s, t);
      case Allow(t, now, tableNow) => AllowClassed(c, acts, n, s, t, now, tableNow);
      case Record(t, now) => RecordClassed(c, acts, n, s, t, now);
      case Enqueue(_) => HeldClassed(c, acts, n, s, acts[n]);
      case Free(_, _) => HeldClassed(c, acts, n, s, acts[n]);
      case Undo(_, _) => HeldClassed(c, acts, n, s, acts[n]);
      case Work(a, now) => WorkClassed(c, acts, n, s, a, now);
      case _ => OtherClassed(c, acts, n, s, acts[n]);
    }
  }

  lemma NextClassed(c: Config, acts: seq<Action>, states: seq<State>, n: nat)
    requires IsTrace(c, acts, states) && n < |acts| && Classed(c, acts, n, states[n])
    ensures Classed(c, acts, n + 1, states[n + 1])
  {
    Reachable(c, acts, states, n);
    assert Takes(c, states[n], acts[n], states[n + 1]);
    StepClassed(c, acts, n, states[n]);
  }

  lemma StartClassed(c: Config, acts: seq<Action>, states: seq<State>)
    requires IsTrace(c, acts, states)
    ensures Classed(c, acts, 0, states[0])
  {
  }

  lemma {:induction false} TraceClassed(c: Config, acts: seq<Action>, states: seq<State>, n: nat)
    requires IsTrace(c, acts, states) && n <= |acts|
    ensures Classed(c, acts, n, states[n])
  {
    if n == 0 {
      StartClassed(c, acts, states);
    } else {
      TraceClassed(c, acts, states, n - 1);
      NextClassed(c, acts, states, n - 1);
    }
  }

  // ---------- the promises ----------

  /** Every alert ever made was brought by a received event whose class is to be reported; the filter and the table
      saw it under that source and class. */
  lemma AlertsAreReported(c: Config, acts: seq<Action>, states: seq<State>, n: nat, id: nat) returns (i: nat)
    requires IsTrace(c, acts, states) && n <= |acts| && id in states[n].made
    ensures var s := states[n]; var m := s.made[id];
      && id == m.id < |s.off.ops| && s.off.ops[id].Accept? && s.off.ops[id].key.Some?
      && i < n && Brings(c, acts, i, s.off.ops[id].key.value, s.off.ops[id].cls, m.size, m.encodes)
      && m.pass < |s.cd.ops| && m.pass < |s.cd.outs| && s.cd.ops[m.pass].Allow? && s.cd.outs[m.pass].ok
      && s.cd.ops[m.pass].ip == s.off.ops[id].key.value && s.cd.ops[m.pass].cls == s.off.ops[id].cls
      && s.off.ops[id].window == s.cd.outs[m.pass].win
  {
    TraceClassed(c, acts, states, n);
    Reachable(c, acts, states, n);
    var s := states[n];
    var m := s.made[id];
    assert Reported(c, acts, n, s, m) && Traces(s, m);
    i :| i < n && Brings(c, acts, i, s.off.ops[m.id].key.value, s.off.ops[m.id].cls, m.size, m.encodes);
  }

  /** A call that enters carries a received event. It ends as closed if the sink is, as filtered if and only if the
      sink is open and the class the event counts as is not reported, and goes on otherwise. */
  lemma EnterDecides(c: Config, acts: seq<Action>, states: seq<State>, n: nat, t: nat, cls: Class) returns (i: nat)
    requires IsTrace(c, acts, states) && n < |acts| && acts[n] == Enter(t)
    requires t in states[n].threads && states[n].threads[t].Waiting? && CountsAs(c.banOn, states[n].threads[t].ev, cls)
    ensures i < n && acts[i] == Receive(t, states[n].threads[t].ev) && acts[i].ev.bannable
    ensures var s, r := states[n], states[n + 1];
      && r.n == s.n.(closed := s.n.closed + (if s.closed then 1 else 0),
                     filtered := s.n.filtered + (if !s.closed && cls !in c.banOn then 1 else 0))
      && (t in r.threads <==> !s.closed && cls in c.banOn)
  {
    assert Takes(c, states[n], acts[n], states[n + 1]);
    EnterOutcome(c, states[n], t, cls);
    i := ReceivedBy(c, acts, states, n, t);
  }

  lemma EnterOutcome(c: Config, s: State, t: nat, cls: Class)
    requires t in s.threads && s.threads[t].Waiting? && CountsAs(c.banOn, s.threads[t].ev, cls)
    ensures var r := DoEnter(c, s, t);
      && r.n == s.n.(closed := s.n.closed + (if s.closed then 1 else 0),
                     filtered := s.n.filtered + (if !s.closed && cls !in c.banOn then 1 else 0))
      && (t in r.threads <==> !s.closed && cls in c.banOn)
  {
  }

  lemma ReceivedBy(c: Config, acts: seq<Action>, states: seq<State>, n: nat, t: nat) returns (i: nat)
    requires IsTrace(c, acts, states) && n < |acts| && t in states[n].threads && states[n].threads[t].Waiting?
    ensures i < n && acts[i] == Receive(t, states[n].threads[t].ev) && acts[i].ev.bannable
  {
    TraceClassed(c, acts, states, n);
    assert ThreadOk(c, acts, n, states[n], t);
    i :| i < n && i < |acts| && acts[i] == Receive(t, states[n].threads[t].ev) && acts[i].ev.bannable;
  }

  /** An event is invalid if and only if its address cannot be banned; then no call goes on. */
  lemma ReceiveDecides(c: Config, acts: seq<Action>, states: seq<State>, n: nat, t: nat, ev: Event)
    requires IsTrace(c, acts, states) && n < |acts| && acts[n] == Receive(t, ev)
    ensures var s, r := states[n], states[n + 1];
      && r.n == s.n.(received := s.n.received + 1, invalid := s.n.invalid + (if ev.bannable then 0 else 1))
      && (t in r.threads <==> ev.bannable)
  {
    assert Takes(c, states[n], acts[n], states[n + 1]);
  }

  /** A call that asks the filter ends in cooldown if and only if an alert that passed earlier bars it. */
  lemma CooldownDecides(c: Config, acts: seq<Action>, states: seq<State>, n: nat, t: nat, now: Time, tableNow: Time)
    requires IsTrace(c, acts, states) && n < |acts| && acts[n] == Allow(t, now, tableNow)
    ensures var s, r := states[n], states[n + 1];
      var barred := c.cd.window != 0 && exists i: nat :: CdAnswers.Bars(r.cd, |s.cd.ops|, i);
      && r.n == s.n.(cooldown := s.n.cooldown + (if barred then 1 else 0))
      && (t in r.threads <==> !barred)
  {
    AllowAnswered(c, acts, states, n, t, now, tableNow);
    CdAnswers.RefusedIff(c.cd, states[n + 1].cd, |states[n].cd.ops|);
  }

  lemma AllowAnswered(c: Config, acts: seq<Action>, states: seq<State>, n: nat, t: nat, now: Time, tableNow: Time)
    requires IsTrace(c, acts, states) && n < |acts| && acts[n] == Allow(t, now, tableNow)
    ensures var s, r := states[n], states[n + 1];
      && CdRuns.IsRun(c.cd, r.cd) && |r.cd.ops| == |r.cd.outs| == |s.cd.ops| + 1 && r.cd.ops[|s.cd.ops|].Allow?
      && var ok := r.cd.outs[|s.cd.ops|].ok;
      && r.n == s.n.(cooldown := s.n.cooldown + (if ok then 0 else 1)) && (t in r.threads <==> ok)
  {
    Reachable(c, acts, states, n);
    Reachable(c, acts, states, n + 1);
    assert Takes(c, states[n], acts[n], states[n + 1]);
    AllowOutcome(c, states[n], t, now, tableNow);
  }

  lemma AllowOutcome(c: Config, s: State, t: nat, now: Time, tableNow: Time)
    requires Linked(s) && Enabled(c, s, Allow(t, now, tableNow)) && CdRuns.Shaped(s.cd)
    ensures var r := DoAllow(c, s, t, now, tableNow);
      && |r.cd.ops| == |r.cd.outs| == |s.cd.ops| + 1 && r.cd.ops[|s.cd.ops|].Allow?
      && var ok := r.cd.outs[|s.cd.ops|].ok;
      && r.n == s.n.(cooldown := s.n.cooldown + (if ok then 0 else 1)) && (t in r.threads <==> ok)
  {
  }

  /** A recorded alert is queued if and only if fewer than 256 wait; otherwise it is taken back and dropped. */
  lemma QueueDecides(c: Config, acts: seq<Action>, states: seq<State>, n: nat, t: nat)
    requires IsTrace(c, acts, states) && n < |acts| && acts[n] == Enqueue(t)
    ensures var s, r := states[n], states[n + 1];
      && t in s.threads && s.threads[t].Recorded?
      && r.n == s.n.(queued := s.n.queued + (if |s.ch| < 256 then 1 else 0))
      && (|s.ch| < 256 ==> r.ch == s.ch + [s.threads[t].msg] && t !in r.threads)
      && (|s.ch| >= 256 ==> r.ch == s.ch && t in r.threads && r.threads[t] == Full(s.threads[t].msg))
  {
    Reachable(c, acts, states, n);
    assert Takes(c, states[n], acts[n], states[n + 1]);
    assert HoldsLock(states[n].threads[t]);
  }
}
