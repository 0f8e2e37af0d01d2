/** The cooldown window of a reported alert, over every interleaving of the sink. */
module PipelineWindows {
  import opened Fifo
  import opened Severity
  import Cd = Cooldown
  import Off = Offenders
  import OffRuns = OffenderHistory
  import opened Pipeline
  import opened PipelineTrace
  import opened PipelineTheorems

  /** The table still has what it knew of the source: it was never lost, and is not silent for the reset period. */
  ghost predicate Known(c: Off.Settings, s: Off.State, ops: seq<Off.Op>, ip: string, now: Time) {
    && !OffRuns.LostBefore(c, ops, |ops|, ip)
    && (ip in s.entries ==> now < s.entries[ip].last + c.reset || now < s.entries[ip].shunUntil)
  }

  /** The window is the base cooldown, or the repeat cooldown if RepeatAfter alerts of the source and class stand,
      counting the next one; which of the two is settled for a source the table knows. */
  ghost predicate Earned(c: Config, r: OffRuns.Run, ip: string, cls: Class, now: Time, win: int)
    requires r.states != []
  {
    var stand := |OffRuns.Standing(r.ops, |r.ops|, ip, cls)| + 1 >= c.off.repeatAfter;
    if c.cd.window <= 0 || c.off.repeat <= 0 then win == c.cd.window
    else
      && (win == c.cd.window || (win == c.off.repeat && stand))
      && (Known(c.off, OffRuns.Last(r), r.ops, ip, now) ==> win == if stand then c.off.repeat else c.cd.window)
  }

  lemma WindowEarned(c: Config, s: State, ip: string, cls: Class, now: Time)
    requires Inv(c, s) && cls != NoClass && s.off.states != []
    ensures Earned(c, s.off, ip, cls, now, Off.WindowFor(c.off, OffRuns.Last(s.off), Some(ip), cls, c.cd.window, now))
  {
    RecordsUndoneOnce(c, s);
    OffRuns.RunIsAt(c.off, s.off, |s.off.ops|);
    OffRuns.RepeatNeedsStanding(c.off, s.off.ops, |s.off.ops|, ip, cls, c.cd.window, now);
  }

  lemma AllowAsks(c: Config, s: State, t: nat, now: Time, tableNow: Time)
    requires Linked(s) && t in s.threads && s.threads[t].Entered?
    ensures var ev := s.threads[t].ev;
      var win := Off.WindowFor(c.off, OffRuns.Last(s.off), Some(ev.ip), ev.cls, c.cd.window, tableNow);
      DoAllow(c, s, t, now, tableNow).cd.ops == s.cd.ops + [Cd.Allow(ev.ip, ev.cls, win, now)]
  {
  }

  /** A call asks the filter for its source and class with the window that is earned. */
  lemma WindowDecides(c: Config, acts: seq<Action>, states: seq<State>, n: nat, t: nat, now: Time, tableNow: Time) returns (win: int)
    requires IsTrace(c, acts, states) && n < |acts| && acts[n] == Allow(t, now, tableNow)
    ensures var s, r := states[n], states[n + 1];
      && t in s.threads && s.threads[t].Entered? && s.off.states != []
      && var ev := s.threads[t].ev;
        && r.cd.ops == s.cd.ops + [Cd.Allow(ev.ip, ev.cls, win, now)]
        && (ev.cls != NoClass ==> Earned(c, s.off, ev.ip, ev.cls, tableNow, win))
  {
    var s := states[n];
    Reachable(c, acts, states, n);
    assert Takes(c, s, acts[n], states[n + 1]);
    var ev := s.threads[t].ev;
    win := Off.WindowFor(c.off, OffRuns.Last(s.off), Some(ev.ip), ev.cls, c.cd.window, tableNow);
    AllowAsks(c, s, t, now, tableNow);
    if ev.cls != NoClass {
      WindowEarned(c, s, ev.ip, ev.cls, tableNow);
    }
  }
}
