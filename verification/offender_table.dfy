/** The offender table as the object the sink owns: every method under one lock. */
module OffenderTables {
  import opened Fifo
  import opened Severity
  import opened Offenders
  import opened OffenderRuns

  class OffenderTable {
    const cfg: Settings
    var entries: map<Ip, Offender>
    var order: seq<Ip>
    var active: set<Ip>
    var nextWin: nat

    function Abs(): State
      reads this
    {
      State(entries, order, active, nextWin)
    }

    ghost predicate Consistent()
      reads this
    {
      Valid(cfg, Abs())
    }

    constructor (raw: Config)
      ensures cfg == Configure(raw) && Abs() == EMPTY && Consistent()
    {
      cfg := Configure(raw);
      entries, order, active, nextWin := map[], [], {}, 0;
    }

    /** The cooldown of the next alert for key and class; changes nothing. */
    method NextWindow(key: Option<Ip>, cls: Class, base: int, now: Time) returns (window: int)
      ensures window == WindowFor(cfg, Abs(), key, cls, base, now)
    {
      if base <= 0 || cfg.repeat <= 0 || key == None || cls == NoClass {
        return base;
      }
      var count := 0;
      if key.value in entries && !Expired(cfg, entries[key.value], now) {
        count := entries[key.value].counts[ClassIndex(cls)];
      }
      return if count + 1 >= cfg.repeatAfter then cfg.repeat else base;
    }

    method EndWindow(ip: Ip, now: Time, sums: map<Ip, Summary>) returns (out: map<Ip, Summary>)
      requires Linked(Abs()) && ip in entries
      modifies this`entries, this`active
      ensures Abs() == Update(old(Abs()), ip, Closed(old(entries)[ip]))
      ensures out == sums + Summaries(old(entries), {ip}, now)
    {
      var e := entries[ip];
      out := sums;
      if e.suppressed > 0 {
        out := out[ip := SummaryOf(e, now)];
      }
      entries := entries[ip := Closed(e)];
      active := active - {ip};
    }

    method RemoveEntry(ip: Ip, now: Time, sums: map<Ip, Summary>) returns (out: map<Ip, Summary>)
      requires Linked(Abs()) && ip in entries && Tidy(entries[ip], nextWin)
      modifies this`entries, this`active, this`order
      ensures Abs() == Drop(old(Abs()), ip, now).state
      ensures out == sums + Drop(old(Abs()), ip, now).sums
    {
      out := sums;
      if entries[ip].active {
        out := EndWindow(ip, now, sums);
      }
      entries := entries - {ip};
      order := Fifo.Remove(order, ip);
    }

    method SweepOldest(now: Time, sums: map<Ip, Summary>) returns (out: map<Ip, Summary>)
      requires Sound(cfg, Abs())
      modifies this`entries, this`active, this`order
      ensures Abs() == SweepFront(cfg, old(Abs()), now).state && Sound(cfg, Abs())
      ensures out == sums + SweepFront(cfg, old(Abs()), now).sums
    {
      out := sums;
      ghost var done := Outcome(Abs(), map[], {});
      ghost var all := SweepFront(cfg, Abs(), now);
      ThenUnits(all);
      MergeNothing(sums);
      while order != [] && Expired(cfg, entries[order[0]], now)
        invariant Sound(cfg, Abs()) && Then(done, SweepFront(cfg, Abs(), now)) == all
        invariant out == sums + done.sums
        decreases |order|
      {
        SweepOne(cfg, Abs(), now, done, all);
        ghost var d := Drop(Abs(), order[0], now);
        out := RemoveEntry(order[0], now, out);
        MergeAssociates(sums, done.sums, d.sums);
        done := Then(done, d);
      }
      ThenUnits(done);
    }

    /** The oldest of the first EVICT_SCAN sources without an open window, or the oldest. */
    method PickVictim() returns (ip: Ip)
      requires Linked(Abs()) && order != []
      ensures ip == Victim(Abs())
    {
      var v := 0;
      if |active| < |entries| {
        var n := 0;
        while n < |order| && n < EVICT_SCAN && entries[order[n]].active
          invariant n <= |order|
          invariant VictimIndex(Abs(), 0) == VictimIndex(Abs(), n)
        {
          n := n + 1;
        }
        if n < |order| && n < EVICT_SCAN {
          v := n;
        }
      }
      ip := order[v];
    }

    method FreeSlot(now: Time, sums: map<Ip, Summary>) returns (out: map<Ip, Summary>)
      requires Sound(cfg, Abs())
      modifies this`entries, this`active, this`order
      ensures Abs() == MakeRoom(cfg, old(Abs()), now).state
      ensures out == sums + MakeRoom(cfg, old(Abs()), now).sums
    {
      out := SweepOldest(now, sums);
      if |entries| < cfg.max || order == [] {
        return;
      }
      ghost var swept := SweepFront(cfg, old(Abs()), now);
      var victim := PickVictim();
      ghost var d := Drop(Abs(), victim, now);
      out := RemoveEntry(victim, now, out);
      MergeAssociates(sums, swept.sums, d.sums);
    }

    /** Drops the silent entry of key, and frees a slot if key is not in a full table. */
    method MakeReady(key: Ip, now: Time) returns (out: map<Ip, Summary>)
      requires Consistent()
      modifies this`entries, this`active, this`order
      ensures Abs() == Prepare(cfg, old(Abs()), key, now).state && Consistent()
      ensures out == Prepare(cfg, old(Abs()), key, now).sums
    {
      ghost var own := DropSilent(cfg, Abs(), key, now);
      PrepareDrops(cfg, Abs(), key, now);
      DropSilentDrops(cfg, Abs(), key, now);
      out := map[];
      if key in entries && Expired(cfg, entries[key], now) {
        out := RemoveEntry(key, now, out);
        MergeNothing(own.sums);
      }
      if key !in entries && |entries| >= cfg.max {
        out := FreeSlot(now, out);
      }
    }

    /** Records an alert that passed the cooldown. */
    method Accepted(key: Option<Ip>, cls: Class, window: int, now: Time) returns (mark: Mark, sums: map<Ip, Summary>)
      requires Consistent() && Before(Abs(), now)
      modifies this
      ensures var r := Step(cfg, old(Abs()), Accept(key, cls, window, now));
        Abs() == r.state && mark == r.out.mark && sums == r.out.sums
      ensures Consistent() && Before(Abs(), now)
    {
      StepValid(cfg, Abs(), Accept(key, cls, window, now));
      if key == None || cls == NoClass {
        return NO_MARK, map[];
      }
      ghost var p := Prepare(cfg, Abs(), key.value, now);
      sums := MakeReady(key.value, now);
      var win;
      win, sums := RecordAlert(key.value, cls, window, now, sums, p);
      mark := Mark(true, key.value, ClassIndex(cls), win);
    }

    /** Counts the alert in an entry and opens or extends its shun window. */
    method ArmEntry(e0: Offender, cls: Class, window: int, now: Time) returns (e: Offender, win: nat, ended: bool)
      requires cls != NoClass
      modifies this`nextWin
      ensures var a := Arm(cfg, e0, cls, window, now, old(nextWin));
        e == a.e && win == a.win && ended == a.ended && nextWin == a.nextWin
    {
      var idx := ClassIndex(cls);
      e, win, ended := e0.(counts := e0.counts[idx := e0.counts[idx] + 1], last := now), 0, false;
      if cfg.shun && cls != Probe && window > 0 {
        var until := now + window;
        if e.active && now < e.shunUntil {
          if until > e.shunUntil {
            nextWin := nextWin + 1;
            e := e.(shunUntil := until, winID := nextWin);
          }
        } else {
          ended := e.active;
          nextWin := nextWin + 1;
          win := nextWin;
          e := Closed(e).(winID := nextWin, shunStart := now, shunUntil := until, active := true);
        }
      }
    }

    method RecordAlert(key: Ip, cls: Class, window: int, now: Time, sums: map<Ip, Summary>, ghost p: Outcome)
      returns (win: nat, out: map<Ip, Summary>)
      requires Linked(Abs()) && cls != NoClass && p.state == Abs() && p.sums == sums
      modifies this
      ensures var r := Record(cfg, p, Accept(Some(key), cls, window, now));
        Abs() == r.state && win == r.out.mark.win && out == r.out.sums
    {
      var e, ended := FRESH, false;
      if key in entries {
        e := entries[key];
        order := Fifo.Remove(order, key) + [key];
      } else {
        order := order + [key];
      }
      e, win, ended := ArmEntry(e, cls, window, now);
      out := sums;
      if ended {
        SummaryMerges(sums, entries, key, now);
        if entries[key].suppressed > 0 {
          out := out[key := SummaryOf(entries[key], now)];
        }
      }
      entries := entries[key := e];
      active := if e.active then active + {key} else active - {key};
      MergeNothing(sums);
      PutParts(p.state, key, e, nextWin);
    }

    /** Takes back the alert of mark after a failed push. */
    method RevertMark(mark: Mark, ghost of: nat, now: Time) returns (sums: map<Ip, Summary>)
      requires Consistent() && Before(Abs(), now)
      modifies this
      ensures var r := Step(cfg, old(Abs()), Revert(mark, of, now)); Abs() == r.state && sums == r.out.sums
      ensures Consistent() && Before(Abs(), now)
    {
      StepValid(cfg, Abs(), Revert(mark, of, now));
      sums := map[];
      if mark.ok && mark.idx < 3 && mark.key in entries {
        sums := Disarmed(mark, now);
        if !entries[mark.key].active && entries[mark.key].counts == [0, 0, 0] {
          entries := entries - {mark.key};
          order := Fifo.Remove(order, mark.key);
        }
      }
    }

    /** Takes one alert off the count and ends the window if the alert opened it. */
    method Disarmed(mark: Mark, now: Time) returns (sums: map<Ip, Summary>)
      requires Linked(Abs()) && mark.idx < 3 && mark.key in entries
      modifies this`entries, this`active
      ensures var e := Disarm(old(entries)[mark.key], mark);
        && Abs() == Update(old(Abs()), mark.key, e)
        && sums == if old(entries)[mark.key].active && !e.active then Summaries(old(entries), {mark.key}, now) else map[]
    {
      ghost var s0 := Abs();
      var e := entries[mark.key];
      UpdateSame(s0, mark.key);
      sums := map[];
      if e.counts[mark.idx] > 0 {
        entries := entries[mark.key := e.(counts := e.counts[mark.idx := e.counts[mark.idx] - 1])];
      }
      assert Abs() == Update(s0, mark.key, entries[mark.key]);
      SummariesSame(entries, s0.entries, mark.key, now);
      if mark.win != 0 && e.active && e.winID == mark.win {
        sums := EndWindow(mark.key, now, sums);
        MergeNothing(Summaries(s0.entries, {mark.key}, now));
      }
    }

    /** Whether new connections from key are refused right now; a window that is over is closed. */
    method IsShunned(key: Option<Ip>, now: Time) returns (refused: bool, sums: map<Ip, Summary>)
      requires Consistent() && Before(Abs(), now)
      modifies this
      ensures var r := Step(cfg, old(Abs()), Op.Shunned(key, now));
        Abs() == r.state && refused == r.out.refused && sums == r.out.sums
      ensures Consistent() && Before(Abs(), now)
    {
      StepValid(cfg, Abs(), Op.Shunned(key, now));
      refused, sums := false, map[];
      assert key.Some? && key.value in entries && entries[key.value].active ==> key.value in active;
      if !cfg.shun || active == {} || key == None || key.value !in entries || !entries[key.value].active {
        return;
      }
      if now < entries[key.value].shunUntil {
        return true, map[];
      }
      sums := EndWindow(key.value, now, sums);
    }

    /** Counts one refused connection. */
    method Rejected(key: Option<Ip>, proto: string, now: Time)
      requires Consistent() && Before(Abs(), now)
      modifies this
      ensures Abs() == Step(cfg, old(Abs()), Reject(key, proto, now)).state
      ensures Consistent() && Before(Abs(), now)
    {
      StepValid(cfg, Abs(), Reject(key, proto, now));
      if key == None || key.value !in entries || !entries[key.value].active {
        return;
      }
      var e := entries[key.value];
      e := e.(suppressed := e.suppressed + 1);
      if proto !in e.protos && |e.protos| < MAX_SHUN_PROTOCOLS {
        e := e.(protos := e.protos + {proto});
      }
      assert proto in e.protos ==> e.protos + {proto} == e.protos;
      assert active + {key.value} == active;
      entries := entries[key.value := e];
    }

    /** Closes the windows that are over, in any order. */
    method CloseWindows(now: Time) returns (sums: map<Ip, Summary>)
      requires Linked(Abs())
      modifies this`entries, this`active
      ensures Abs() == CloseEnded(old(Abs()), now)
      ensures sums == Summaries(old(entries), EndedAmong(old(Abs()), old(active), now), now)
    {
      sums := map[];
      var todo := active;
      ghost var s0, done: set<Ip> := Abs(), {};
      CloseNone(s0, now);
      while todo != {}
        invariant todo + done == s0.active && todo !! done
        invariant Linked(Abs()) && Abs() == ClosedAmong(s0, done, now)
        invariant sums == Summaries(s0.entries, EndedAmong(s0, done, now), now)
      {
        var ip :| ip in todo;
        CloseOne(s0, done, ip, now);
        if now >= entries[ip].shunUntil {
          sums := EndWindow(ip, now, sums);
        }
        todo, done := todo - {ip}, done + {ip};
      }
      CloseAll(s0, now);
    }

    /** Closes the windows that are over and drops silent sources from the front. */
    method SweepAll(now: Time) returns (sums: map<Ip, Summary>)
      requires Consistent() && Before(Abs(), now)
      modifies this
      ensures var r := Step(cfg, old(Abs()), Op.Sweep(now)); Abs() == r.state && sums == r.out.sums
      ensures Consistent() && Before(Abs(), now)
    {
      StepValid(cfg, Abs(), Op.Sweep(now));
      CloseEndedValid(cfg, Abs(), now);
      sums := CloseWindows(now);
      sums := SweepOldest(now, sums);
    }

    method FlushWindows(now: Time) returns (sums: map<Ip, Summary>)
      requires Linked(Abs())
      modifies this`entries, this`active
      ensures Abs() == old(Abs()).(entries := FlushedAmong(old(entries), old(active), now))
      ensures sums == Summaries(old(entries), old(active), now)
    {
      sums := map[];
      var todo := active;
      ghost var s0, done: set<Ip> := Abs(), {};
      assert FlushedAmong(s0.entries, done, now) == s0.entries;
      while todo != {}
        invariant todo + done == s0.active && todo !! done
        invariant Linked(Abs()) && Abs() == s0.(entries := FlushedAmong(s0.entries, done, now))
        invariant sums == Summaries(s0.entries, done, now)
      {
        var ip :| ip in todo;
        FlushOne(s0, done, ip, now);
        if entries[ip].suppressed > 0 {
          sums := FlushWindow(ip, now, sums);
        }
        todo, done := todo - {ip}, done + {ip};
      }
      assert done == s0.active;
    }

    /** Writes the summary of one window and resets its counters but keeps it open. */
    method FlushWindow(ip: Ip, now: Time, sums: map<Ip, Summary>) returns (out: map<Ip, Summary>)
      requires Linked(Abs()) && ip in active && ip in entries
      modifies this`entries, this`active
      ensures entries == old(entries)[ip := old(entries)[ip].(suppressed := 0, protos := {}, shunStart := now)]
      ensures active == old(active) && Linked(Abs())
      ensures out == sums + Summaries(old(entries), {ip}, now)
    {
      var until := entries[ip].shunUntil;
      out := EndWindow(ip, now, sums);
      entries := entries[ip := entries[ip].(shunStart := now, shunUntil := until, active := true)];
      active := active + {ip};
      assert active == old(active);
    }

    /** Writes the summary of every open window and keeps the windows. */
    method FlushAll(now: Time) returns (sums: map<Ip, Summary>)
      requires Consistent() && Before(Abs(), now)
      modifies this
      ensures var r := Step(cfg, old(Abs()), Op.Flush(now)); Abs() == r.state && sums == r.out.sums
      ensures Consistent() && Before(Abs(), now)
    {
      StepValid(cfg, Abs(), Op.Flush(now));
      FlushAllDone(Abs(), now);
      sums := FlushWindows(now);
    }
  }

  ghost function EndedAmong(s: State, done: set<Ip>, now: Time): set<Ip> {
    set ip | ip in done && Ended(s, ip, now)
  }

  ghost function ClosedAmong(s: State, done: set<Ip>, now: Time): State {
    s.(entries := map ip | ip in s.entries ::
         if ip in EndedAmong(s, done, now) then Closed(s.entries[ip]) else s.entries[ip],
       active := s.active - EndedAmong(s, done, now))
  }

  ghost function FlushedAmong(entries: map<Ip, Offender>, done: set<Ip>, now: Time): map<Ip, Offender> {
    map ip | ip in entries ::
      if ip in done && entries[ip].suppressed > 0
      then entries[ip].(suppressed := 0, protos := {}, shunStart := now) else entries[ip]
  }

  lemma CloseNone(s: State, now: Time)
    ensures ClosedAmong(s, {}, now) == s && EndedAmong(s, {}, now) == {}
  {
  }

  lemma CloseAll(s: State, now: Time)
    requires Linked(s)
    ensures ClosedAmong(s, s.active, now) == CloseEnded(s, now)
  {
    assert forall ip :: ip in s.entries && s.entries[ip].active ==> ip in s.active;
  }

  lemma CloseOne(s: State, done: set<Ip>, ip: Ip, now: Time)
    requires Linked(s) && ip in s.active && ip !in done && done <= s.active && Linked(ClosedAmong(s, done, now))
    ensures ip in s.entries && ClosedAmong(s, done, now).entries[ip] == s.entries[ip]
    ensures ClosedAmong(s, done + {ip}, now) ==
            if Ended(s, ip, now) then Update(ClosedAmong(s, done, now), ip, Closed(s.entries[ip]))
            else ClosedAmong(s, done, now)
    ensures Summaries(s.entries, EndedAmong(s, done + {ip}, now), now) ==
            if Ended(s, ip, now)
            then Summaries(s.entries, EndedAmong(s, done, now), now) + Summaries(ClosedAmong(s, done, now).entries, {ip}, now)
            else Summaries(s.entries, EndedAmong(s, done, now), now)
  {
    assert EndedAmong(s, done + {ip}, now) ==
           if Ended(s, ip, now) then EndedAmong(s, done, now) + {ip} else EndedAmong(s, done, now);
  }

  lemma FlushOne(s: State, done: set<Ip>, ip: Ip, now: Time)
    requires Linked(s) && ip in s.active && ip !in done && done <= s.active
    ensures var e := FlushedAmong(s.entries, done, now);
      && ip in s.entries && e[ip] == s.entries[ip]
      && FlushedAmong(s.entries, done + {ip}, now) ==
         (if e[ip].suppressed > 0 then e[ip := e[ip].(suppressed := 0, protos := {}, shunStart := now)] else e)
      && Summaries(s.entries, done + {ip}, now) == Summaries(s.entries, done, now) + Summaries(e, {ip}, now)
  {
  }

  lemma FlushAllDone(s: State, now: Time)
    requires Linked(s)
    ensures DoFlush(s, Op.Flush(now)).state.entries == FlushedAmong(s.entries, s.active, now)
  {
    assert forall ip :: ip in s.entries && s.entries[ip].active ==> ip in s.active;
  }

  lemma UpdateSame(s: State, ip: Ip)
    requires Linked(s) && ip in s.entries
    ensures Update(s, ip, s.entries[ip]) == s
  {
    assert s.entries[ip].active ==> ip in s.active;
  }

  lemma SummariesSame(a: map<Ip, Offender>, b: map<Ip, Offender>, ip: Ip, now: Time)
    requires ip in a && ip in b && a[ip] == b[ip].(counts := a[ip].counts)
    ensures Summaries(a, {ip}, now) == Summaries(b, {ip}, now)
  {
  }

  lemma SummaryMerges(sums: map<Ip, Summary>, entries: map<Ip, Offender>, ip: Ip, now: Time)
    requires ip in entries
    ensures sums + Summaries(entries, {ip}, now)
         == if entries[ip].suppressed > 0 then sums[ip := SummaryOf(entries[ip], now)] else sums
  {
  }

  lemma PutParts(s: State, key: Ip, e: Offender, nextWin: nat)
    requires Linked(s)
    ensures Put(s, key, e, nextWin) ==
            State(s.entries[key := e],
                  (if key in s.entries then Fifo.Remove(s.order, key) else s.order) + [key],
                  if e.active then s.active + {key} else s.active - {key}, nextWin)
  {
    PutEntries(s, key, e, nextWin);
  }

  lemma MergeAssociates<K, V>(a: map<K, V>, b: map<K, V>, c: map<K, V>)
    ensures (a + b) + c == a + (b + c)
  {
  }

  lemma MergeNothing<K, V>(a: map<K, V>)
    ensures a + map[] == a && map[] + a == a
  {
  }

  lemma ThenUnits(r: Outcome)
    ensures forall s :: Then(Outcome(s, map[], {}), r) == r
    ensures Then(r, Outcome(r.state, map[], {})) == r
    ensures r.sums + map[] == r.sums
  {
    MergeNothing(r.sums);
    assert {} + r.lost == r.lost && r.lost + {} == r.lost;
  }

  lemma ThenAssociates(a: Outcome, b: Outcome, c: Outcome)
    ensures Then(Then(a, b), c) == Then(a, Then(b, c))
  {
    MergeAssociates(a.sums, b.sums, c.sums);
  }

  lemma SweepOne(c: Settings, s: State, now: Time, done: Outcome, all: Outcome)
    requires Sound(c, s) && Then(done, SweepFront(c, s, now)) == all
    requires s.order != [] && Expired(c, s.entries[s.order[0]], now)
    ensures var d := Drop(s, s.order[0], now);
      Sound(c, d.state) && |d.state.order| < |s.order| && Then(Then(done, d), SweepFront(c, d.state, now)) == all
  {
    var d := Drop(s, s.order[0], now);
    DropSound(c, s, s.order[0], now);
    ThenAssociates(done, d, SweepFront(c, d.state, now));
  }

  lemma DropSound(c: Settings, s: State, ip: Ip, now: Time)
    requires Sound(c, s) && ip in s.entries
    ensures Sound(c, Drop(s, ip, now).state)
  {
    DropShrinks(s, ip, now);
  }
}
