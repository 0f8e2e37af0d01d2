/** The probe log as the object the sensor owns: every method under one lock. */
module ProbeLogs {
  import opened Fifo
  import opened Probes

  class ProbeLog {
    const cfg: Config
    var entries: map<string, Entry>
    var order: seq<string>
    var closed: bool

    function Abs(): State
      reads this
    {
      State(entries, order, closed)
    }

    constructor (c: Config)
      ensures cfg == c && Abs() == EMPTY && Linked(Abs())
    {
      cfg := c;
      entries, order, closed := map[], [], false;
    }

    /** Writes the summary line of ip and removes it. */
    method EmitLine(ip: string, now: Time) returns (line: Summary)
      requires Linked(Abs()) && ip in entries
      modifies this
      ensures Abs() == Detach(old(Abs()), ip) && line == Line(cfg, old(Abs()), ip, now)
    {
      var e := entries[ip];
      entries := entries - {ip};
      order := Remove(order, ip);
      var elapsed := now - e.start;
      if elapsed > cfg.window {
        elapsed := cfg.window;
      }
      line := Summary(ip, e, elapsed);
    }

    method WriteOwn(ip: string, now: Time) returns (lines: seq<Summary>)
      requires Linked(Abs())
      modifies this
      ensures Result(Abs(), lines, false) == Own(cfg, old(Abs()), ip, now)
    {
      lines := [];
      if ip in entries && now - entries[ip].start >= cfg.window {
        var line := EmitLine(ip, now);
        lines := [line];
      }
    }

    method WriteOldest(ip: string, now: Time) returns (lines: seq<Summary>)
      requires Linked(Abs())
      modifies this
      ensures Result(Abs(), lines, false) == Oldest(cfg, old(Abs()), ip, now)
    {
      lines := [];
      if ip !in entries && |entries| >= cfg.maxEntries && order != [] {
        var line := EmitLine(order[0], now);
        lines := [line];
      }
    }

    method AddSession(ip: string, proto: string, now: Time)
      requires Linked(Abs())
      modifies this
      ensures Abs() == Add(old(Abs()), ip, proto, now)
    {
      if ip !in entries {
        order := order + [ip];
        entries := entries[ip := Entry(now, 0, map[])];
      }
      var e := entries[ip];
      var n := if proto in e.protos then e.protos[proto] else 0;
      entries := entries[ip := Entry(e.start, e.sessions + 1, e.protos[proto := n + 1])];
    }

    /** Adds one probe session; false when the log is closed. */
    method RecordSession(ip: string, proto: string, now: Time) returns (recorded: bool, lines: seq<Summary>)
      requires Linked(Abs())
      modifies this
      ensures Linked(Abs()) && Result(Abs(), lines, recorded) == Step(cfg, old(Abs()), Record(ip, proto, now))
    {
      if closed {
        return false, [];
      }
      OutgoingInTwo(cfg, Abs(), ip, now);
      lines := WriteOwn(ip, now);
      var more := WriteOldest(ip, now);
      lines := lines + more;
      AddSession(ip, proto, now);
      recorded := true;
    }

    /** Writes out from the front while the oldest window has elapsed, or until nothing is left. */
    method FlushFront(all: bool, now: Time) returns (lines: seq<Summary>)
      requires Linked(Abs())
      modifies this
      ensures Linked(Abs()) && Result(Abs(), lines, false) == Flush(cfg, old(Abs()), all, now)
    {
      lines := [];
      while order != [] && (all || now - entries[order[0]].start >= cfg.window)
        invariant Linked(Abs())
        invariant var f := Flush(cfg, Abs(), all, now);
          Result(f.state, lines + f.lines, false) == Flush(cfg, old(Abs()), all, now)
        decreases |order|
      {
        ghost var s, done := Abs(), lines;
        FlushUnfolds(cfg, s, all, now);
        var line := EmitLine(order[0], now);
        lines := lines + [line];
        assert lines + Flush(cfg, Abs(), all, now).lines == done + ([line] + Flush(cfg, Abs(), all, now).lines);
      }
      assert lines + [] == lines;
    }

    method WriteDue(now: Time) returns (lines: seq<Summary>)
      requires Linked(Abs())
      modifies this
      ensures Linked(Abs()) && Result(Abs(), lines, false) == Step(cfg, old(Abs()), FlushDue(now))
    {
      lines := FlushFront(false, now);
    }

    /** Rejects further sessions; the flush that follows takes the lock again. */
    method CloseLog(now: Time)
      requires Linked(Abs())
      modifies this
      ensures Linked(Abs()) && Abs() == Step(cfg, old(Abs()), Close(now)).state
    {
      closed := true;
    }

    method WriteAll(now: Time) returns (lines: seq<Summary>)
      requires Linked(Abs())
      modifies this
      ensures Linked(Abs()) && Result(Abs(), lines, false) == Step(cfg, old(Abs()), FlushAll(now))
    {
      lines := FlushFront(true, now);
    }
  }

  /** What a new session writes out first: its own elapsed window. */
  ghost function Own(c: Config, s: State, ip: string, now: Time): (r: Result)
    requires Linked(s)
    ensures Linked(r.state)
  {
    if ip in s.entries && Due(c, s.entries[ip], now) then Result(Detach(s, ip), [Line(c, s, ip, now)], false)
    else Result(s, [], false)
  }

  /** Then the oldest entry, when a new one finds the log full. */
  ghost function Oldest(c: Config, s: State, ip: string, now: Time): (r: Result)
    requires Linked(s)
    ensures Linked(r.state)
  {
    if ip !in s.entries && |s.entries| >= c.maxEntries && s.order != [] then
      Result(Detach(s, s.order[0]), [Line(c, s, s.order[0], now)], false)
    else Result(s, [], false)
  }

  lemma EmitOne(c: Config, s: State, ip: string, now: Time)
    requires Linked(s) && ip in s.entries
    ensures Emit(c, s, [ip], now) == Result(Detach(s, ip), [Line(c, s, ip, now)], false)
  {
    var ips := [ip];
    assert ips[1..] == [];
  }

  lemma EmitTwo(c: Config, s: State, a: string, b: string, now: Time)
    requires Linked(s) && a in s.entries && b in s.entries && a != b
    ensures var t := Detach(s, a);
      Emit(c, s, [a, b], now) == Result(Detach(t, b), [Line(c, s, a, now), Line(c, t, b, now)], false)
  {
    var ips := [a, b];
    assert ips[1..] == [b];
    EmitOne(c, Detach(s, a), b, now);
  }

  lemma OutgoingInTwo(c: Config, s: State, ip: string, now: Time)
    requires Linked(s)
    ensures NoDup(Outgoing(c, s, ip, now)) && forall k :: k in Outgoing(c, s, ip, now) ==> k in s.entries
    ensures var own := Own(c, s, ip, now);
      var oldest := Oldest(c, own.state, ip, now);
      Emit(c, s, Outgoing(c, s, ip, now), now) == Result(oldest.state, own.lines + oldest.lines, false)
  {
    OutgoingFits(c, s, ip, now);
    var t := Own(c, s, ip, now).state;
    var full := ip !in t.entries && |t.entries| >= c.maxEntries && t.order != [];
    if ip in s.entries && Due(c, s.entries[ip], now) {
      if full {
        EmitTwo(c, s, ip, t.order[0], now);
        assert Outgoing(c, s, ip, now) == [ip, t.order[0]];
      } else {
        EmitOne(c, s, ip, now);
        assert Outgoing(c, s, ip, now) == [ip];
      }
    } else if full {
      EmitOne(c, s, s.order[0], now);
      assert Outgoing(c, s, ip, now) == [s.order[0]];
    }
  }

  /** The keys due after the first one was removed are those that follow it. */
  lemma {:induction false} DueKeysFrame(c: Config, a: map<string, Entry>, b: map<string, Entry>, order: seq<string>, all: bool, now: Time)
    requires forall k :: k in order ==> k in a && k in b && a[k] == b[k]
    ensures DueKeys(c, a, order, all, now) == DueKeys(c, b, order, all, now)
  {
    if order != [] && (all || Due(c, a[order[0]], now)) {
      DueKeysFrame(c, a, b, order[1..], all, now);
    }
  }

  lemma FlushUnfolds(c: Config, s: State, all: bool, now: Time)
    requires Linked(s) && s.order != [] && (all || Due(c, s.entries[s.order[0]], now))
    ensures var t := Flush(c, Detach(s, s.order[0]), all, now);
      Flush(c, s, all, now) == Result(t.state, [Line(c, s, s.order[0], now)] + t.lines, false)
  {
    var ip := s.order[0];
    var d := Detach(s, ip);
    assert d.order == s.order[1..];
    DueKeysFrame(c, s.entries, d.entries, d.order, all, now);
    assert DueKeys(c, s.entries, s.order, all, now) == [ip] + DueKeys(c, d.entries, d.order, all, now);
    assert ([ip] + DueKeys(c, d.entries, d.order, all, now))[1..] == DueKeys(c, d.entries, d.order, all, now);
  }
}
