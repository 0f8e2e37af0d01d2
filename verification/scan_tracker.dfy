/** The scan tracker as the object the sensor owns: every method under one lock. */
module ScanTrackers {
  import opened Fifo
  import opened Scans
  import opened ScanRuns

  class ScanTracker {
    const cfg: Config
    var entries: map<string, Entry>
    var order: seq<string>

    function Abs(): State
      reads this
    {
      State(entries, order)
    }

    constructor (c: Config)
      ensures cfg == c && Abs() == EMPTY && Valid(cfg, Abs())
    {
      cfg := c;
      entries, order := map[], [];
    }

    method RemoveEntry(ip: string)
      requires Linked(Abs()) && ip in entries
      modifies this
      ensures Abs() == Detach(old(Abs()), ip)
    {
      entries := entries - {ip};
      order := Remove(order, ip);
    }

    method SweepOldest(now: Time)
      requires Linked(Abs())
      modifies this
      ensures Abs() == SweepFront(cfg, old(Abs()), now)
    {
      while order != [] && !Recent(cfg, entries[order[0]].last, now)
        invariant Linked(Abs()) && SweepFront(cfg, Abs(), now) == SweepFront(cfg, old(Abs()), now)
        decreases |order|
      {
        RemoveEntry(order[0]);
      }
    }

    /** Takes the entry of ip out, or makes room for a new one. */
    method TakeOut(ip: string, now: Time) returns (evicted: Option<string>)
      requires Linked(Abs())
      modifies this
      ensures Abs() == Ready(cfg, old(Abs()), ip, now) && evicted == Evictee(cfg, old(Abs()), ip, now)
    {
      evicted := None;
      if ip in entries {
        RemoveEntry(ip);
      } else if |entries| >= cfg.maxEntries {
        SweepOldest(now);
        if |entries| >= cfg.maxEntries && order != [] {
          evicted := Some(order[0]);
          RemoveEntry(order[0]);
        }
      }
    }

    /** Records a touch and tells whether the source is a scanner. */
    method TouchPort(ip: string, proto: string, port: int, now: Time) returns (scanner: bool, evicted: Option<string>, skipped: bool)
      requires Valid(cfg, Abs())
      modifies this
      ensures var r := Step(cfg, old(Abs()), Touch(ip, proto, port, now));
        Abs() == r.state && Out(scanner, evicted, skipped) == r.out
      ensures Valid(cfg, Abs())
    {
      StepValid(cfg, Abs(), Touch(ip, proto, port, now));
      var e := FRESH;
      if ip in entries {
        e := entries[ip];
      }
      ghost var e0 := e;
      evicted := TakeOut(ip, now);
      var touched := DropExpired(cfg, e.touched[proto := now], now);
      var ports := DropExpired(cfg, e.ports, now);
      skipped := port > 0 && port !in ports && |ports| >= MAX_SCAN_PORTS;
      if port > 0 && (port in ports || |ports| < MAX_SCAN_PORTS) {
        ports := ports[port := now];
      }
      e := Entry(now, touched, ports);
      assert e == Touched(cfg, e0, proto, port, now);
      entries := entries[ip := e];
      order := order + [ip];
      scanner := |touched| >= cfg.threshold || |ports| >= SCAN_PORTS;
    }

    method CleanUp(now: Time)
      requires Valid(cfg, Abs())
      modifies this
      ensures Abs() == Step(cfg, old(Abs()), Cleanup(now)).state && Valid(cfg, Abs())
    {
      StepValid(cfg, Abs(), Cleanup(now));
      SweepOldest(now);
    }
  }

  /** Deletes what fell out of the window, visiting the keys in any order. */
  method DropExpired<K>(c: Config, m: map<K, Time>, now: Time) returns (r: map<K, Time>)
    ensures r == Unexpired(c, m, now)
  {
    r := m;
    var todo := m.Keys;
    while todo != {}
      invariant todo <= m.Keys
      invariant forall k :: k in r <==> k in m && (k in todo || Recent(c, m[k], now))
      invariant forall k :: k in r ==> r[k] == m[k]
    {
      var k :| k in todo;
      if !Recent(c, r[k], now) {
        r := r - {k};
      }
      todo := todo - {k};
    }
    assert forall k :: k in r <==> k in Unexpired(c, m, now);
  }
}
