/** The cooldown filter as the object the sink owns: every method under one lock. */
module CooldownFilters {
  import opened Fifo
  import opened Severity
  import opened Cooldown
  import opened CooldownRuns
  import Offenders
  import opened OffenderTables

  class CooldownFilter {
    const cfg: Config
    var seen: map<string, Entry>
    var order: seq<string>
    var nextSlot: nat

    function Abs(): State
      reads this
    {
      State(seen, order, nextSlot)
    }

    ghost predicate Consistent()
      reads this
    {
      Valid(cfg, Abs())
    }

    constructor (window: int, maxEntries: int)
      ensures cfg == Config(window, maxEntries) && Abs() == EMPTY && Consistent()
    {
      cfg := Config(window, maxEntries);
      seen, order, nextSlot := map[], [], 0;
    }

    /** Whether the class or a higher one is in cooldown; walks the classes in rank order. */
    method IsSuppressed(ip: string, cls: Class, now: Time) returns (hit: bool)
      ensures hit == Suppressed(seen, ip, cls, now)
    {
      for i := 0 to |CLASSES|
        invariant forall j :: 0 <= j < i && Rank(CLASSES[j]) >= Rank(cls) ==> !Cooling(seen, ip, CLASSES[j], now)
      {
        if Rank(CLASSES[i]) >= Rank(cls) && Cooling(seen, ip, CLASSES[i], now) {
          return true;
        }
      }
      return false;
    }

    method RemoveKey(key: string)
      requires Linked(Abs()) && key in seen
      modifies this`seen, this`order
      ensures Abs() == Detach(old(Abs()), key)
    {
      seen := seen - {key};
      order := Remove(order, key);
    }

    method SweepOldest(now: Time)
      requires Linked(Abs())
      modifies this`seen, this`order
      ensures Abs() == SweepFront(old(Abs()), now)
    {
      while order != [] && !Live(seen[order[0]], now)
        invariant Linked(Abs()) && SweepFront(Abs(), now) == SweepFront(old(Abs()), now)
        decreases |order|
      {
        RemoveKey(order[0]);
      }
    }

    method FreeSlot(now: Time) returns (evicted: Option<Entry>)
      requires Linked(Abs())
      modifies this`seen, this`order
      ensures Abs() == MakeRoom(cfg, old(Abs()), now)
      ensures evicted == match Evictee(cfg, SweepFront(old(Abs()), now))
                         case None => None
                         case Some(k) => Some(SweepFront(old(Abs()), now).seen[k])
    {
      evicted := None;
      SweepOldest(now);
      if |seen| >= cfg.maxEntries && order != [] {
        evicted := Some(seen[order[0]]);
        RemoveKey(order[0]);
      }
    }

    /** Takes the slot of a source and class, or reports that the alert is suppressed. The window comes from
        the offender table, which reads its clock under its own lock. */
    method TryAllow(ip: string, ipKey: Option<Offenders.Ip>, cls: Class, now: Time, offenders: OffenderTable, tableNow: Time)
      returns (key: string, slot: nat, win: int, ok: bool, evicted: Option<Entry>)
      requires Consistent()
      modifies this
      ensures var w := Offenders.WindowFor(offenders.cfg, offenders.Abs(), ipKey, cls, cfg.window, tableNow);
        var r := Step(cfg, old(Abs()), Allow(ip, cls, w, now));
        Abs() == r.state && Out(ok, key, slot, win, evicted) == r.out
      ensures Consistent()
    {
      var w := offenders.NextWindow(ipKey, cls, cfg.window, tableNow);
      StepValid(cfg, Abs(), Allow(ip, cls, w, now));
      key, slot, win, ok, evicted := "", 0, 0, true, None;
      if cfg.window == 0 {
        return;
      }
      var hit := IsSuppressed(ip, cls, now);
      if hit {
        ok := false;
        return;
      }
      win, key := w, Key(ip, cls);
      slot, evicted := TakeSlot(key, win, now);
    }

    /** Takes the next slot for key at the back of the list. */
    method TakeSlot(key: string, win: int, now: Time) returns (slot: nat, evicted: Option<Entry>)
      requires Linked(Abs())
      modifies this
      ensures slot == old(nextSlot) + 1
      ensures Abs() == Append(Ready(cfg, old(Abs()), key, now), key, Entry(now, win, slot))
      ensures evicted == EvictedBy(cfg, old(Abs()), key, now)
    {
      slot, evicted := nextSlot + 1, None;
      if key in seen {
        RemoveKey(key);
      } else if |seen| >= cfg.maxEntries {
        evicted := FreeSlot(now);
      }
      assert Abs() == Ready(cfg, old(Abs()), key, now);
      order := order + [key];
      seen := seen[key := Entry(now, win, slot)];
      nextSlot := slot;
    }

    /** Frees a slot after a failed enqueue or push, unless it was taken anew. */
    method ReleaseSlot(key: string, slot: nat, now: Time)
      requires Consistent()
      modifies this
      ensures Abs() == Step(cfg, old(Abs()), Release(key, slot, now)).state && Consistent()
    {
      StepValid(cfg, Abs(), Release(key, slot, now));
      if key != "" && key in seen && seen[key].slot == slot {
        RemoveKey(key);
      }
    }

    method CleanUp(now: Time)
      requires Consistent()
      modifies this
      ensures Abs() == Step(cfg, old(Abs()), Cleanup(now)).state && Consistent()
    {
      StepValid(cfg, Abs(), Cleanup(now));
      if cfg.window != 0 {
        SweepOldest(now);
      }
    }
  }
}
