/** Which sources the offender table gives up, and when. */
module OffenderEvictions {
  import opened Fifo
  import opened Orders
  import opened Severity
  import opened Offenders
  import opened OffenderRuns
  import opened OffenderHistory

  // ---------- the law ----------

  /** No alert for the reset period and no window that still runs. */
  predicate Silent(c: Settings, e: Offender, now: Time) {
    e.last + c.reset <= now && e.shunUntil <= now
  }

  /** ip and every source whose last alert is older are silent. */
  ghost predicate SilentUpTo(c: Settings, s: State, ip: Ip, now: Time)
    requires Linked(s)
  {
    exists i :: 0 <= i < |s.order| && s.order[i] == ip && forall j :: 0 <= j <= i ==> Silent(c, s.entries[s.order[j]], now)
  }

  /** One of the 64 sources with the oldest last alerts has no open window. */
  ghost predicate Spares(s: State)
    requires Linked(s)
  {
    exists j :: 0 <= j < |s.order| && j < 64 && !s.entries[s.order[j]].active
  }

  /** The position of the oldest source without an open window, if one of the oldest 64 has none, else of the oldest. */
  ghost predicate Yields(s: State, v: nat)
    requires Linked(s)
  {
    && v < |s.order|
    && if Spares(s)
       then !s.entries[s.order[v]].active && forall j :: 0 <= j < v ==> s.entries[s.order[j]].active
       else v == 0
  }

  /** ip makes room: the table is full, the oldest source is not silent, and ip is the one that yields. */
  ghost predicate MakesRoom(c: Settings, s: State, ip: Ip, now: Time)
    requires Linked(s)
  {
    s.order != [] && !Silent(c, s.entries[s.order[0]], now) && exists v: nat :: Yields(s, v) && s.order[v] == ip
  }

  ghost predicate Goes(c: Settings, s: State, op: Op, ip: Ip)
    requires Linked(s)
  {
    match op
    case Accept(key, cls, _, now) =>
      && key.Some? && cls != NoClass
      && if key.value in s.entries then ip == key.value && Silent(c, s.entries[ip], now)
         else |s.entries| == c.max && (SilentUpTo(c, s, ip, now) || MakesRoom(c, s, ip, now))
    case Sweep(now) => SilentUpTo(c, s, ip, now)
    case _ => false
  }

  // ---------- the front of the list ----------

  lemma FrontLeaves(s: State)
    requires Linked(s) && s.order != []
    ensures var d := Drop(s, s.order[0], 0).state; d.order == s.order[1..] && d.entries == s.entries - {s.order[0]}
  {
    assert s.order == [] + [s.order[0]] + s.order[1..];
  }

  /** The sweep drops the silent sources up to the first that is not. */
  lemma {:induction false} FrontDrops(c: Settings, s: State, now: Time, ip: Ip)
    requires Linked(s)
    ensures ip in SweepFront(c, s, now).lost <==> SilentUpTo(c, s, ip, now)
    decreases |s.order|
  {
    if s.order != [] && Expired(c, s.entries[s.order[0]], now) {
      var d := Drop(s, s.order[0], now);
      FrontLeaves(s);
      FrontDrops(c, d.state, now, ip);
      FrontShift(c, s, d.state, now, ip);
    }
  }

  lemma FrontShift(c: Settings, s: State, d: State, now: Time, ip: Ip)
    requires Linked(s) && Linked(d) && s.order != [] && d.order == s.order[1..] && d.entries == s.entries - {s.order[0]}
    requires Silent(c, s.entries[s.order[0]], now)
    ensures SilentUpTo(c, s, ip, now) <==> ip == s.order[0] || SilentUpTo(c, d, ip, now)
  {
    if SilentUpTo(c, d, ip, now) {
      var i :| 0 <= i < |d.order| && d.order[i] == ip && forall j :: 0 <= j <= i ==> Silent(c, d.entries[d.order[j]], now);
      forall j | 0 <= j <= i + 1 ensures Silent(c, s.entries[s.order[j]], now) {
        assert j > 0 ==> s.order[j] == d.order[j - 1];
      }
      assert s.order[i + 1] == ip;
    }
    if SilentUpTo(c, s, ip, now) && ip != s.order[0] {
      var i :| 0 <= i < |s.order| && s.order[i] == ip && forall j :: 0 <= j <= i ==> Silent(c, s.entries[s.order[j]], now);
      forall j | 0 <= j <= i - 1 ensures Silent(c, d.entries[d.order[j]], now) {
        assert d.order[j] == s.order[j + 1];
      }
      assert d.order[i - 1] == ip;
    }
  }

  // ---------- making room ----------

  lemma {:induction false} FirstSpared(s: State, i: nat)
    requires Linked(s) && i <= |s.order|
    requires forall j :: 0 <= j < i ==> s.entries[s.order[j]].active
    requires Spares(s)
    ensures Yields(s, VictimIndex(s, i))
    decreases |s.order| - i
  {
    if i < |s.order| && i < EVICT_SCAN && s.entries[s.order[i]].active {
      FirstSpared(s, i + 1);
    }
  }

  lemma {:induction false} NoneSpared(s: State, i: nat)
    requires Linked(s) && i <= |s.order| && !Spares(s)
    ensures VictimIndex(s, i) == 0
    decreases |s.order| - i
  {
    if i < |s.order| && i < EVICT_SCAN {
      NoneSpared(s, i + 1);
    }
  }

  lemma VictimYields(s: State) returns (v: nat)
    requires Linked(s) && s.order != []
    ensures Yields(s, v) && s.order[v] == Victim(s)
  {
    if |s.active| >= |s.entries| {
      AllActiveBySize(s);
      assert forall j :: 0 <= j < |s.order| ==> s.order[j] in s.entries;
      v := 0;
    } else {
      v := VictimIndex(s, 0);
      if Spares(s) {
        FirstSpared(s, 0);
      } else {
        NoneSpared(s, 0);
      }
    }
  }

  /** Only one source yields. */
  lemma OneYields(s: State, v: nat, w: nat)
    requires Linked(s) && Yields(s, v) && Yields(s, w)
    ensures v == w
  {
  }

  lemma Shrunk(s: State, r: Outcome, now: Time, ip: Ip)
    requires Dropped(s, r, now) && ip in r.lost
    ensures |r.state.entries| < |s.entries|
  {
    FewerKeys(r.state.entries, s.entries - {ip});
    assert (s.entries - {ip}).Keys + {ip} == s.entries.Keys;
  }

  lemma SweepFrees(c: Settings, s: State, now: Time)
    requires Linked(s) && s.order != [] && Expired(c, s.entries[s.order[0]], now)
    ensures |SweepFront(c, s, now).state.entries| < |s.entries|
  {
    SweepFrontDrops(c, s, now);
    Shrunk(s, SweepFront(c, s, now), now, s.order[0]);
  }

  lemma RoomDrops(c: Settings, s: State, now: Time, ip: Ip)
    requires Linked(s) && |s.entries| == c.max
    ensures ip in MakeRoom(c, s, now).lost <==> SilentUpTo(c, s, ip, now) || MakesRoom(c, s, ip, now)
  {
    FrontDrops(c, s, now, ip);
    IndexedSize(s.order, s.entries);
    if Expired(c, s.entries[s.order[0]], now) {
      SweepFrees(c, s, now);
    } else {
      var v := VictimYields(s);
      if MakesRoom(c, s, ip, now) {
        var w: nat :| Yields(s, w) && s.order[w] == ip;
        OneYields(s, v, w);
      }
    }
  }

  // ---------- every operation ----------

  /** A window that is over does not hide a silent source. */
  lemma ClosedSilent(c: Settings, s: State, now: Time, ip: Ip)
    requires Valid(c, s)
    ensures SilentUpTo(c, CloseEnded(s, now), ip, now) <==> SilentUpTo(c, s, ip, now)
  {
    var t := CloseEnded(s, now);
    assert t.order == s.order;
    forall k | k in s.entries ensures Silent(c, t.entries[k], now) <==> Silent(c, s.entries[k], now) {
      assert Tidy(s.entries[k], s.nextWin);
    }
  }

  lemma StepGoes(c: Settings, s: State, op: Op, ip: Ip)
    requires Valid(c, s)
    ensures ip in Step(c, s, op).out.lost <==> Goes(c, s, op, ip)
  {
    if op.Sweep? {
      FrontDrops(c, CloseEnded(s, op.now), op.now, ip);
      ClosedSilent(c, s, op.now, ip);
    } else if op.Accept? && op.key.Some? && op.cls != NoClass {
      AcceptGoes(c, s, op, ip);
    }
  }

  lemma AcceptGoes(c: Settings, s: State, op: Op, ip: Ip)
    requires Valid(c, s) && op.Accept? && op.key.Some? && op.cls != NoClass
    ensures ip in Step(c, s, op).out.lost <==> Goes(c, s, op, ip)
  {
    var key := op.key.value;
    var own := DropSilent(c, s, key, op.now);
    if key in s.entries && Expired(c, s.entries[key], op.now) {
      DropShrinks(s, key, op.now);
    } else if key !in s.entries && |s.entries| == c.max {
      RoomDrops(c, s, op.now, ip);
    }
  }

  /** In every run, a source is given up if and only if it is silent and everything older is, its own next alert
      finds it silent, or a new source finds the table full and it is the one that yields. */
  lemma LostIff(c: Settings, ops: seq<Op>, n: nat, ip: Ip)
    requires Clocked(ops) && n < |ops|
    ensures ip in OutAt(c, ops, n).lost <==> Goes(c, At(c, ops, n), ops[n], ip)
  {
    RunValid(c, ops, n);
    StepGoes(c, At(c, ops, n), ops[n], ip);
  }

  // ---------- the age of a source ----------

  /** The k-th operation is the last alert of ip before the n-th. */
  predicate LastAlert(ops: seq<Op>, ip: Ip, k: nat, n: nat) {
    k < n <= |ops| && Records(ops[k], ip) && forall j :: k < j < n ==> !Records(ops[j], ip)
  }

  lemma {:induction false} LastIn(c: Settings, ops: seq<Op>, ip: Ip, h: History, n: nat) returns (k: nat)
    requires Follows(c, ops, ip, h) && n <= |ops| && h.views[n].Some?
    ensures LastAlert(ops, ip, k, n) && h.views[n].value.last == ops[k].now
  {
    var m := n - 1;
    assert FollowsAt(c, ops, ip, h, m);
    if Records(ops[m], ip) {
      k := m;
    } else {
      k := LastIn(c, ops, ip, h, m);
    }
  }

  /** The age of a source is the time since its last alert, whether or not that alert was taken back. */
  lemma AgeIs(c: Settings, ops: seq<Op>, n: nat, ip: Ip) returns (k: nat)
    requires Clocked(ops) && n <= |ops| && ip in At(c, ops, n).entries
    ensures LastAlert(ops, ip, k, n) && At(c, ops, n).entries[ip].last == ops[k].now
  {
    RunFollows(c, ops, ip);
    k := LastIn(c, ops, ip, HistoryOf(c, ops, ip), n);
  }

  // ---------- the order of the list ----------

  lemma {:induction false} SweepWithin(c: Settings, s: State, now: Time)
    requires Linked(s)
    ensures Suborder(SweepFront(c, s, now).state.order, s.order)
    decreases |s.order|
  {
    if s.order != [] && Expired(c, s.entries[s.order[0]], now) {
      RemoveSuborder(s.order, s.order[0]);
      SweepWithin(c, Drop(s, s.order[0], now).state, now);
    }
  }

  lemma PrepareWithin(c: Settings, s: State, key: Ip, now: Time)
    requires Linked(s)
    ensures Suborder(Prepare(c, s, key, now).state.order, s.order)
  {
    var own := DropSilent(c, s, key, now).state;
    if key in s.entries {
      RemoveSuborder(s.order, key);
    }
    SweepWithin(c, own, now);
    var swept := SweepFront(c, own, now).state;
    if swept.order != [] {
      RemoveSuborder(swept.order, Victim(swept));
    }
  }

  lemma PutShifts(was: seq<Ip>, s: State, key: Ip, e: Offender, nextWin: nat, a: Ip, b: Ip)
    requires Linked(s) && Suborder(s.order, was)
    ensures Shifts(Some(key), was, Put(s, key, e, nextWin).order, a, b)
  {
    if key in s.entries {
      RemoveSuborder(s.order, key);
    }
    AppendShifts(was, if key in s.entries then Detach(s, key).order else s.order, key, a, b);
  }

  lemma RevertWithin(s: State, op: Op)
    requires Linked(s) && op.Revert?
    ensures Suborder(DoRevert(s, op).state.order, s.order)
  {
    if op.mark.key in s.entries {
      RemoveSuborder(s.order, op.mark.key);
    }
  }

  function PutBack(op: Op): Option<Ip> {
    if op.Accept? && op.cls != NoClass then op.key else None
  }

  /** An alert puts its source at the back; otherwise the order stays. */
  lemma StepOrders(c: Settings, s: State, op: Op, a: Ip, b: Ip)
    requires Linked(s)
    ensures Shifts(PutBack(op), s.order, Step(c, s, op).state.order, a, b)
  {
    match op {
      case Accept(key, cls, window, now) =>
        if key.Some? && cls != NoClass {
          AcceptOrders(c, s, op, a, b);
        }
      case Revert(_, _, _) => RevertWithin(s, op);
      case Sweep(now) => SweepWithin(c, CloseEnded(s, now), now);
      case _ =>
    }
  }

  lemma AcceptOrders(c: Settings, s: State, op: Op, a: Ip, b: Ip)
    requires Linked(s) && op.Accept? && op.key.Some? && op.cls != NoClass
    ensures Shifts(op.key, s.order, Step(c, s, op).state.order, a, b)
  {
    var key := op.key.value;
    var p := Prepare(c, s, key, op.now).state;
    var r := Arm(c, EntryOr(p, key), op.cls, op.window, op.now, p.nextWin);
    PrepareWithin(c, s, key, op.now);
    PutShifts(s.order, p, key, r.e, r.nextWin, a, b);
  }

  /** How the list moves by the n-th operation. */
  ghost predicate Moves(ops: seq<Op>, lists: seq<seq<Ip>>, n: nat, a: Ip, b: Ip)
    requires |lists| == |ops| + 1
  {
    n < |ops| ==> Shifts(PutBack(ops[n]), lists[n], lists[n + 1], a, b)
  }

  lemma {:induction false} ListedIn(ops: seq<Op>, lists: seq<seq<Ip>>, n: nat, a: Ip, b: Ip, k: nat, l: nat)
    requires |lists| == |ops| + 1 && forall m: nat :: Moves(ops, lists, m, a, b)
    requires n <= |ops| && Precedes(lists[n], a, b) && LastAlert(ops, a, k, n) && LastAlert(ops, b, l, n)
    ensures k < l
  {
    var m := n - 1;
    assert Moves(ops, lists, m, a, b);
    if !Records(ops[m], b) {
      ListedIn(ops, lists, m, a, b, k, l);
    }
  }

  ghost function Lists(c: Settings, ops: seq<Op>): (lists: seq<seq<Ip>>)
    ensures |lists| == |ops| + 1
  {
    seq(|ops| + 1, i requires 0 <= i <= |ops| => At(c, ops, i).order)
  }

  lemma ListMoves(c: Settings, ops: seq<Op>, n: nat, a: Ip, b: Ip)
    requires n < |ops|
    ensures Moves(ops, Lists(c, ops), n, a, b)
  {
    StepOrders(c, At(c, ops, n), ops[n], a, b);
  }

  lemma RunMoves(c: Settings, ops: seq<Op>, a: Ip, b: Ip)
    ensures forall n: nat :: Moves(ops, Lists(c, ops), n, a, b)
  {
    forall n: nat ensures Moves(ops, Lists(c, ops), n, a, b) {
      if n < |ops| {
        ListMoves(c, ops, n, a, b);
      }
    }
  }

  /** The list is in the order of the last alerts, also of those at the same time. */
  lemma ListedByLastAlert(c: Settings, ops: seq<Op>, n: nat, a: Ip, b: Ip, k: nat, l: nat)
    requires n <= |ops| && Precedes(At(c, ops, n).order, a, b) && LastAlert(ops, a, k, n) && LastAlert(ops, b, l, n)
    ensures k < l
  {
    RunMoves(c, ops, a, b);
    assert Lists(c, ops)[n] == At(c, ops, n).order;
    ListedIn(ops, Lists(c, ops), n, a, b, k, l);
  }
}
