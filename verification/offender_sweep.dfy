/** When the front sweep of the offender table is complete. */
module OffenderSweep {
  import opened Fifo
  import opened Severity
  import opened Offenders
  import opened OffenderRuns
  import opened OffenderHistory

  ghost predicate WindowsWithin(ops: seq<Op>, limit: int) {
    forall i :: 0 <= i < |ops| && ops[i].Accept? ==> ops[i].window <= limit
  }

  /** Every sweep of the run leaves no silent source in the table. */
  ghost predicate SweptClean(c: Settings, ops: seq<Op>) {
    forall n: nat :: n < |ops| && ops[n].Sweep? ==> NoneSilent(c, At(c, ops, n + 1), ops[n].now)
  }

  ghost predicate NoneSilent(c: Settings, s: State, now: Time) {
    forall ip :: ip in s.entries ==> !Expired(c, s.entries[ip], now)
  }

  predicate Within(c: Settings, v: Option<Offender>) {
    v.Some? ==> v.value.shunUntil <= v.value.last + c.reset
  }

  lemma LocalWithin(c: Settings, ip: Ip, v: Option<Offender>, op: Op, nextWin: nat)
    requires Within(c, v) && (v.Some? ==> v.value.last <= op.now)
    requires c.shun && op.Accept? ==> op.window <= c.reset
    ensures Within(c, Local(c, ip, v, op, nextWin))
  {
  }

  lemma {:induction false} WithinIn(c: Settings, ops: seq<Op>, n: nat, ip: Ip, h: History)
    requires Follows(c, ops, ip, h) && (c.shun ==> WindowsWithin(ops, c.reset)) && n <= |ops|
    ensures Within(c, h.views[n])
  {
    if n > 0 {
      WithinIn(c, ops, n - 1, ip, h);
      assert FollowsAt(c, ops, ip, h, n - 1);
      LocalWithin(c, ip, Kept(h, n - 1), ops[n - 1], h.wins[n - 1]);
    }
  }

  lemma RunWithin(c: Settings, ops: seq<Op>, n: nat, ip: Ip)
    requires Clocked(ops) && (c.shun ==> WindowsWithin(ops, c.reset)) && n <= |ops|
    ensures Within(c, View(At(c, ops, n), ip))
  {
    RunFollows(c, ops, ip);
    WithinIn(c, ops, n, ip, HistoryOf(c, ops, ip));
  }

  /** A live source at the front of the list can vouch for the others: it is alone, or all windows are short. */
  ghost predicate Guarded(s: State, c: Settings) {
    |s.entries| < 2 || forall k :: k in s.entries ==> Within(c, Some(s.entries[k]))
  }

  lemma FrontGuards(c: Settings, s: State, now: Time)
    requires Linked(s) && Ordered(s) && Guarded(s, c)
    requires s.order == [] || !Expired(c, s.entries[s.order[0]], now)
    ensures NoneSilent(c, s, now)
  {
    forall ip | ip in s.entries ensures !Expired(c, s.entries[ip], now) {
      assert ip in s.order;
      IndexedSize(s.order, s.entries);
      var j := IndexOf(s.order, ip);
      assert LastAt(s, 0) <= LastAt(s, j);
      assert |s.entries| >= 2 ==> Within(c, Some(s.entries[s.order[0]]));
    }
  }

  lemma GuardedLess(c: Settings, s: State, r: State)
    requires Guarded(s, c) && r.entries.Keys <= s.entries.Keys && forall k :: k in r.entries ==> r.entries[k] == s.entries[k]
    ensures Guarded(r, c)
  {
    Smaller(r.entries.Keys, s.entries.Keys);
  }

  lemma GuardedClosed(c: Settings, s: State, now: Time)
    requires Valid(c, s) && Guarded(s, c)
    ensures Guarded(CloseEnded(s, now), c)
  {
    assert CloseEnded(s, now).entries.Keys == s.entries.Keys;
  }

  /** The front sweep of a guarded table leaves no silent source. */
  lemma FrontSweepClean(c: Settings, s: State, now: Time)
    requires Valid(c, s) && Guarded(s, c)
    ensures NoneSilent(c, SweepFront(c, s, now).state, now)
  {
    SweepFrontDrops(c, s, now);
    SweepFrontOrdered(c, s, now);
    GuardedLess(c, s, SweepFront(c, s, now).state);
    FrontGuards(c, SweepFront(c, s, now).state, now);
  }

  lemma SweepClean(c: Settings, s: State, now: Time)
    requires Valid(c, s) && Guarded(s, c)
    ensures NoneSilent(c, Step(c, s, Sweep(now)).state, now)
  {
    CloseEndedValid(c, s, now);
    GuardedClosed(c, s, now);
    FrontSweepClean(c, CloseEnded(s, now), now);
  }

  /** No windows, a table for one source, or windows within the reset period. */
  ghost predicate Short(c: Settings, ops: seq<Op>) {
    !c.shun || c.max < 2 || WindowsWithin(ops, c.reset)
  }

  lemma RunGuarded(c: Settings, ops: seq<Op>, n: nat)
    requires Clocked(ops) && Short(c, ops) && n <= |ops|
    ensures Valid(c, At(c, ops, n)) && Guarded(At(c, ops, n), c)
  {
    RunValid(c, ops, n);
    if c.max >= 2 {
      forall k | k in At(c, ops, n).entries ensures Within(c, Some(At(c, ops, n).entries[k])) {
        RunWithin(c, ops, n, k);
      }
    }
  }

  lemma ShortWindowsSweepClean(c: Settings, ops: seq<Op>)
    requires Clocked(ops) && Short(c, ops)
    ensures SweptClean(c, ops)
  {
    forall n: nat | n < |ops| && ops[n].Sweep?
      ensures NoneSilent(c, At(c, ops, n + 1), ops[n].now)
    {
      RunGuarded(c, ops, n);
      SweepClean(c, At(c, ops, n), ops[n].now);
    }
  }

  // ---------- making room ----------

  lemma MakeRoomSilentFirst(c: Settings, s: State, now: Time, ip: Ip)
    requires Valid(c, s) && Guarded(s, c)
    requires ip in s.entries && !Expired(c, s.entries[ip], now) && ip in MakeRoom(c, s, now).lost
    ensures NoneSilent(c, MakeRoom(c, s, now).state, now)
  {
    var swept := SweepFront(c, s, now);
    SweepFrontDrops(c, s, now);
    FrontSweepClean(c, s, now);
  }

  lemma PrepareSilentFirst(c: Settings, s: State, key: Ip, now: Time, ip: Ip)
    requires Valid(c, s) && Guarded(s, c)
    requires ip in s.entries && !Expired(c, s.entries[ip], now) && ip in Prepare(c, s, key, now).lost
    ensures NoneSilent(c, Prepare(c, s, key, now).state, now)
  {
    var own := DropSilent(c, s, key, now);
    DropSilentDrops(c, s, key, now);
    GuardedLess(c, s, own.state);
    if key !in own.state.entries && |own.state.entries| >= c.max {
      MakeRoomDrops(c, own.state, now);
      MakeRoomSilentFirst(c, own.state, now, ip);
    }
  }

  lemma RecordNotSilent(c: Settings, s: State, op: Op)
    requires Valid(c, s) && op.Accept? && op.key != None && op.cls != NoClass
    requires NoneSilent(c, Prepare(c, s, op.key.value, op.now).state, op.now)
    ensures NoneSilent(c, Step(c, s, op).state, op.now)
  {
    PrepareDrops(c, s, op.key.value, op.now);
  }

  /** A source that is not silent only makes room for another when no silent one is left. */
  lemma SilentGoFirst(c: Settings, ops: seq<Op>, n: nat, ip: Ip)
    requires Clocked(ops) && Short(c, ops) && n < |ops| && ip in OutAt(c, ops, n).lost
    requires ip in At(c, ops, n).entries && !Expired(c, At(c, ops, n).entries[ip], ops[n].now)
    ensures NoneSilent(c, At(c, ops, n + 1), ops[n].now)
  {
    RunGuarded(c, ops, n);
    LostLive(c, At(c, ops, n), ops[n], ip);
  }

  lemma LostLive(c: Settings, s: State, op: Op, ip: Ip)
    requires Valid(c, s) && Guarded(s, c) && ip in Step(c, s, op).out.lost && ip in s.entries && !Expired(c, s.entries[ip], op.now)
    ensures NoneSilent(c, Step(c, s, op).state, op.now)
  {
    if op.Accept? {
      PrepareSilentFirst(c, s, op.key.value, op.now, ip);
      RecordNotSilent(c, s, op);
    } else {
      SweepClean(c, s, op.now);
    }
  }

  // ---------- a long window ----------

  /** A source shunned past the reset period stands before a silent one and hides it from the sweep. */
  function Blocking(c: Settings, limit: int): seq<Op> {
    [Accept(Some("a"), Attack, limit, 1), Accept(Some("b"), Probe, 0, 1), Sweep(1 + c.reset)]
  }

  const SILENT := FRESH.(counts := [1, 0, 0], last := 1)

  function Barred(limit: nat): Offender {
    FRESH.(counts := [0, 1, 0], last := 1, shunStart := 1, shunUntil := 1 + limit, winID := 1, active := true)
  }

  /** The table after n operations of the blocking run. */
  function Stage(limit: nat, n: nat): State {
    if n == 0 then EMPTY
    else if n == 1 then State(map["a" := Barred(limit)], ["a"], {"a"}, 1)
    else State(map["a" := Barred(limit), "b" := SILENT], ["a", "b"], {"a"}, 1)
  }

  lemma BlockingFirst(c: Settings, limit: nat)
    requires c.shun && limit > 0
    ensures Linked(EMPTY) && Step(c, EMPTY, Accept(Some("a"), Attack, limit, 1)).state == Stage(limit, 1)
  {
    assert Linked(EMPTY);
    assert Prepare(c, EMPTY, "a", 1).state == EMPTY;
    assert Arm(c, FRESH, Attack, limit, 1, 0).e == Barred(limit) by {
      assert [0, 0, 0][1 := 1] == [0, 1, 0];
    }
    assert EMPTY.order + ["a"] == ["a"];
  }

  lemma BlockingSecond(c: Settings, limit: nat)
    requires c.max >= 2
    ensures var s := Stage(limit, 1); Linked(s) && Step(c, s, Accept(Some("b"), Probe, 0, 1)).state == Stage(limit, 2)
  {
    var s := Stage(limit, 1);
    assert s.entries.Keys == {"a"};
    assert "a" in s.order;
    assert Linked(s);
    assert Prepare(c, s, "b", 1).state == s;
    assert Arm(c, FRESH, Probe, 0, 1, 1).e == SILENT by {
      assert [0, 0, 0][0 := 1] == [1, 0, 0];
    }
    assert s.order + ["b"] == ["a", "b"];
  }

  lemma BlockingThird(c: Settings, limit: nat)
    requires limit > c.reset
    ensures var s := Stage(limit, 2); Linked(s) && Step(c, s, Sweep(1 + c.reset)).state == s
  {
    var s := Stage(limit, 2);
    assert "a" in s.order && "b" in s.order;
    assert Linked(s);
    assert CloseEnded(s, 1 + c.reset) == s;
  }

  lemma BlockingStep(c: Settings, limit: nat, op: Op, n: nat)
    requires c.shun && c.max >= 2 && limit > c.reset && n < 3 && op == Blocking(c, limit)[n]
    ensures Linked(Stage(limit, n)) && Step(c, Stage(limit, n), op).state == Stage(limit, n + 1)
  {
    if n == 0 {
      BlockingFirst(c, limit);
    } else if n == 1 {
      BlockingSecond(c, limit);
    } else {
      BlockingThird(c, limit);
    }
  }

  lemma AtNext(c: Settings, ops: seq<Op>, n: nat, s: State, r: State)
    requires n < |ops| && At(c, ops, n) == s && Step(c, s, ops[n]).state == r
    ensures At(c, ops, n + 1) == r
  {
  }

  lemma {:induction false} BlockingRun(c: Settings, limit: nat, ops: seq<Op>, n: nat)
    requires c.shun && c.max >= 2 && limit > c.reset && n <= 3 && ops == Blocking(c, limit)
    ensures At(c, ops, n) == Stage(limit, n)
  {
    if n > 0 {
      BlockingRun(c, limit, ops, n - 1);
      BlockingStep(c, limit, ops[n - 1], n - 1);
      AtNext(c, ops, n - 1, Stage(limit, n - 1), Stage(limit, n));
    }
  }

  lemma StageSilent(c: Settings, limit: nat)
    ensures !NoneSilent(c, Stage(limit, 3), 1 + c.reset)
  {
    assert Expired(c, Stage(limit, 3).entries["b"], 1 + c.reset);
  }

  lemma NotClean(c: Settings, ops: seq<Op>, n: nat, s: State)
    requires n < |ops| && ops[n].Sweep? && At(c, ops, n + 1) == s && !NoneSilent(c, s, ops[n].now)
    ensures !SweptClean(c, ops)
  {
  }

  lemma LongWindowBlocks(c: Settings, limit: int, ops: seq<Op>, n: nat)
    requires c.shun && c.max >= 2 && limit > c.reset && ops == Blocking(c, limit) && n == 2
    ensures !SweptClean(c, ops)
  {
    BlockingRun(c, limit, ops, n + 1);
    StageSilent(c, limit);
    NotClean(c, ops, n, Stage(limit, n + 1));
  }

  /** The sweep is complete on every run with windows up to a limit exactly if the limit is within the reset period,
      no source is ever shunned, or the table holds one source only. */
  lemma SweepCompleteIff(c: Settings, limit: int)
    ensures (forall ops :: Clocked(ops) && WindowsWithin(ops, limit) ==> SweptClean(c, ops))
      <==> !c.shun || c.max < 2 || limit <= c.reset
  {
    if !c.shun || c.max < 2 || limit <= c.reset {
      forall ops | Clocked(ops) && WindowsWithin(ops, limit) ensures SweptClean(c, ops) {
        assert limit <= c.reset ==> WindowsWithin(ops, c.reset);
        ShortWindowsSweepClean(c, ops);
      }
    } else {
      var ops := Blocking(c, limit);
      assert Clocked(ops) && WindowsWithin(ops, limit);
      LongWindowBlocks(c, limit, ops, 2);
    }
  }
}
