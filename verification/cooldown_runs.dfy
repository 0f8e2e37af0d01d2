/** Every run of the cooldown filter. */
module CooldownRuns {
  import opened Fifo
  import opened Severity
  import opened Cooldown

  // ---------- the invariant ----------

  lemma DetachValid(c: Config, s: State, k: string)
    requires Valid(c, s) && k in s.seen
    ensures Valid(c, Detach(s, k)) && |Detach(s, k).seen| == |s.seen| - 1
  {
    var r, p := Detach(s, k), IndexOf(s.order, k);
    forall i | 0 <= i < |r.order|
      ensures SlotAt(r, i) == SlotAt(s, if i < p then i else i + 1)
    {
      assert r.order[i] == s.order[if i < p then i else i + 1] && r.order[i] in r.seen;
    }
    assert r.seen.Keys + {k} == s.seen.Keys;
  }

  lemma {:induction false} SweepFrontValid(c: Config, s: State, now: Time)
    requires Valid(c, s)
    ensures Valid(c, SweepFront(s, now)) && |SweepFront(s, now).seen| <= |s.seen|
    decreases |s.order|
  {
    if s.order != [] && !Live(s.seen[s.order[0]], now) {
      DetachValid(c, s, s.order[0]);
      SweepFrontValid(c, Detach(s, s.order[0]), now);
    }
  }

  lemma ReadyValid(c: Config, s: State, key: string, now: Time)
    requires Valid(c, s)
    ensures Valid(c, Ready(c, s, key, now)) && |Ready(c, s, key, now).seen| < Bound(c)
  {
    if key in s.seen {
      DetachValid(c, s, key);
    } else if |s.seen| >= c.maxEntries {
      var swept := SweepFront(s, now);
      SweepFrontValid(c, s, now);
      IndexedSize(swept.order, swept.seen);
      if Evictee(c, swept).Some? {
        DetachValid(c, swept, swept.order[0]);
      }
    }
  }

  lemma AppendValid(c: Config, s: State, k: string, e: Entry)
    requires Valid(c, s) && k !in s.seen && |s.seen| < Bound(c) && e.slot == s.nextSlot + 1
    ensures Valid(c, Append(s, k, e))
  {
    var r := Append(s, k, e);
    SizeWith(s.seen, k, e);
    forall i | 0 <= i < |s.order| ensures SlotAt(r, i) == SlotAt(s, i) {
      assert r.order[i] == s.order[i] && s.order[i] in s.seen;
    }
  }

  /** Every operation keeps the index, its order and its bound. */
  lemma StepValid(c: Config, s: State, op: Op)
    requires Valid(c, s)
    ensures Valid(c, Step(c, s, op).state)
  {
    match op {
      case Allow(_, _, _, _) =>
        if c.window != 0 && !Suppressed(s.seen, op.ip, op.cls, op.now) {
          var key := Key(op.ip, op.cls);
          ReadyValid(c, s, key, op.now);
          AppendValid(c, Ready(c, s, key, op.now), key, Entry(op.now, op.win, s.nextSlot + 1));
        }
      case Release(_, _, _) =>
        if op.key in s.seen {
          DetachValid(c, s, op.key);
        }
      case Cleanup(_) =>
        SweepFrontValid(c, s, op.now);
    }
  }

  // ---------- runs ----------

  /** Operations in lock order, the states between them and their answers. */
  datatype Run = Run(ops: seq<Op>, states: seq<State>, outs: seq<Out>)

  ghost predicate Shaped(r: Run) {
    |r.states| == |r.ops| + 1 && |r.outs| == |r.ops|
  }

  ghost predicate Steps(c: Config, r: Run, n: nat)
    requires Shaped(r)
  {
    n < |r.ops| ==> Linked(r.states[n]) && Step(c, r.states[n], r.ops[n]) == Result(r.states[n + 1], r.outs[n])
  }

  /** A run from the empty filter. Clock readings do not go back in lock order. */
  ghost predicate IsRun(c: Config, r: Run) {
    && Shaped(r) && r.states[0] == EMPTY
    && (forall n: nat :: Steps(c, r, n))
    && (forall i, j :: 0 <= i < j < |r.ops| ==> r.ops[i].now <= r.ops[j].now)
  }

  const START := Run([], [EMPTY], [])

  function Last(r: Run): State
    requires r.states != []
  {
    r.states[|r.states| - 1]
  }

  function Extend(c: Config, r: Run, op: Op): Run
    requires r.states != [] && Linked(Last(r))
  {
    var next := Step(c, Last(r), op);
    Run(r.ops + [op], r.states + [next.state], r.outs + [next.out])
  }

  /** Every operation can follow a run if the clock did not go back. */
  lemma RunExtends(c: Config, r: Run, op: Op)
    requires IsRun(c, r) && (r.ops == [] || r.ops[|r.ops| - 1].now <= op.now)
    ensures Linked(Last(r)) && IsRun(c, Extend(c, r, op))
  {
    RunValid(c, r, |r.ops|);
    StepsExtend(c, r, Extend(c, r, op));
    ClockExtends(r.ops, op);
  }

  lemma ClockExtends(ops: seq<Op>, op: Op)
    requires (forall i, j :: 0 <= i < j < |ops| ==> ops[i].now <= ops[j].now) && (ops == [] || ops[|ops| - 1].now <= op.now)
    ensures forall i, j :: 0 <= i < j < |ops + [op]| ==> (ops + [op])[i].now <= (ops + [op])[j].now
  {
  }

  lemma StepsExtend(c: Config, r: Run, e: Run)
    requires IsRun(c, r) && Shaped(e) && |e.ops| == |r.ops| + 1 && r.ops <= e.ops && r.states <= e.states && r.outs <= e.outs
    requires Steps(c, e, |r.ops|)
    ensures forall n: nat :: Steps(c, e, n)
  {
    forall n: nat ensures Steps(c, e, n) {
      if n < |r.ops| {
        StepsStay(c, r, e, n);
      }
    }
  }

  lemma StepsStay(c: Config, r: Run, e: Run, n: nat)
    requires IsRun(c, r) && Shaped(e) && r.ops <= e.ops && r.states <= e.states && r.outs <= e.outs && n < |r.ops|
    ensures Steps(c, e, n)
  {
    assert Steps(c, r, n);
  }

  lemma {:induction false} RunValid(c: Config, r: Run, n: nat)
    requires IsRun(c, r) && n <= |r.ops|
    ensures Valid(c, r.states[n])
  {
    if n > 0 {
      RunValid(c, r, n - 1);
      RunStepValid(c, r, n - 1);
    }
  }

  lemma RunStepValid(c: Config, r: Run, n: nat)
    requires IsRun(c, r) && n < |r.ops| && Valid(c, r.states[n])
    ensures Valid(c, r.states[n + 1])
  {
    assert Steps(c, r, n);
    StepValid(c, r.states[n], r.ops[n]);
  }

  // ---------- refinement of the unbounded map ----------

  /** The simple filter: a map that is never swept and never evicts. */
  datatype Unbounded = Unbounded(seen: map<string, Entry>, nextSlot: nat)

  datatype Answer = Answer(ok: bool, key: string, slot: nat, win: int)

  datatype SimpleResult = SimpleResult(state: Unbounded, answer: Answer)

  function SimpleStep(c: Config, u: Unbounded, op: Op): SimpleResult {
    match op
    case Allow(ip, cls, win, now) =>
      if c.window == 0 then SimpleResult(u, Answer(true, "", 0, 0))
      else if Suppressed(u.seen, ip, cls, now) then SimpleResult(u, Answer(false, "", 0, 0))
      else
        SimpleResult(Unbounded(u.seen[Key(ip, cls) := Entry(now, win, u.nextSlot + 1)], u.nextSlot + 1),
                     Answer(true, Key(ip, cls), u.nextSlot + 1, win))
    case Release(key, slot, _) =>
      SimpleResult(if key != "" && key in u.seen && u.seen[key].slot == slot then u.(seen := u.seen - {key}) else u,
                   Answer(false, "", 0, 0))
    case Cleanup(_) => SimpleResult(u, Answer(false, "", 0, 0))
  }

  function SimpleAt(c: Config, ops: seq<Op>, n: nat): Unbounded
    requires n <= |ops|
  {
    if n == 0 then Unbounded(map[], 0) else SimpleStep(c, SimpleAt(c, ops, n - 1), ops[n - 1]).state
  }

  function AnswerOf(o: Out): Answer {
    Answer(o.ok, o.key, o.slot, o.win)
  }

  /** The bounded index is a part of the simple one, and what it misses is expired. */
  ghost predicate Simulates(s: State, u: Unbounded, now: Time) {
    && s.nextSlot == u.nextSlot
    && (forall k :: k in s.seen ==> k in u.seen && u.seen[k] == s.seen[k])
    && (forall k :: k in u.seen && k !in s.seen ==> !Live(u.seen[k], now))
  }

  lemma SimulationLasts(s: State, u: Unbounded, now: Time, later: Time)
    requires Simulates(s, u, now) && now <= later
    ensures Simulates(s, u, later)
  {
  }

  lemma SameSuppression(s: State, u: Unbounded, ip: string, cls: Class, now: Time)
    requires Simulates(s, u, now)
    ensures Suppressed(s.seen, ip, cls, now) <==> Suppressed(u.seen, ip, cls, now)
  {
    assert forall c :: Cooling(s.seen, ip, c, now) <==> Cooling(u.seen, ip, c, now);
  }

  lemma AllowSimulates(c: Config, s: State, u: Unbounded, op: Op)
    requires Linked(s) && Simulates(s, u, op.now) && op.Allow?
    ensures AnswerOf(Step(c, s, op).out) == SimpleStep(c, u, op).answer
    ensures Step(c, s, op).out.evicted == None ==> Simulates(Step(c, s, op).state, SimpleStep(c, u, op).state, op.now)
  {
    SameSuppression(s, u, op.ip, op.cls, op.now);
    ReadyKeeps(c, s, Key(op.ip, op.cls), op.now);
  }

  lemma StepSimulates(c: Config, s: State, u: Unbounded, op: Op)
    requires Linked(s) && Simulates(s, u, op.now)
    ensures AnswerOf(Step(c, s, op).out) == SimpleStep(c, u, op).answer
    ensures Step(c, s, op).out.evicted == None ==> Simulates(Step(c, s, op).state, SimpleStep(c, u, op).state, op.now)
  {
    match op {
      case Allow(_, _, _, _) => AllowSimulates(c, s, u, op);
      case Release(_, _, _) =>
      case Cleanup(_) => SweepFrontKeeps(s, op.now);
    }
  }

  ghost predicate NoEviction(r: Run, n: nat)
    requires n <= |r.outs|
  {
    forall i :: 0 <= i < n ==> r.outs[i].evicted == None
  }

  lemma {:induction false} RunSimulates(c: Config, r: Run, n: nat)
    requires IsRun(c, r) && n < |r.ops| && NoEviction(r, n)
    ensures Simulates(r.states[n], SimpleAt(c, r.ops, n), r.ops[n].now)
  {
    if n > 0 {
      var u := SimpleAt(c, r.ops, n - 1);
      RunSimulates(c, r, n - 1);
      assert Steps(c, r, n - 1);
      StepSimulates(c, r.states[n - 1], u, r.ops[n - 1]);
      SimulationLasts(r.states[n], SimpleStep(c, u, r.ops[n - 1]).state, r.ops[n - 1].now, r.ops[n].now);
    }
  }

  /** As long as nothing was evicted, the filter answers like the simple one. */
  lemma RefinesUnbounded(c: Config, r: Run, n: nat)
    requires IsRun(c, r) && n < |r.ops| && NoEviction(r, n)
    ensures AnswerOf(r.outs[n]) == SimpleStep(c, SimpleAt(c, r.ops, n), r.ops[n]).answer
  {
    RunSimulates(c, r, n);
    assert Steps(c, r, n);
    StepSimulates(c, r.states[n], SimpleAt(c, r.ops, n), r.ops[n]);
  }

  // ---------- spacing ----------

  predicate Passed(r: Run, i: nat) {
    i < |r.ops| && i < |r.outs| && r.ops[i].Allow? && r.outs[i].ok
  }

  /** The m-th operation gives up the slot under key: its release or the eviction of the live entry. */
  predicate GivesUp(r: Run, m: nat, key: string, slot: nat) {
    && m < |r.ops| && m < |r.outs|
    && ((r.ops[m].Release? && r.ops[m].key == key && r.ops[m].slot == slot)
        || (r.outs[m].evicted.Some? && r.outs[m].evicted.value.slot == slot))
  }

  predicate Holds(s: State, key: string, e: Entry) {
    key in s.seen && s.seen[key] == e
  }

  /** A slot is held through an operation until it expires or is given up. */
  lemma StepHolds(c: Config, s: State, op: Op, ip: string, cls: Class, e: Entry)
    requires Valid(c, s) && c.window != 0 && cls in CLASSES && Holds(s, Key(ip, cls), e) && Live(e, op.now)
    requires !(op.Release? && op.key == Key(ip, cls) && op.slot == e.slot)
    requires Step(c, s, op).out.evicted != Some(e)
    ensures Holds(Step(c, s, op).state, Key(ip, cls), e)
  {
    match op {
      case Allow(_, _, _, _) =>
        if Key(op.ip, op.cls) == Key(ip, cls) {
          KeyInjective(op.ip, op.cls, ip, cls);
          assert Cooling(s.seen, ip, cls, op.now);
        }
        ReadyKeeps(c, s, Key(op.ip, op.cls), op.now);
      case Release(_, _, _) =>
      case Cleanup(_) =>
        SweepFrontKeeps(s, op.now);
    }
  }

  /** The entry the i-th operation made. */
  function Made(r: Run, i: nat): Entry
    requires Passed(r, i)
  {
    Entry(r.ops[i].now, r.ops[i].win, r.outs[i].slot)
  }

  lemma {:induction false} RunHolds(c: Config, r: Run, i: nat, k: nat, now: Time)
    requires IsRun(c, r) && c.window != 0 && Passed(r, i) && r.ops[i].cls in CLASSES && i < k <= |r.ops|
    requires forall m :: i < m < k ==> !GivesUp(r, m, Key(r.ops[i].ip, r.ops[i].cls), r.outs[i].slot)
    requires r.ops[k - 1].now <= now && Live(Made(r, i), now)
    ensures Holds(r.states[k], Key(r.ops[i].ip, r.ops[i].cls), Made(r, i))
    decreases k
  {
    if k > i + 1 {
      assert r.ops[k - 2].now <= r.ops[k - 1].now;
      RunHolds(c, r, i, k - 1, now);
      RunHoldsNext(c, r, i, k - 1);
    } else {
      MadeHolds(c, r, i);
    }
  }

  lemma MadeHolds(c: Config, r: Run, i: nat)
    requires IsRun(c, r) && c.window != 0 && Passed(r, i)
    ensures Holds(r.states[i + 1], Key(r.ops[i].ip, r.ops[i].cls), Made(r, i))
  {
    assert Steps(c, r, i);
  }

  lemma RunHoldsNext(c: Config, r: Run, i: nat, k: nat)
    requires IsRun(c, r) && c.window != 0 && Passed(r, i) && r.ops[i].cls in CLASSES && k < |r.ops|
    requires !GivesUp(r, k, Key(r.ops[i].ip, r.ops[i].cls), r.outs[i].slot) && Live(Made(r, i), r.ops[k].now)
    requires Holds(r.states[k], Key(r.ops[i].ip, r.ops[i].cls), Made(r, i))
    ensures Holds(r.states[k + 1], Key(r.ops[i].ip, r.ops[i].cls), Made(r, i))
  {
    assert Steps(c, r, k);
    RunValid(c, r, k);
    StepHolds(c, r.states[k], r.ops[k], r.ops[i].ip, r.ops[i].cls, Made(r, i));
  }

  /** Two alerts of one source that pass, the second of the same or a lower class, are at least the window
      of the first apart, unless the slot of the first was released or evicted in between. */
  lemma PassesAreSpaced(c: Config, r: Run, i: nat, j: nat)
    requires IsRun(c, r) && c.window != 0 && i < j && Passed(r, i) && Passed(r, j)
    requires r.ops[i].ip == r.ops[j].ip && r.ops[i].cls in CLASSES && Rank(r.ops[j].cls) <= Rank(r.ops[i].cls)
    requires forall m :: i < m < j ==> !GivesUp(r, m, Key(r.ops[i].ip, r.ops[i].cls), r.outs[i].slot)
    ensures r.ops[i].now + r.ops[i].win <= r.ops[j].now
  {
    if Live(Made(r, i), r.ops[j].now) {
      RunHolds(c, r, i, j, r.ops[j].now);
      assert Steps(c, r, j);
      assert Cooling(r.states[j].seen, r.ops[i].ip, r.ops[i].cls, r.ops[j].now);
      assert false;
    }
  }

  /** Why the first alert needs a class: the slot of one without a class suppresses nothing. */
  lemma ClasslessSuppressesNothing(seen: map<string, Entry>, of: string, e: Entry, ip: string, cls: Class, now: Time)
    ensures Suppressed(seen[Key(of, NoClass) := e], ip, cls, now) <==> Suppressed(seen, ip, cls, now)
  {
    forall k | k in CLASSES ensures Key(ip, k) != Key(of, NoClass) {
      if Key(ip, k) == Key(of, NoClass) {
        KeyInjective(ip, k, of, NoClass);
        assert false;
      }
    }
  }

  /** Two alerts without a class pass at the same time. */
  lemma ClasslessNotSpaced(c: Config, ip: string, win: int, now: Time) returns (r: Run)
    requires c.window != 0
    ensures IsRun(c, r) && Passed(r, 0) && Passed(r, 1) && r.ops[0] == r.ops[1] == Allow(ip, NoClass, win, now)
  {
    var op := Allow(ip, NoClass, win, now);
    var one := OnePass(c, op);
    RunExtends(c, one, op);
    r := Extend(c, one, op);
    assert Steps(c, r, 1);
    ClasslessSuppressesNothing(map[], ip, Entry(now, win, 1), ip, NoClass, now);
    assert !Suppressed(map[], ip, NoClass, now);
  }

  lemma OnePass(c: Config, op: Op) returns (r: Run)
    requires c.window != 0 && op.Allow?
    ensures IsRun(c, r) && r.ops == [op] && Passed(r, 0)
    ensures Last(r).seen == map[Key(op.ip, op.cls) := Entry(op.now, op.win, 1)]
  {
    assert IsRun(c, START);
    RunExtends(c, START, op);
    r := Extend(c, START, op);
    assert Steps(c, r, 0);
  }

  // ---------- slots ----------

  ghost predicate SlotFree(s: State, slot: nat) {
    forall k :: k in s.seen ==> s.seen[k].slot != slot
  }

  /** Nothing but key holds the slot. */
  ghost predicate OnlyFor(s: State, slot: nat, key: string) {
    forall k :: k in s.seen && s.seen[k].slot == slot ==> k == key
  }

  lemma SlotsAreUnique(c: Config, s: State, a: string, b: string)
    requires Valid(c, s) && a in s.seen && b in s.seen && s.seen[a].slot == s.seen[b].slot
    ensures a == b
  {
    assert a in s.order && b in s.order;
    var i, j := IndexOf(s.order, a), IndexOf(s.order, b);
    assert SlotAt(s, i) == SlotAt(s, j);
  }

  /** An alert that passes takes the next slot, and only for its own key. */
  lemma PassTakesSlot(c: Config, s: State, op: Op)
    requires Valid(c, s) && c.window != 0 && op.Allow? && Step(c, s, op).out.ok
    ensures var r := Step(c, s, op);
      r.out.slot == s.nextSlot + 1 == r.state.nextSlot && OnlyFor(r.state, r.out.slot, r.out.key)
  {
    var r := Step(c, s, op);
    StepValid(c, s, op);
    forall k | k in r.state.seen && r.state.seen[k].slot == r.out.slot ensures k == r.out.key {
      SlotsAreUnique(c, r.state, k, r.out.key);
    }
  }

  lemma RunPassTakesSlot(c: Config, r: Run, i: nat)
    requires IsRun(c, r) && c.window != 0 && Passed(r, i)
    ensures r.outs[i].slot == r.states[i].nextSlot + 1 == r.states[i + 1].nextSlot
    ensures OnlyFor(r.states[i + 1], r.outs[i].slot, r.outs[i].key)
  {
    RunValid(c, r, i);
    assert Steps(c, r, i);
    PassTakesSlot(c, r.states[i], r.ops[i]);
  }

  lemma StepSlots(c: Config, s: State, op: Op, slot: nat, key: string)
    requires Linked(s) && slot <= s.nextSlot
    ensures slot <= Step(c, s, op).state.nextSlot
    ensures SlotFree(s, slot) ==> SlotFree(Step(c, s, op).state, slot)
    ensures OnlyFor(s, slot, key) ==> OnlyFor(Step(c, s, op).state, slot, key)
  {
    match op {
      case Allow(_, _, _, _) => ReadyKeeps(c, s, Key(op.ip, op.cls), op.now);
      case Release(_, _, _) =>
      case Cleanup(_) => SweepFrontKeeps(s, op.now);
    }
  }

  lemma RunStepSlots(c: Config, r: Run, n: nat, slot: nat, key: string)
    requires IsRun(c, r) && n < |r.ops| && slot <= r.states[n].nextSlot
    ensures slot <= r.states[n + 1].nextSlot
    ensures SlotFree(r.states[n], slot) ==> SlotFree(r.states[n + 1], slot)
    ensures OnlyFor(r.states[n], slot, key) ==> OnlyFor(r.states[n + 1], slot, key)
  {
    assert Steps(c, r, n);
    StepSlots(c, r.states[n], r.ops[n], slot, key);
  }

  lemma {:induction false} RunSlots(c: Config, r: Run, k: nat, n: nat, slot: nat, key: string)
    requires IsRun(c, r) && k <= n <= |r.ops| && slot <= r.states[k].nextSlot
    ensures slot <= r.states[n].nextSlot
    ensures SlotFree(r.states[k], slot) ==> SlotFree(r.states[n], slot)
    ensures OnlyFor(r.states[k], slot, key) ==> OnlyFor(r.states[n], slot, key)
    decreases n
  {
    if k < n {
      RunSlots(c, r, k, n - 1, slot, key);
      RunStepSlots(c, r, n - 1, slot, key);
    }
  }

  /** A release with the slot of an earlier alert never frees the slot of a later one. */
  lemma StaleReleaseIsHarmless(c: Config, r: Run, i: nat, j: nat, s: State, now: Time)
    requires IsRun(c, r) && c.window != 0 && i < j && Passed(r, i) && Passed(r, j)
    requires Linked(s) && Holds(s, r.outs[j].key, Made(r, j))
    ensures Step(c, s, Release(r.outs[j].key, r.outs[i].slot, now)).state == s
  {
    RunPassTakesSlot(c, r, i);
    RunPassTakesSlot(c, r, j);
    RunSlots(c, r, i + 1, j, r.outs[i].slot, "");
  }

  lemma ReleaseFrees(c: Config, s: State, op: Op)
    requires Linked(s) && op.Release? && op.key != "" && OnlyFor(s, op.slot, op.key)
    ensures SlotFree(Step(c, s, op).state, op.slot)
  {
  }

  lemma PassedKey(c: Config, r: Run, i: nat)
    requires IsRun(c, r) && c.window != 0 && Passed(r, i)
    ensures r.outs[i].key != ""
  {
    assert Steps(c, r, i);
    assert |Key(r.ops[i].ip, r.ops[i].cls)| > 0;
  }

  /** Once a slot was released nothing holds it ever again, so the source can be reported anew. */
  lemma ReleasedForGood(c: Config, r: Run, i: nat, m: nat, n: nat)
    requires IsRun(c, r) && c.window != 0 && Passed(r, i) && i < m < n <= |r.ops|
    requires r.ops[m].Release? && r.ops[m].key == r.outs[i].key && r.ops[m].slot == r.outs[i].slot
    ensures SlotFree(r.states[n], r.outs[i].slot)
  {
    var slot, key := r.outs[i].slot, r.outs[i].key;
    PassedKey(c, r, i);
    RunPassTakesSlot(c, r, i);
    RunSlots(c, r, i + 1, m, slot, key);
    RunSlots(c, r, i + 1, m + 1, slot, key);
    assert Steps(c, r, m);
    ReleaseFrees(c, r.states[m], r.ops[m]);
    RunSlots(c, r, m + 1, n, slot, key);
  }
}
