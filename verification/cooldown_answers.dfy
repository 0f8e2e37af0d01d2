/** Exactly which alerts the cooldown filter lets through, told from its operations and answers. */
module CooldownAnswers {
  import opened Fifo
  import opened Severity
  import opened Cooldown
  import opened CooldownRuns

  // ---------- what the filter holds ----------

  /** The i-th operation took the slot of e under key, and nothing has given it up since. */
  ghost predicate Origin(r: Run, n: nat, key: string, e: Entry, i: nat) {
    && i < n <= |r.ops| && Passed(r, i) && Key(r.ops[i].ip, r.ops[i].cls) == key && Made(r, i) == e
    && forall m :: i < m < n ==> !GivesUp(r, m, key, e.slot)
  }

  /** Every entry comes from a passed alert whose slot was not given up. */
  ghost predicate AllMade(r: Run, n: nat)
    requires n < |r.states|
  {
    forall k :: k in r.states[n].seen ==> exists i: nat :: Origin(r, n, k, r.states[n].seen[k], i)
  }

  lemma SlotsDiffer(c: Config, s: State, j: string, k: string)
    requires Valid(c, s) && j in s.seen && k in s.seen && s.seen[j].slot == s.seen[k].slot
    ensures j == k
  {
    var a, b := IndexOf(s.order, j), IndexOf(s.order, k);
    assert SlotAt(s, a) == SlotAt(s, b);
  }

  /** The evicted entry is one that is held, and it is gone. */
  lemma EvictedWas(c: Config, s: State, op: Op)
    requires Linked(s) && op.Allow? && Step(c, s, op).out.evicted.Some?
    ensures exists k :: k in s.seen && s.seen[k] == Step(c, s, op).out.evicted.value && k != Key(op.ip, op.cls) && k !in Step(c, s, op).state.seen
  {
    var key := Key(op.ip, op.cls);
    SweepFrontKeeps(s, op.now);
    var swept := SweepFront(s, op.now);
    var k := Evictee(c, swept).value;
    assert k in s.seen && k !in Detach(swept, k).seen;
  }

  /** An entry that stays was neither released nor evicted. */
  lemma StepStays(c: Config, s: State, op: Op, k: string)
    requires Valid(c, s) && c.window != 0 && k != "" && k in Step(c, s, op).state.seen
    requires !(op.Allow? && Step(c, s, op).out.ok && Key(op.ip, op.cls) == k)
    ensures k in s.seen && Step(c, s, op).state.seen[k] == s.seen[k]
    ensures !(op.Release? && op.key == k && op.slot == s.seen[k].slot)
    ensures Step(c, s, op).out.evicted.Some? ==> Step(c, s, op).out.evicted.value.slot != s.seen[k].slot
  {
    match op {
      case Allow(_, _, _, _) =>
        ReadyKeeps(c, s, Key(op.ip, op.cls), op.now);
        if Step(c, s, op).out.evicted.Some? {
          EvictedWas(c, s, op);
          var j :| j in s.seen && s.seen[j] == Step(c, s, op).out.evicted.value && j !in Step(c, s, op).state.seen;
          if s.seen[j].slot == s.seen[k].slot {
            SlotsDiffer(c, s, j, k);
          }
        }
      case Release(_, _, _) =>
      case Cleanup(_) => SweepFrontKeeps(s, op.now);
    }
  }

  lemma OriginLasts(c: Config, r: Run, n: nat, k: string, i: nat)
    requires IsRun(c, r) && c.window != 0 && n < |r.ops| && k in r.states[n + 1].seen && k in r.states[n].seen
    requires !(Passed(r, n) && Key(r.ops[n].ip, r.ops[n].cls) == k)
    requires Origin(r, n, k, r.states[n].seen[k], i)
    ensures Origin(r, n + 1, k, r.states[n + 1].seen[k], i)
  {
    assert Steps(c, r, n);
    RunValid(c, r, n);
    assert k == Key(r.ops[i].ip, r.ops[i].cls) != "";
    StepStays(c, r.states[n], r.ops[n], k);
  }

  lemma NextMade(c: Config, r: Run, n: nat)
    requires IsRun(c, r) && c.window != 0 && n < |r.ops| && AllMade(r, n)
    ensures AllMade(r, n + 1)
  {
    var next := n + 1;
    forall k | k in r.states[next].seen ensures exists i: nat :: Origin(r, next, k, r.states[next].seen[k], i) {
      if Passed(r, n) && Key(r.ops[n].ip, r.ops[n].cls) == k {
        MadeHolds(c, r, n);
        assert Origin(r, next, k, r.states[next].seen[k], n);
      } else {
        KeptWas(c, r, n, k);
        var i: nat :| Origin(r, n, k, r.states[n].seen[k], i);
        OriginLasts(c, r, n, k, i);
      }
    }
  }

  lemma KeptWas(c: Config, r: Run, n: nat, k: string)
    requires IsRun(c, r) && c.window != 0 && n < |r.ops| && k in r.states[n + 1].seen
    requires !(Passed(r, n) && Key(r.ops[n].ip, r.ops[n].cls) == k)
    ensures k in r.states[n].seen
  {
    assert Steps(c, r, n);
    match r.ops[n] {
      case Allow(_, _, _, now) => ReadyKeeps(c, r.states[n], Key(r.ops[n].ip, r.ops[n].cls), now);
      case Release(_, _, _) =>
      case Cleanup(now) => SweepFrontKeeps(r.states[n], now);
    }
  }

  lemma {:induction false} RunMade(c: Config, r: Run, n: nat)
    requires IsRun(c, r) && c.window != 0 && n <= |r.ops|
    ensures AllMade(r, n)
  {
    if n > 0 {
      RunMade(c, r, n - 1);
      NextMade(c, r, n - 1);
    }
  }

  // ---------- answers ----------

  /** A scan is above an attack, an attack above a probe, and a probe above no class. */
  predicate NotBelow(a: Class, b: Class) {
    match a
    case Scan => true
    case Attack => b != Scan
    case Probe => b == Probe || b == NoClass
    case NoClass => b == NoClass
  }

  /** The i-th alert bars the n-th: it passed for the same source, its class is not lower, its window reaches beyond
      now, and its slot was not given up in between. */
  predicate Bars(r: Run, n: nat, i: nat) {
    && i < n < |r.ops| && r.ops[n].Allow? && Passed(r, i) && r.ops[i].ip == r.ops[n].ip
    && r.ops[i].cls != NoClass && NotBelow(r.ops[i].cls, r.ops[n].cls)
    && r.ops[n].now < r.ops[i].now + r.ops[i].win
    && forall m :: i < m < n ==> !GivesUp(r, m, r.outs[i].key, r.outs[i].slot)
  }

  lemma AnswerKey(c: Config, r: Run, i: nat)
    requires IsRun(c, r) && c.window != 0 && Passed(r, i)
    ensures r.outs[i].key == Key(r.ops[i].ip, r.ops[i].cls)
  {
    assert Steps(c, r, i);
  }

  lemma BarredIsRefused(c: Config, r: Run, n: nat, i: nat)
    requires IsRun(c, r) && c.window != 0 && Bars(r, n, i)
    ensures !r.outs[n].ok
  {
    AnswerKey(c, r, i);
    assert r.ops[n - 1].now <= r.ops[n].now;
    RunHolds(c, r, i, n, r.ops[n].now);
    assert Steps(c, r, n);
    RankOrders(r.ops[i].cls, r.ops[n].cls);
    assert Cooling(r.states[n].seen, r.ops[i].ip, r.ops[i].cls, r.ops[n].now);
  }

  lemma RankOrders(a: Class, b: Class)
    ensures NotBelow(a, b) <==> Rank(b) <= Rank(a)
    ensures a in CLASSES <==> a != NoClass
  {
  }

  lemma RefusedCools(c: Config, r: Run, n: nat) returns (cls: Class)
    requires IsRun(c, r) && n < |r.ops| && r.ops[n].Allow? && !r.outs[n].ok
    ensures c.window != 0 && cls != NoClass && NotBelow(cls, r.ops[n].cls) && Cooling(r.states[n].seen, r.ops[n].ip, cls, r.ops[n].now)
  {
    assert Steps(c, r, n);
    cls :| cls in CLASSES && Rank(cls) >= Rank(r.ops[n].cls) && Cooling(r.states[n].seen, r.ops[n].ip, cls, r.ops[n].now);
    RankOrders(cls, r.ops[n].cls);
  }

  lemma RefusedIsBarred(c: Config, r: Run, n: nat) returns (i: nat)
    requires IsRun(c, r) && n < |r.ops| && r.ops[n].Allow? && !r.outs[n].ok
    ensures c.window != 0 && Bars(r, n, i)
  {
    var cls := RefusedCools(c, r, n);
    var k := Key(r.ops[n].ip, cls);
    RunMade(c, r, n);
    i :| Origin(r, n, k, r.states[n].seen[k], i);
    KeyInjective(r.ops[i].ip, r.ops[i].cls, r.ops[n].ip, cls);
    AnswerKey(c, r, i);
  }

  /** An alert is refused if and only if the filter is on and an earlier alert that passed bars it. */
  lemma RefusedIff(c: Config, r: Run, n: nat)
    requires IsRun(c, r) && n < |r.ops| && r.ops[n].Allow?
    ensures !r.outs[n].ok <==> c.window != 0 && exists i: nat :: Bars(r, n, i)
  {
    if !r.outs[n].ok {
      var i := RefusedIsBarred(c, r, n);
    } else if c.window != 0 {
      forall i: nat ensures !Bars(r, n, i) {
        if Bars(r, n, i) { BarredIsRefused(c, r, n, i); }
      }
    }
  }

  /** In particular an alert of a higher class passes right behind one of a lower class. */
  lemma HigherClassPasses(c: Config, ip: string, low: Class, high: Class, win: int, now: Time, later: Time) returns (r: Run)
    requires c.window != 0 && now <= later && !NotBelow(low, high)
    ensures IsRun(c, r) && r.ops == [Allow(ip, low, win, now), Allow(ip, high, win, later)] && r.outs[0].ok && r.outs[1].ok
  {
    var one := OnePass(c, Allow(ip, low, win, now));
    RunExtends(c, one, Allow(ip, high, win, later));
    r := Extend(c, one, Allow(ip, high, win, later));
    RefusedIff(c, r, 1);
  }

  // ---------- evictions ----------

  /** A live entry is evicted only for an alert that finds the filter full, and it is the oldest one. */
  lemma EvictsOldestWhenFull(c: Config, r: Run, n: nat)
    requires IsRun(c, r) && n < |r.ops| && r.outs[n].evicted.Some?
    ensures var s, e := r.states[n], r.outs[n].evicted.value;
      && Passed(r, n) && |s.seen| >= c.maxEntries
      && Live(e, r.ops[n].now)
      && forall k :: k in s.seen && Live(s.seen[k], r.ops[n].now) ==> e.slot <= s.seen[k].slot
  {
    assert Steps(c, r, n);
    RunValid(c, r, n);
    var s, now := r.states[n], r.ops[n].now;
    SweepFrontKeeps(s, now);
    SweepFrontValid(c, s, now);
    var swept := SweepFront(s, now);
    var e := swept.seen[swept.order[0]];
    forall k | k in s.seen && Live(s.seen[k], now) ensures e.slot <= s.seen[k].slot {
      assert k in swept.seen;
      FrontIsOldest(c, swept, k);
    }
  }

  lemma FrontIsOldest(c: Config, s: State, k: string)
    requires Valid(c, s) && k in s.seen
    ensures s.order != [] && s.order[0] in s.seen && s.seen[s.order[0]].slot <= s.seen[k].slot
  {
    var j := IndexOf(s.order, k);
    assert SlotAt(s, 0) <= SlotAt(s, j);
  }
}
