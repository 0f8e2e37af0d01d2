/** What the token buckets admit over a run, and what sweeping changes. */
module RateRuns {
  import opened RateLimit

  datatype Op = Op(source: string, now: real)

  /** states[n] is the limiter before packet n, outs[n] the decision on it. */
  datatype Run = Run(ops: seq<Op>, states: seq<State>, outs: seq<bool>)

  ghost predicate Steps(c: Config, r: Run, n: nat)
    requires Positive(c)
  {
    n < |r.ops| && n < |r.outs| && n + 1 < |r.states| ==>
      && Allow(c, r.states[n], r.ops[n].source, r.ops[n].now) == Result(r.states[n + 1], r.outs[n])
      && (n + 1 < |r.ops| ==> r.ops[n].now <= r.ops[n + 1].now)
  }

  ghost predicate IsRun(c: Config, r: Run)
    requires Positive(c)
  {
    && |r.states| == |r.ops| + 1 && |r.outs| == |r.ops|
    && (exists t :: r.states[0] == State(map[], Bucket(c.global, t), t) && (|r.ops| > 0 ==> t <= r.ops[0].now))
    && forall n: nat :: Steps(c, r, n)
  }

  // ---- one bucket ----

  ghost predicate Sound(b: Bucket, burst: real, now: real) {
    0.0 <= b.tokens <= burst && b.last <= now
  }

  lemma Grows(d: real, rate: real)
    requires d >= 0.0 && rate >= 0.0
    ensures d * rate >= 0.0
  {
  }

  lemma Splits(a: real, b: real, c: real, rate: real)
    ensures (c - a) * rate == (b - a) * rate + (c - b) * rate
  {
  }

  function Capped(t: real, burst: real): real {
    if t > burst then burst else t
  }

  /** The level of a bucket, given what time has added to it. */
  lemma LevelIs(b: Bucket, now: real, rate: real, burst: real, gain: real)
    requires Sound(b, burst, now) && gain == (now - b.last) * rate
    ensures Refilled(b, now, rate, burst) == Capped(b.tokens + gain, burst)
  {
    assert now == b.last ==> gain == 0.0;
  }

  lemma CapGrows(t: real, x: real, y: real, burst: real)
    requires 0.0 <= t <= burst && x >= 0.0 && y >= 0.0
    ensures 0.0 <= Capped(t + x, burst) <= burst && Capped(t + (x + y), burst) <= Capped(t + x, burst) + y
  {
  }

  /** The level of a bucket at a time is sound and grows at most with the rate. */
  lemma LevelGrows(b: Bucket, now: real, later: real, rate: real, burst: real)
    requires Sound(b, burst, now) && now <= later && rate >= 0.0
    ensures 0.0 <= Refilled(b, now, rate, burst) <= burst
    ensures Refilled(b, later, rate, burst) <= Refilled(b, now, rate, burst) + (later - now) * rate
  {
    var x, y, z := (now - b.last) * rate, (later - now) * rate, (later - b.last) * rate;
    Grows(now - b.last, rate);
    Grows(later - now, rate);
    Splits(b.last, now, later, rate);
    LevelIs(b, now, rate, burst, x);
    LevelIs(b, later, rate, burst, z);
    CapGrows(b.tokens, x, y, burst);
  }

  /** A step on a bucket: a take, or nothing; one says that a packet got through. */
  ghost predicate Moves(b: Bucket, d: Bucket, one: bool, now: real, rate: real, burst: real) {
    (d == b && !one) || (d == Take(b, now, rate, burst).bucket && (one ==> Take(b, now, rate, burst).ok))
  }

  lemma MoveSpends(b: Bucket, d: Bucket, one: bool, now: real, rate: real, burst: real)
    requires Sound(b, burst, now) && rate >= 0.0 && Moves(b, d, one, now, rate, burst)
    ensures Sound(d, burst, now)
    ensures (if one then 1.0 else 0.0) + Refilled(d, now, rate, burst) <= Refilled(b, now, rate, burst)
  {
    LevelGrows(b, now, now, rate, burst);
  }

  /** A bucket over consecutive packets. */
  datatype Trail = Trail(buckets: seq<Bucket>, times: seq<real>, ones: seq<bool>)

  ghost predicate Follows(t: Trail, k: nat, rate: real, burst: real) {
    k < |t.times| && k < |t.ones| && k + 1 < |t.buckets| ==>
      && Moves(t.buckets[k], t.buckets[k + 1], t.ones[k], t.times[k], rate, burst)
      && (k + 1 < |t.times| ==> t.times[k] <= t.times[k + 1])
  }

  ghost function Count(ones: seq<bool>): nat {
    if ones == [] then 0 else Count(ones[..|ones| - 1]) + (if ones[|ones| - 1] then 1 else 0)
  }

  /** The level of a bucket before and after each packet, and what time has added since the first. */
  datatype Ledger = Ledger(before: seq<real>, after: seq<real>, gain: seq<real>, ones: seq<bool>)

  ghost predicate Balanced(l: Ledger, k: nat) {
    k < |l.ones| && |l.before| == |l.after| == |l.gain| == |l.ones| ==>
      && l.after[k] + (if l.ones[k] then 1.0 else 0.0) <= l.before[k]
      && (k > 0 ==> l.before[k] <= l.after[k - 1] + l.gain[k] - l.gain[k - 1])
  }

  lemma {:induction false} LedgerBound(l: Ledger, n: nat, burst: real)
    requires |l.before| == |l.after| == |l.gain| == |l.ones| && 0 < n <= |l.ones|
    requires (forall k: nat :: Balanced(l, k)) && l.before[0] <= burst && l.gain[0] == 0.0
    ensures Count(l.ones[..n]) as real + l.after[n - 1] <= burst + l.gain[n - 1]
    decreases n
  {
    assert Balanced(l, n - 1);
    assert l.ones[..n][..n - 1] == l.ones[..n - 1];
    if n > 1 {
      LedgerBound(l, n - 1, burst);
    } else {
      assert l.ones[..0] == [];
    }
  }

  ghost predicate TrailOk(t: Trail, rate: real, burst: real) {
    && |t.times| == |t.ones| && |t.buckets| == |t.ones| + 1 && 0 < |t.ones| && rate >= 0.0
    && (forall k: nat :: Follows(t, k, rate, burst)) && Sound(t.buckets[0], burst, t.times[0])
  }

  lemma {:induction false} TrailSound(t: Trail, k: nat, rate: real, burst: real)
    requires TrailOk(t, rate, burst) && k < |t.ones|
    ensures Sound(t.buckets[k], burst, t.times[k]) && Sound(t.buckets[k + 1], burst, t.times[k])
  {
    assert Follows(t, k, rate, burst);
    if k > 0 {
      TrailSound(t, k - 1, rate, burst);
      assert Follows(t, k - 1, rate, burst);
    }
    MoveSpends(t.buckets[k], t.buckets[k + 1], t.ones[k], t.times[k], rate, burst);
  }

  ghost function Before(t: Trail, k: nat, rate: real, burst: real): real
    requires k < |t.times| && k < |t.buckets|
  {
    Refilled(t.buckets[k], t.times[k], rate, burst)
  }

  ghost function After(t: Trail, k: nat, rate: real, burst: real): real
    requires k < |t.times| && k + 1 < |t.buckets|
  {
    Refilled(t.buckets[k + 1], t.times[k], rate, burst)
  }

  ghost function Gain(t: Trail, k: nat, rate: real): real
    requires k < |t.times|
  {
    (t.times[k] - t.times[0]) * rate
  }

  lemma TrailSpends(t: Trail, k: nat, rate: real, burst: real)
    requires TrailOk(t, rate, burst) && k < |t.ones|
    ensures After(t, k, rate, burst) + (if t.ones[k] then 1.0 else 0.0) <= Before(t, k, rate, burst)
    ensures 0.0 <= After(t, k, rate, burst) && Before(t, k, rate, burst) <= burst
  {
    TrailSound(t, k, rate, burst);
    assert Follows(t, k, rate, burst);
    MoveSpends(t.buckets[k], t.buckets[k + 1], t.ones[k], t.times[k], rate, burst);
    LevelGrows(t.buckets[k], t.times[k], t.times[k], rate, burst);
    LevelGrows(t.buckets[k + 1], t.times[k], t.times[k], rate, burst);
  }

  lemma TrailGrows(t: Trail, k: nat, rate: real, burst: real)
    requires TrailOk(t, rate, burst) && 0 < k < |t.ones|
    ensures Before(t, k, rate, burst) <= After(t, k - 1, rate, burst) + Gain(t, k, rate) - Gain(t, k - 1, rate)
  {
    TrailSound(t, k - 1, rate, burst);
    assert Follows(t, k - 1, rate, burst);
    var b, now, later := t.buckets[k], t.times[k - 1], t.times[k];
    var x, y, z := Gain(t, k - 1, rate), (later - now) * rate, Gain(t, k, rate);
    LevelGrows(b, now, later, rate, burst);
    Splits(t.times[0], now, later, rate);
    assert z == x + y;
  }

  ghost function LedgerOf(t: Trail, rate: real, burst: real): Ledger
    requires TrailOk(t, rate, burst)
  {
    var n := |t.ones|;
    Ledger(
      seq(n, k requires 0 <= k < n => Before(t, k, rate, burst)),
      seq(n, k requires 0 <= k < n => After(t, k, rate, burst)),
      seq(n, k requires 0 <= k < n => Gain(t, k, rate)),
      t.ones)
  }

  lemma LedgerBalances(t: Trail, k: nat, rate: real, burst: real)
    requires TrailOk(t, rate, burst)
    ensures Balanced(LedgerOf(t, rate, burst), k)
  {
    var l := LedgerOf(t, rate, burst);
    if k < |t.ones| {
      TrailSpends(t, k, rate, burst);
      if k > 0 {
        TrailGrows(t, k, rate, burst);
      }
      assert l.before[k] == Before(t, k, rate, burst) && l.after[k] == After(t, k, rate, burst) && l.gain[k] == Gain(t, k, rate);
      assert k > 0 ==> l.after[k - 1] == After(t, k - 1, rate, burst) && l.gain[k - 1] == Gain(t, k - 1, rate);
    }
  }

  lemma LedgerEnds(t: Trail, rate: real, burst: real)
    requires TrailOk(t, rate, burst)
    ensures var l, n := LedgerOf(t, rate, burst), |t.ones|;
      l.before[0] <= burst && l.gain[0] == 0.0 && l.after[n - 1] >= 0.0 && l.gain[n - 1] == Gain(t, n - 1, rate)
  {
    var n := |t.ones|;
    TrailSpends(t, 0, rate, burst);
    TrailSpends(t, n - 1, rate, burst);
  }

  /** The packets of a trail get at most the burst and what time adds. */
  lemma BudgetBound(t: Trail, rate: real, burst: real)
    requires TrailOk(t, rate, burst)
    ensures Count(t.ones) as real <= burst + Gain(t, |t.ones| - 1, rate)
  {
    var l, n := LedgerOf(t, rate, burst), |t.ones|;
    forall k: nat ensures Balanced(l, k) {
      LedgerBalances(t, k, rate, burst);
    }
    LedgerEnds(t, rate, burst);
    LedgerBound(l, n, burst);
    assert t.ones[..n] == t.ones;
  }

  // ---- every run ----

  ghost predicate Timely(c: Config, s: State, now: real) {
    Sound(s.global, c.global, now) && forall k :: k in s.sources ==> Sound(s.sources[k], c.burst, now)
  }

  lemma TakeSound(b: Bucket, now: real, rate: real, burst: real)
    requires Sound(b, burst, now) && rate >= 0.0
    ensures Sound(Take(b, now, rate, burst).bucket, burst, now)
  {
    MoveSpends(b, Take(b, now, rate, burst).bucket, false, now, rate, burst);
  }

  lemma AllowTimely(c: Config, s: State, source: string, now: real)
    requires Positive(c) && Timely(c, s, now)
    ensures Timely(c, Allow(c, s, source, now).state, now)
  {
    var t := Ready(c, s, source, now);
    assert Timely(c, t, now);
    if source in t.sources {
      TakeSound(t.sources[source], now, c.perSource, c.burst);
    }
    TakeSound(t.global, now, c.global, c.global);
  }

  lemma {:induction false} RunTimely(c: Config, r: Run, n: nat)
    requires Positive(c) && IsRun(c, r) && n < |r.ops|
    ensures Timely(c, r.states[n], r.ops[n].now)
  {
    if n > 0 {
      RunTimely(c, r, n - 1);
      assert Steps(c, r, n - 1);
      AllowTimely(c, r.states[n - 1], r.ops[n - 1].source, r.ops[n - 1].now);
    }
  }

  ghost function Times(r: Run, m: nat, n: nat): seq<real>
    requires m <= n <= |r.ops|
  {
    seq(n - m, i requires 0 <= i < n - m => r.ops[m + i].now)
  }

  // ---- the global bucket ----

  ghost function GlobalTrail(r: Run, m: nat, n: nat): Trail
    requires m <= n <= |r.ops| == |r.outs| && |r.states| == |r.ops| + 1
  {
    Trail(seq(n - m + 1, i requires 0 <= i < n - m + 1 => r.states[m + i].global), Times(r, m, n), r.outs[m..n])
  }

  lemma GlobalMoves(c: Config, s: State, source: string, now: real)
    requires Positive(c)
    ensures var r := Allow(c, s, source, now); Moves(s.global, r.state.global, r.ok, now, c.global, c.global)
  {
  }

  lemma GlobalFollows(c: Config, r: Run, m: nat, n: nat, k: nat)
    requires Positive(c) && IsRun(c, r) && m < n <= |r.ops| && k < n - m
    ensures Follows(GlobalTrail(r, m, n), k, c.global, c.global)
  {
    assert Steps(c, r, m + k);
    GlobalMoves(c, r.states[m + k], r.ops[m + k].source, r.ops[m + k].now);
  }

  /** Packets admitted in any stretch of a run: at most one burst of the global bucket and its rate over time. */
  lemma GlobalBudget(c: Config, r: Run, m: nat, n: nat)
    requires Positive(c) && IsRun(c, r) && m < n <= |r.ops|
    ensures Count(r.outs[m..n]) as real <= c.global + (r.ops[n - 1].now - r.ops[m].now) * c.global
  {
    var t := GlobalTrail(r, m, n);
    forall k: nat ensures Follows(t, k, c.global, c.global) {
      if k < n - m {
        GlobalFollows(c, r, m, n, k);
      }
    }
    RunTimely(c, r, m);
    BudgetBound(t, c.global, c.global);
  }
}
