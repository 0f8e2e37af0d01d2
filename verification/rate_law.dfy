/** Exactly which packets a token bucket serves. */
module RateLaw {
  import opened RateLimit
  import opened RateRuns

  /** One bucket over consecutive packets: which of them ask it for a token and which get one. */
  datatype Meter = Meter(times: seq<real>, asks: seq<bool>, ones: seq<bool>)

  ghost predicate Shaped(t: Meter) {
    |t.times| == |t.asks| == |t.ones| && forall i, j :: 0 <= i <= j < |t.times| ==> t.times[i] <= t.times[j]
  }

  /** What the bucket may still give at packet n, counted from packet m: a full burst, the refill since, less the tokens
      taken since. */
  ghost function Slack(t: Meter, m: nat, n: nat, rate: real, burst: real): real
    requires Shaped(t) && m <= n < |t.times|
  {
    burst + (t.times[n] - t.times[m]) * rate - Count(t.ones[m..n]) as real
  }

  /** A packet gets a token if and only if it asks for one and, counted from every packet up to itself, a whole token is
      left. */
  ghost predicate Lawful(t: Meter, n: nat, rate: real, burst: real)
    requires Shaped(t)
  {
    n < |t.times| ==> (t.ones[n] <==> t.asks[n] && forall m: nat :: m <= n ==> Slack(t, m, n, rate, burst) >= 1.0)
  }

  // ---- the bucket keeps the law ----

  /** The buckets between the packets. */
  ghost predicate Turns(t: Meter, bs: seq<Bucket>, k: nat, rate: real, burst: real)
    requires Shaped(t) && |bs| == |t.times| + 1
  {
    k < |t.times| ==>
      if t.asks[k] then Taken(bs[k + 1], t.ones[k]) == Take(bs[k], t.times[k], rate, burst)
      else bs[k + 1] == bs[k] && !t.ones[k]
  }

  ghost predicate Full(b: Bucket, now: real, rate: real, burst: real) {
    Sound(b, burst, now) && Refilled(b, now, rate, burst) == burst
  }

  /** A meter of a bucket that starts full. */
  ghost predicate Metered(t: Meter, bs: seq<Bucket>, rate: real, burst: real) {
    && Shaped(t) && |bs| == |t.times| + 1 && rate >= 0.0
    && (|t.times| > 0 ==> Full(bs[0], t.times[0], rate, burst))
    && forall k: nat :: Turns(t, bs, k, rate, burst)
  }

  ghost function Level(t: Meter, bs: seq<Bucket>, k: nat, rate: real, burst: real): real
    requires k < |t.times| && k < |bs|
  {
    Refilled(bs[k], t.times[k], rate, burst)
  }

  lemma {:induction false} BucketSound(t: Meter, bs: seq<Bucket>, k: nat, rate: real, burst: real)
    requires Metered(t, bs, rate, burst) && k < |t.times|
    ensures Sound(bs[k], burst, t.times[k]) && Sound(bs[k + 1], burst, t.times[k])
  {
    if k > 0 {
      BucketSound(t, bs, k - 1, rate, burst);
    }
    assert Turns(t, bs, k, rate, burst);
    if t.asks[k] {
      TakeSound(bs[k], t.times[k], rate, burst);
    }
  }

  lemma TakeLeaves(b: Bucket, now: real, rate: real, burst: real)
    requires Sound(b, burst, now) && rate >= 0.0
    ensures var level, r := Refilled(b, now, rate, burst), Take(b, now, rate, burst);
      && (r.ok <==> level >= 1.0)
      && r.bucket == Bucket(level - (if r.ok then 1.0 else 0.0), now)
  {
  }

  lemma CapTwice(t: real, x: real, y: real, burst: real)
    requires y >= 0.0
    ensures Capped(Capped(t + x, burst) + y, burst) == Capped(t + (x + y), burst)
  {
  }

  /** A level that nothing is taken from grows with time up to the burst. */
  lemma Regrows(b: Bucket, now: real, later: real, rate: real, burst: real, y: real)
    requires Sound(b, burst, now) && now <= later && rate >= 0.0 && y == (later - now) * rate
    ensures Refilled(b, later, rate, burst) == Capped(Refilled(b, now, rate, burst) + y, burst)
  {
    var x, z := (now - b.last) * rate, (later - b.last) * rate;
    Grows(later - now, rate);
    Splits(b.last, now, later, rate);
    LevelIs(b, now, rate, burst, x);
    LevelIs(b, later, rate, burst, z);
    CapTwice(b.tokens, x, y, burst);
  }

  /** What packet k leaves in the bucket at its own time. */
  lemma LevelAfter(t: Meter, bs: seq<Bucket>, k: nat, rate: real, burst: real)
    requires Metered(t, bs, rate, burst) && k < |t.times|
    ensures Sound(bs[k + 1], burst, t.times[k])
    ensures Refilled(bs[k + 1], t.times[k], rate, burst) == Level(t, bs, k, rate, burst) - (if t.ones[k] then 1.0 else 0.0)
    ensures t.ones[k] <==> t.asks[k] && Level(t, bs, k, rate, burst) >= 1.0
  {
    BucketSound(t, bs, k, rate, burst);
    assert Turns(t, bs, k, rate, burst);
    TakeLeaves(bs[k], t.times[k], rate, burst);
  }

  lemma NextLevel(t: Meter, bs: seq<Bucket>, k: nat, rate: real, burst: real, gain: real)
    requires Metered(t, bs, rate, burst) && k + 1 < |t.times| && gain == (t.times[k + 1] - t.times[k]) * rate
    ensures Level(t, bs, k + 1, rate, burst) ==
      Capped(Level(t, bs, k, rate, burst) - (if t.ones[k] then 1.0 else 0.0) + gain, burst)
  {
    LevelAfter(t, bs, k, rate, burst);
    Regrows(bs[k + 1], t.times[k], t.times[k + 1], rate, burst, gain);
  }

  lemma CountNext(ones: seq<bool>, m: nat, n: nat)
    requires m <= n < |ones|
    ensures Count(ones[m..n + 1]) == Count(ones[m..n]) + (if ones[n] then 1 else 0)
  {
    assert ones[m..n + 1][..n - m] == ones[m..n];
  }

  lemma SlackNext(t: Meter, m: nat, n: nat, rate: real, burst: real, gain: real)
    requires Shaped(t) && m <= n && n + 1 < |t.times| && gain == (t.times[n + 1] - t.times[n]) * rate
    ensures Slack(t, m, n + 1, rate, burst) == Slack(t, m, n, rate, burst) - (if t.ones[n] then 1.0 else 0.0) + gain
  {
    CountNext(t.ones, m, n);
    Splits(t.times[m], t.times[n], t.times[n + 1], rate);
  }

  lemma SlackHere(t: Meter, n: nat, rate: real, burst: real)
    requires Shaped(t) && n < |t.times|
    ensures Slack(t, n, n, rate, burst) == burst
  {
    assert t.ones[n..n] == [];
  }

  /** The level is the least slack. */
  ghost predicate LeastSlack(t: Meter, n: nat, rate: real, burst: real, level: real)
    requires Shaped(t) && n < |t.times|
  {
    && (forall m: nat :: m <= n ==> level <= Slack(t, m, n, rate, burst))
    && exists m: nat :: m <= n && level == Slack(t, m, n, rate, burst)
  }

  lemma LeastNext(t: Meter, n: nat, rate: real, burst: real, level: real, next: real, gain: real)
    requires Shaped(t) && n + 1 < |t.times| && LeastSlack(t, n, rate, burst, level)
    requires gain == (t.times[n + 1] - t.times[n]) * rate
    requires next == Capped(level - (if t.ones[n] then 1.0 else 0.0) + gain, burst)
    ensures LeastSlack(t, n + 1, rate, burst, next)
  {
    var k := n + 1;
    SlackHere(t, k, rate, burst);
    forall m: nat | m <= k ensures next <= Slack(t, m, k, rate, burst) {
      if m <= n { SlackNext(t, m, n, rate, burst, gain); }
    }
    if next == burst {
      assert k <= k && next == Slack(t, k, k, rate, burst);
    } else {
      var m: nat :| m <= n && level == Slack(t, m, n, rate, burst);
      SlackNext(t, m, n, rate, burst, gain);
      assert m <= k && next == Slack(t, m, k, rate, burst);
    }
  }

  lemma LevelNext(t: Meter, bs: seq<Bucket>, n: nat, rate: real, burst: real)
    requires Metered(t, bs, rate, burst) && n + 1 < |t.times| && LeastSlack(t, n, rate, burst, Level(t, bs, n, rate, burst))
    ensures LeastSlack(t, n + 1, rate, burst, Level(t, bs, n + 1, rate, burst))
  {
    var gain := (t.times[n + 1] - t.times[n]) * rate;
    NextLevel(t, bs, n, rate, burst, gain);
    LeastNext(t, n, rate, burst, Level(t, bs, n, rate, burst), Level(t, bs, n + 1, rate, burst), gain);
  }

  lemma {:induction false} LevelIsLeast(t: Meter, bs: seq<Bucket>, n: nat, rate: real, burst: real)
    requires Metered(t, bs, rate, burst) && n < |t.times|
    ensures LeastSlack(t, n, rate, burst, Level(t, bs, n, rate, burst))
  {
    if n == 0 {
      SlackHere(t, n, rate, burst);
      assert n <= n && Level(t, bs, n, rate, burst) == Slack(t, n, n, rate, burst);
    } else {
      LevelIsLeast(t, bs, n - 1, rate, burst);
      LevelNext(t, bs, n - 1, rate, burst);
    }
  }

  /** A bucket that starts full serves exactly the packets the law allows. */
  lemma BucketIsLawful(t: Meter, bs: seq<Bucket>, n: nat, rate: real, burst: real)
    requires Metered(t, bs, rate, burst) && n < |t.times|
    ensures Lawful(t, n, rate, burst)
  {
    LevelIsLeast(t, bs, n, rate, burst);
    LevelAfter(t, bs, n, rate, burst);
  }

  /** The law leaves no choice. */
  lemma {:induction false} LawDecides(t: Meter, u: Meter, n: nat, rate: real, burst: real)
    requires Shaped(t) && Shaped(u) && t.times == u.times && t.asks == u.asks && n <= |t.times|
    requires forall k: nat :: k < n ==> Lawful(t, k, rate, burst) && Lawful(u, k, rate, burst)
    ensures t.ones[..n] == u.ones[..n]
  {
    if n > 0 {
      LawDecides(t, u, n - 1, rate, burst);
      SameSlacks(t, u, n - 1, rate, burst);
      assert Lawful(t, n - 1, rate, burst) && Lawful(u, n - 1, rate, burst);
      assert t.ones[..n] == t.ones[..n - 1] + [t.ones[n - 1]] && u.ones[..n] == u.ones[..n - 1] + [u.ones[n - 1]];
    }
  }

  lemma SameSlacks(t: Meter, u: Meter, n: nat, rate: real, burst: real)
    requires Shaped(t) && Shaped(u) && t.times == u.times && n < |t.times| && t.ones[..n] == u.ones[..n]
    ensures forall m: nat :: m <= n ==> Slack(t, m, n, rate, burst) == Slack(u, m, n, rate, burst)
  {
    forall m: nat | m <= n ensures Slack(t, m, n, rate, burst) == Slack(u, m, n, rate, burst) {
      assert t.ones[..n][m..] == t.ones[m..n] && u.ones[..n][m..] == u.ones[m..n];
    }
  }
}
