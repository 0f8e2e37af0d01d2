/** What one source gets, whatever the limiter forgets in between, and what decides on a packet. */
module RateSources {
  import opened Fifo
  import opened RateLimit
  import opened RateRuns
  import opened RateSweep
  import opened RateLaw

  /** The bucket source has at state k, a full one if it is not tracked. */
  ghost function BucketAt(c: Config, r: Run, k: nat, source: string, now: real): Bucket
    requires k < |r.states|
  {
    if source in r.states[k].sources then r.states[k].sources[source] else Bucket(c.burst, now)
  }

  /** The k-th packet is one of source and had room for a bucket. */
  predicate Asks(r: Run, k: nat, source: string)
    requires k < |r.ops| && |r.states| == |r.ops| + 1
  {
    r.ops[k].source == source && HadRoom(r, k)
  }

  /** The bucket of source as if it were never swept: from state m on, every packet of source with room takes from it. */
  ghost function Own(c: Config, r: Run, m: nat, k: nat, source: string): Bucket
    requires m <= k <= |r.ops| && m < |r.ops| && |r.states| == |r.ops| + 1
    decreases k
  {
    if k == m then BucketAt(c, r, m, source, r.ops[m].now)
    else
      var b := Own(c, r, m, k - 1, source);
      if Asks(r, k - 1, source) then Take(b, r.ops[k - 1].now, c.perSource, c.burst).bucket else b
  }

  // ---- full buckets ----

  ghost predicate Filled(c: Config, b: Bucket, now: real) {
    Full(b, now, c.perSource, c.burst)
  }

  lemma FilledStays(c: Config, b: Bucket, now: real, later: real)
    requires Positive(c) && Filled(c, b, now) && now <= later
    ensures Filled(c, b, later)
  {
    var gain := (later - now) * c.perSource;
    Grows(later - now, c.perSource);
    Regrows(b, now, later, c.perSource, c.burst, gain);
  }

  lemma FilledIsFresh(c: Config, b: Bucket, now: real)
    requires Filled(c, b, now)
    ensures Take(b, now, c.perSource, c.burst) == Take(Bucket(c.burst, now), now, c.perSource, c.burst)
  {
  }

  /** The tracked bucket is b, or b is full. */
  ghost predicate Matches(c: Config, s: State, source: string, b: Bucket, now: real) {
    Sound(b, c.burst, now) && if source in s.sources then s.sources[source] == b else Filled(c, b, now)
  }

  lemma MatchesLater(c: Config, s: State, source: string, b: Bucket, now: real, later: real)
    requires Positive(c) && Matches(c, s, source, b, now) && now <= later
    ensures Matches(c, s, source, b, later)
  {
    if source !in s.sources {
      FilledStays(c, b, now, later);
    }
  }

  /** A packet of another source, or one without room, leaves b as it is, or sweeps it when it is full. */
  lemma OtherMatches(c: Config, s: State, source: string, other: string, b: Bucket, now: real)
    requires Positive(c) && Matches(c, s, source, b, now)
    requires other != source || source !in Allow(c, s, other, now).state.sources
    ensures Matches(c, Allow(c, s, other, now).state, source, b, now)
  {
    if source in s.sources && source !in Allow(c, s, other, now).state.sources {
      IdleIsFresh(c, b, now);
    }
  }

  lemma OwnMatches(c: Config, s: State, source: string, b: Bucket, now: real)
    requires Positive(c) && Matches(c, s, source, b, now) && source in Allow(c, s, source, now).state.sources
    ensures var own, r := Take(b, now, c.perSource, c.burst), Allow(c, s, source, now);
      && Matches(c, r.state, source, own.bucket, now)
      && Decided(s.global, r.state.global, own.ok, r.ok, now, c.global)
  {
    TakeSound(b, now, c.perSource, c.burst);
    if source !in s.sources {
      FilledIsFresh(c, b, now);
    }
  }

  /** The global bucket is asked exactly if the packet got that far, and decides then. */
  ghost predicate Decided(g: Bucket, next: Bucket, asked: bool, ok: bool, now: real, rate: real) {
    if asked then Taken(next, ok) == Take(g, now, rate, rate) else next == g && !ok
  }

  lemma RoomlessDecides(c: Config, s: State, source: string, now: real)
    requires Positive(c) && source !in Allow(c, s, source, now).state.sources
    ensures var r := Allow(c, s, source, now); Decided(s.global, r.state.global, true, r.ok, now, c.global)
  {
  }

  // ---- every run ----

  lemma StartMatches(c: Config, r: Run, m: nat, source: string)
    requires Positive(c) && IsRun(c, r) && m < |r.ops|
    ensures Matches(c, r.states[m], source, Own(c, r, m, m, source), r.ops[m].now)
  {
    RunTimely(c, r, m);
  }

  lemma StepMatches(c: Config, r: Run, m: nat, k: nat, source: string)
    requires Positive(c) && IsRun(c, r) && m <= k < |r.ops|
    requires Matches(c, r.states[k], source, Own(c, r, m, k, source), r.ops[k].now)
    ensures Matches(c, r.states[k + 1], source, Own(c, r, m, k + 1, source), r.ops[k].now)
  {
    assert Steps(c, r, k);
    if Asks(r, k, source) {
      OwnMatches(c, r.states[k], source, Own(c, r, m, k, source), r.ops[k].now);
    } else {
      OtherMatches(c, r.states[k], source, r.ops[k].source, Own(c, r, m, k, source), r.ops[k].now);
    }
  }

  lemma {:induction false} RunMatches(c: Config, r: Run, m: nat, k: nat, source: string)
    requires Positive(c) && IsRun(c, r) && m <= k < |r.ops|
    ensures Matches(c, r.states[k], source, Own(c, r, m, k, source), r.ops[k].now)
    decreases k
  {
    if k == m {
      StartMatches(c, r, m, source);
    } else {
      RunMatches(c, r, m, k - 1, source);
      StepMatches(c, r, m, k - 1, source);
      assert Steps(c, r, k - 1);
      MatchesLater(c, r.states[k], source, Own(c, r, m, k, source), r.ops[k - 1].now, r.ops[k].now);
    }
  }

  /** The k-th packet got a token of its source, or needed none. */
  ghost predicate Served(c: Config, r: Run, k: nat)
    requires k < |r.ops| && |r.states| == |r.ops| + 1
  {
    HadRoom(r, k) ==> Take(Own(c, r, 0, k, r.ops[k].source), r.ops[k].now, c.perSource, c.burst).ok
  }

  lemma RunDecides(c: Config, r: Run, k: nat)
    requires Positive(c) && IsRun(c, r) && k < |r.ops|
    ensures Decided(r.states[k].global, r.states[k + 1].global, Served(c, r, k), r.outs[k], r.ops[k].now, c.global)
  {
    var source := r.ops[k].source;
    RunMatches(c, r, 0, k, source);
    assert Steps(c, r, k);
    if HadRoom(r, k) {
      OwnMatches(c, r.states[k], source, Own(c, r, 0, k, source), r.ops[k].now);
    } else {
      RoomlessDecides(c, r.states[k], source, r.ops[k].now);
    }
  }

  // ---- the law for both buckets ----

  ghost function OwnMeter(c: Config, r: Run, source: string): Meter
    requires |r.states| == |r.ops| + 1
  {
    var n := |r.ops|;
    Meter(Times(r, 0, n), seq(n, k requires 0 <= k < n => Asks(r, k, source)),
          seq(n, k requires 0 <= k < n => Asks(r, k, source) && Served(c, r, k)))
  }

  ghost function GlobalMeter(c: Config, r: Run): Meter
    requires |r.states| == |r.ops| + 1
  {
    var n := |r.ops|;
    Meter(Times(r, 0, n), seq(n, k requires 0 <= k < n => Served(c, r, k)), r.outs)
  }

  lemma {:induction false} TimesGrow(c: Config, r: Run, i: nat, j: nat)
    requires Positive(c) && IsRun(c, r) && i <= j < |r.ops|
    ensures r.ops[i].now <= r.ops[j].now
    decreases j
  {
    if i < j {
      TimesGrow(c, r, i, j - 1);
      assert Steps(c, r, j - 1);
    }
  }

  lemma MetersShaped(c: Config, r: Run, source: string)
    requires Positive(c) && IsRun(c, r)
    ensures RateLaw.Shaped(OwnMeter(c, r, source)) && RateLaw.Shaped(GlobalMeter(c, r))
  {
    forall i, j | 0 <= i <= j < |r.ops| ensures r.ops[i].now <= r.ops[j].now {
      TimesGrow(c, r, i, j);
    }
  }

  ghost function OwnBuckets(c: Config, r: Run, source: string): seq<Bucket>
    requires |r.ops| > 0 && |r.states| == |r.ops| + 1
  {
    seq(|r.ops| + 1, k requires 0 <= k <= |r.ops| => Own(c, r, 0, k, source))
  }

  lemma OwnTurns(c: Config, r: Run, source: string, k: nat)
    requires Positive(c) && IsRun(c, r) && k < |r.ops| && RateLaw.Shaped(OwnMeter(c, r, source))
    ensures Turns(OwnMeter(c, r, source), OwnBuckets(c, r, source), k, c.perSource, c.burst)
  {
    var bs := OwnBuckets(c, r, source);
    assert bs[k] == Own(c, r, 0, k, source) && bs[k + 1] == Own(c, r, 0, k + 1, source);
  }

  lemma OwnIsMetered(c: Config, r: Run, source: string)
    requires Positive(c) && IsRun(c, r) && |r.ops| > 0
    ensures Metered(OwnMeter(c, r, source), OwnBuckets(c, r, source), c.perSource, c.burst)
  {
    MetersShaped(c, r, source);
    var t, bs := OwnMeter(c, r, source), OwnBuckets(c, r, source);
    forall k: nat ensures Turns(t, bs, k, c.perSource, c.burst) {
      if k < |r.ops| { OwnTurns(c, r, source, k); }
    }
    StartMatches(c, r, 0, source);
    assert bs[0] == Own(c, r, 0, 0, source);
  }

  ghost function GlobalBuckets(r: Run): seq<Bucket> {
    seq(|r.states|, k requires 0 <= k < |r.states| => r.states[k].global)
  }

  lemma GlobalIsMetered(c: Config, r: Run)
    requires Positive(c) && IsRun(c, r)
    ensures Metered(GlobalMeter(c, r), GlobalBuckets(r), c.global, c.global)
  {
    MetersShaped(c, r, "");
    var t, bs := GlobalMeter(c, r), GlobalBuckets(r);
    forall k: nat ensures Turns(t, bs, k, c.global, c.global) {
      if k < |r.ops| { RunDecides(c, r, k); }
    }
    if |r.ops| > 0 {
      StartFull(c, r);
    }
  }

  lemma StartFull(c: Config, r: Run)
    requires Positive(c) && IsRun(c, r) && |r.ops| > 0
    ensures Full(r.states[0].global, r.ops[0].now, c.global, c.global)
  {
    var g, now := r.states[0].global, r.ops[0].now;
    var gain := (now - g.last) * c.global;
    Grows(now - g.last, c.global);
    LevelIs(g, now, c.global, c.global, gain);
  }

  // ---- what decides on a packet ----

  /** How many packets of source got a token of it from packet m up to packet n. */
  ghost function Got(c: Config, r: Run, source: string, m: nat, n: nat): nat
    requires n <= |r.ops| && |r.states| == |r.ops| + 1
    decreases n, 0
  {
    if n <= m then 0 else Got(c, r, source, m, n - 1) + if Asks(r, n - 1, source) && Gets(c, r, n - 1) then 1 else 0
  }

  /** What is left for source at packet n, counted from packet m: the burst and the refill since, less what it got. */
  ghost function OwnLeft(c: Config, r: Run, source: string, m: nat, n: nat): real
    requires m <= n < |r.ops| && |r.states| == |r.ops| + 1
    decreases n, 1
  {
    c.burst + (r.ops[n].now - r.ops[m].now) * c.perSource - Got(c, r, source, m, n) as real
  }

  /** A packet gets a token of its source: counted from every packet up to itself, a whole one is left. */
  ghost predicate Gets(c: Config, r: Run, n: nat)
    requires n < |r.ops| && |r.states| == |r.ops| + 1
    decreases n, 2
  {
    forall m: nat :: m <= n ==> OwnLeft(c, r, r.ops[n].source, m, n) >= 1.0
  }

  /** The same for the global bucket and the packets admitted. */
  ghost function GlobalLeft(c: Config, r: Run, m: nat, n: nat): real
    requires m <= n < |r.ops| == |r.outs|
  {
    c.global + (r.ops[n].now - r.ops[m].now) * c.global - Count(r.outs[m..n]) as real
  }

  ghost predicate GlobalGets(c: Config, r: Run, n: nat)
    requires n < |r.ops| == |r.outs|
  {
    forall m: nat :: m <= n ==> GlobalLeft(c, r, m, n) >= 1.0
  }

  /** Before the n-th packet, exactly those marked asked source for a token and got one. */
  ghost predicate Marks(c: Config, r: Run, source: string, ones: seq<bool>, n: nat)
    requires n <= |r.ops| && |r.states| == |r.ops| + 1 && n <= |ones|
  {
    forall k :: 0 <= k < n ==> (ones[k] <==> Asks(r, k, source) && Gets(c, r, k))
  }

  lemma {:induction false} GotIsCount(c: Config, r: Run, source: string, ones: seq<bool>, m: nat, n: nat)
    requires m <= n <= |r.ops| && |r.states| == |r.ops| + 1 && n <= |ones| && Marks(c, r, source, ones, n)
    ensures Got(c, r, source, m, n) == Count(ones[m..n])
    decreases n
  {
    if m < n {
      GotIsCount(c, r, source, ones, m, n - 1);
      CountNext(ones, m, n - 1);
      assert ones[n - 1] <==> Asks(r, n - 1, source) && Gets(c, r, n - 1);
    } else {
      assert ones[m..n] == [];
    }
  }

  lemma OwnSlack(c: Config, r: Run, source: string, t: Meter, m: nat, n: nat)
    requires m <= n < |r.ops| && |r.states| == |r.ops| + 1 && RateLaw.Shaped(t) && t.times == Times(r, 0, |r.ops|)
    requires Got(c, r, source, m, n) == Count(t.ones[m..n])
    ensures Slack(t, m, n, c.perSource, c.burst) == OwnLeft(c, r, source, m, n)
  {
    assert t.times[n] == r.ops[n].now && t.times[m] == r.ops[m].now;
  }

  lemma GlobalSlack(c: Config, r: Run, m: nat, n: nat)
    requires m <= n < |r.ops| == |r.outs| && |r.states| == |r.ops| + 1 && RateLaw.Shaped(GlobalMeter(c, r))
    ensures Slack(GlobalMeter(c, r), m, n, c.global, c.global) == GlobalLeft(c, r, m, n)
  {
  }

  lemma LeftIff(c: Config, r: Run, source: string, t: Meter, n: nat)
    requires n < |r.ops| && |r.states| == |r.ops| + 1 && RateLaw.Shaped(t) && t.times == Times(r, 0, |r.ops|)
    requires source == r.ops[n].source && Marks(c, r, source, t.ones, n)
    ensures Gets(c, r, n) <==> forall m: nat :: m <= n ==> Slack(t, m, n, c.perSource, c.burst) >= 1.0
  {
    forall m: nat | m <= n ensures Slack(t, m, n, c.perSource, c.burst) == OwnLeft(c, r, source, m, n) {
      GotIsCount(c, r, source, t.ones, m, n);
      OwnSlack(c, r, source, t, m, n);
    }
  }

  lemma ServedNext(c: Config, r: Run, source: string, n: nat)
    requires Positive(c) && IsRun(c, r) && n < |r.ops| && Asks(r, n, source) && Marks(c, r, source, OwnMeter(c, r, source).ones, n)
    ensures Served(c, r, n) <==> Gets(c, r, n)
  {
    var t := OwnMeter(c, r, source);
    OwnIsMetered(c, r, source);
    BucketIsLawful(t, OwnBuckets(c, r, source), n, c.perSource, c.burst);
    LeftIff(c, r, source, t, n);
  }

  lemma {:induction false} ServedIff(c: Config, r: Run, source: string, n: nat)
    requires Positive(c) && IsRun(c, r) && n <= |r.ops|
    ensures Marks(c, r, source, OwnMeter(c, r, source).ones, n)
  {
    if n > 0 {
      ServedIff(c, r, source, n - 1);
      if Asks(r, n - 1, source) {
        ServedNext(c, r, source, n - 1);
      }
      MarkedIff(c, r, source, n - 1);
      MarksNext(c, r, source, OwnMeter(c, r, source).ones, n - 1);
    }
  }

  lemma MarkedIff(c: Config, r: Run, source: string, n: nat)
    requires n < |r.ops| && |r.states| == |r.ops| + 1
    ensures OwnMeter(c, r, source).ones[n] <==> Asks(r, n, source) && Served(c, r, n)
  {
  }

  lemma MarksNext(c: Config, r: Run, source: string, ones: seq<bool>, n: nat)
    requires n < |r.ops| && |r.states| == |r.ops| + 1 && n < |ones| && Marks(c, r, source, ones, n)
    requires ones[n] <==> Asks(r, n, source) && Gets(c, r, n)
    ensures Marks(c, r, source, ones, n + 1)
  {
  }

  lemma GlobalDecides(c: Config, r: Run, n: nat)
    requires Positive(c) && IsRun(c, r) && n < |r.ops|
    ensures r.outs[n] <==> Served(c, r, n) && GlobalGets(c, r, n)
  {
    var t := GlobalMeter(c, r);
    GlobalIsMetered(c, r);
    BucketIsLawful(t, GlobalBuckets(r), n, c.global, c.global);
    if r.outs[n] {
      forall m: nat | m <= n ensures GlobalLeft(c, r, m, n) >= 1.0 {
        GlobalSlack(c, r, m, n);
      }
    } else if Served(c, r, n) {
      var m: nat :| m <= n && Slack(t, m, n, c.global, c.global) < 1.0;
      GlobalSlack(c, r, m, n);
    }
  }

  /** A packet is admitted if and only if it gets a token of its source, or had no room for a bucket there, and, counted
      from every packet up to itself, a whole global token is left. */
  lemma SourceDecides(c: Config, r: Run, n: nat)
    requires Positive(c) && IsRun(c, r) && n < |r.ops|
    ensures r.outs[n] <==> (HadRoom(r, n) ==> Gets(c, r, n)) && GlobalGets(c, r, n)
  {
    GlobalDecides(c, r, n);
    ServedIff(c, r, r.ops[n].source, n + 1);
    assert HadRoom(r, n) ==> (OwnMeter(c, r, r.ops[n].source).ones[n] <==> Gets(c, r, n));
  }

  // ---- the budget of a source ----

  ghost function SourceTrail(c: Config, r: Run, m: nat, n: nat, source: string): Trail
    requires m < n <= |r.ops| == |r.outs| && |r.states| == |r.ops| + 1
  {
    Trail(
      seq(n - m + 1, i requires 0 <= i < n - m + 1 => Own(c, r, m, m + i, source)),
      Times(r, m, n),
      seq(n - m, i requires 0 <= i < n - m => r.outs[m + i] && Asks(r, m + i, source)))
  }

  lemma OwnMoves(c: Config, r: Run, m: nat, k: nat, source: string)
    requires Positive(c) && IsRun(c, r) && m <= k < |r.ops|
    ensures Moves(Own(c, r, m, k, source), Own(c, r, m, k + 1, source), r.outs[k] && Asks(r, k, source),
                  r.ops[k].now, c.perSource, c.burst)
  {
    RunMatches(c, r, m, k, source);
    assert Steps(c, r, k);
    if Asks(r, k, source) {
      OwnMatches(c, r.states[k], source, Own(c, r, m, k, source), r.ops[k].now);
    }
  }

  lemma SourceFollows(c: Config, r: Run, m: nat, n: nat, source: string, k: nat)
    requires Positive(c) && IsRun(c, r) && m < n <= |r.ops| && k < n - m
    ensures Follows(SourceTrail(c, r, m, n, source), k, c.perSource, c.burst)
  {
    var t := SourceTrail(c, r, m, n, source);
    OwnMoves(c, r, m, m + k, source);
    assert t.buckets[k] == Own(c, r, m, m + k, source) && t.buckets[k + 1] == Own(c, r, m, m + k + 1, source);
    assert Steps(c, r, m + k);
  }

  /** Packets of a source with room admitted in any stretch of a run: at most its burst and its rate over time, however
      often its bucket was swept in between. */
  lemma SourceBudget(c: Config, r: Run, m: nat, n: nat, source: string)
    requires Positive(c) && IsRun(c, r) && m < n <= |r.ops|
    ensures Count(SourceTrail(c, r, m, n, source).ones) as real <= c.burst + (r.ops[n - 1].now - r.ops[m].now) * c.perSource
  {
    var t := SourceTrail(c, r, m, n, source);
    forall k: nat ensures Follows(t, k, c.perSource, c.burst) {
      if k < n - m {
        SourceFollows(c, r, m, n, source, k);
      }
    }
    StartMatches(c, r, m, source);
    assert t.buckets[0] == Own(c, r, m, m, source);
    BudgetBound(t, c.perSource, c.burst);
  }

  // ---- room ----

  /** The sources that sent their last packet with room within the idle period. */
  ghost function Active(c: Config, s: State, now: real): set<string>
    requires c.perSource > 0.0
  {
    set k | k in s.sources && now - s.sources[k].last < Idle(c)
  }

  /** A packet finds a bucket or room for one if and only if its source is tracked, fewer sources are than the cap, or a
      sweep is allowed and leaves fewer. */
  lemma RoomIff(c: Config, r: Run, n: nat)
    requires Positive(c) && IsRun(c, r) && n < |r.ops|
    ensures var s, op := r.states[n], r.ops[n];
      HadRoom(r, n) <==>
        || op.source in s.sources || |s.sources| < c.maxSources
        || (op.now - s.lastSweep >= 1.0 && |Active(c, s, op.now)| < c.maxSources)
  {
    assert Steps(c, r, n);
    var s, op := r.states[n], r.ops[n];
    assert Swept(c, s.sources, op.now).Keys == Active(c, s, op.now);
    assert |Swept(c, s.sources, op.now)| == |Swept(c, s.sources, op.now).Keys|;
  }

  lemma StepFits(c: Config, s: State, source: string, now: real)
    requires Positive(c) && |s.sources| <= c.maxSources
    ensures |Allow(c, s, source, now).state.sources| <= c.maxSources
  {
    Smaller(Swept(c, s.sources, now).Keys, s.sources.Keys);
    var t := RoomMade(c, s, now);
    assert |Swept(c, s.sources, now)| == |Swept(c, s.sources, now).Keys| && |s.sources| == |s.sources.Keys|;
    SizeWith(t.sources, source, Bucket(c.burst, now));
    var u := Ready(c, s, source, now);
    if source in u.sources {
      SizeWith(u.sources, source, Take(u.sources[source], now, c.perSource, c.burst).bucket);
    }
  }

  /** There are never more sources tracked than the cap. */
  lemma {:induction false} SourcesFit(c: Config, r: Run, n: nat)
    requires Positive(c) && IsRun(c, r) && n <= |r.ops|
    ensures |r.states[n].sources| <= c.maxSources
  {
    if n > 0 {
      SourcesFit(c, r, n - 1);
      assert Steps(c, r, n - 1);
      StepFits(c, r.states[n - 1], r.ops[n - 1].source, r.ops[n - 1].now);
    }
  }
}
