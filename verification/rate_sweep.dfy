/** Sweeping idle sources changes no decision. */
module RateSweep {
  import opened RateLimit
  import opened RateRuns

  /** The reference: every source keeps its bucket for ever; a packet without room for a bucket takes from the
      global one only. */
  function Keep(c: Config, s: State, source: string, now: real, room: bool): Result {
    if !room then Shared(c, s, now)
    else Admit(c, if source in s.sources then s else s.(sources := s.sources[source := Bucket(c.burst, now)]), source, now)
  }

  /** The bucket has been idle long enough to be full again. */
  ghost predicate Idled(c: Config, b: Bucket, now: real)
    requires c.perSource > 0.0
  {
    0.0 <= b.tokens && now - b.last >= Idle(c)
  }

  lemma IdleFills(c: Config, d: real, gain: real)
    requires Positive(c) && d >= Idle(c) && gain == d * c.perSource
    ensures gain >= c.burst && d > 0.0
  {
    var i := Idle(c);
    assert i * c.perSource == c.burst;
    Grows(d - i, c.perSource);
    Splits(0.0, i, d, c.perSource);
    if i <= 0.0 {
      Grows(0.0 - i, c.perSource);
    }
  }

  /** A take from an idle bucket is a take from a new one. */
  lemma IdleIsFresh(c: Config, b: Bucket, now: real)
    requires Positive(c) && Idled(c, b, now)
    ensures Take(b, now, c.perSource, c.burst) == Take(Bucket(c.burst, now), now, c.perSource, c.burst)
    ensures Refilled(b, now, c.perSource, c.burst) == c.burst
  {
    var gain := (now - b.last) * c.perSource;
    IdleFills(c, now - b.last, gain);
    assert Refilled(b, now, c.perSource, c.burst) == Capped(b.tokens + gain, c.burst);
  }

  /** Same global bucket; a source the limiter does not track is unknown to the reference or idle there. */
  ghost predicate Agrees(c: Config, s: State, ref: State, now: real)
    requires c.perSource > 0.0
  {
    && s.global == ref.global
    && (forall k :: k in s.sources ==> k in ref.sources && s.sources[k] == ref.sources[k])
    && (forall k :: k in ref.sources && k !in s.sources ==> Idled(c, ref.sources[k], now))
  }

  lemma SweepAgrees(c: Config, s: State, ref: State, now: real)
    requires Positive(c) && Timely(c, s, now) && Agrees(c, s, ref, now)
    ensures Agrees(c, RoomMade(c, s, now), ref, now)
  {
  }

  lemma StepAgrees(c: Config, s: State, ref: State, source: string, now: real)
    requires Positive(c) && Timely(c, s, now) && Agrees(c, s, ref, now)
    ensures var a := Allow(c, s, source, now);
      var b := Keep(c, ref, source, now, source in a.state.sources);
      a.ok == b.ok && Agrees(c, a.state, b.state, now)
  {
    SweepAgrees(c, s, ref, now);
    if source !in s.sources && source in ref.sources {
      IdleIsFresh(c, ref.sources[source], now);
    }
  }

  lemma LaterAgrees(c: Config, s: State, ref: State, now: real, later: real)
    requires c.perSource > 0.0 && Agrees(c, s, ref, now) && now <= later
    ensures Agrees(c, s, ref, later)
  {
  }

  /** The k-th packet found its bucket or room for one. */
  predicate HadRoom(r: Run, k: nat)
    requires k < |r.ops| && |r.states| == |r.ops| + 1
  {
    r.ops[k].source in r.states[k + 1].sources
  }

  /** The reference after the first n packets of a run. */
  ghost function Kept(c: Config, r: Run, n: nat): State
    requires n <= |r.ops| && |r.states| == |r.ops| + 1
  {
    if n == 0 then r.states[0]
    else Keep(c, Kept(c, r, n - 1), r.ops[n - 1].source, r.ops[n - 1].now, HadRoom(r, n - 1)).state
  }

  lemma {:induction false} RunAgrees(c: Config, r: Run, n: nat)
    requires Positive(c) && IsRun(c, r) && n < |r.ops|
    ensures Agrees(c, r.states[n], Kept(c, r, n), r.ops[n].now)
  {
    if n > 0 {
      var s, op := r.states[n - 1], r.ops[n - 1];
      RunAgrees(c, r, n - 1);
      assert Steps(c, r, n - 1);
      RunTimely(c, r, n - 1);
      StepAgrees(c, s, Kept(c, r, n - 1), op.source, op.now);
      LaterAgrees(c, r.states[n], Kept(c, r, n), op.now, r.ops[n].now);
    }
  }

  /** On every run the limiter decides as one that never forgets a source. */
  lemma SweepChangesNothing(c: Config, r: Run, n: nat)
    requires Positive(c) && IsRun(c, r) && n < |r.ops|
    ensures r.outs[n] == Keep(c, Kept(c, r, n), r.ops[n].source, r.ops[n].now, HadRoom(r, n)).ok
  {
    RunAgrees(c, r, n);
    assert Steps(c, r, n);
    RunTimely(c, r, n);
    StepAgrees(c, r.states[n], Kept(c, r, n), r.ops[n].source, r.ops[n].now);
  }
}
