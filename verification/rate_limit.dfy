/** The token buckets of the UDP traps, over real time and real tokens. */
module RateLimit {

  /** perSource, burst and global are positive; the constructor replaces other settings by defaults. */
  datatype Config = Config(perSource: real, burst: real, global: real, maxSources: nat)

  ghost predicate Positive(c: Config) {
    c.perSource > 0.0 && c.burst > 0.0 && c.global > 0.0
  }

  datatype Bucket = Bucket(tokens: real, last: real)

  datatype Taken = Taken(bucket: Bucket, ok: bool)

  /** The tokens at now: refilled for the elapsed time, capped at burst. */
  function Refilled(b: Bucket, now: real, rate: real, burst: real): real {
    if now > b.last then
      var t := b.tokens + (now - b.last) * rate;
      if t > burst then burst else t
    else b.tokens
  }

  function Take(b: Bucket, now: real, rate: real, burst: real): Taken {
    var t := Refilled(b, now, rate, burst);
    if t < 1.0 then Taken(Bucket(t, now), false) else Taken(Bucket(t - 1.0, now), true)
  }

  datatype State = State(sources: map<string, Bucket>, global: Bucket, lastSweep: real)

  function Idle(c: Config): real
    requires c.perSource > 0.0
  {
    c.burst / c.perSource
  }

  function Swept(c: Config, sources: map<string, Bucket>, now: real): map<string, Bucket>
    requires c.perSource > 0.0
  {
    map k | k in sources && now - sources[k].last < Idle(c) :: sources[k]
  }

  /** Makes room for a new source: at the cap idle sources are swept, at most once per second. */
  function RoomMade(c: Config, s: State, now: real): State
    requires c.perSource > 0.0
  {
    if |s.sources| < c.maxSources || now - s.lastSweep < 1.0 then s
    else s.(lastSweep := now, sources := Swept(c, s.sources, now))
  }

  /** The limiter with the bucket of the source in place, if there is room for one. */
  function Ready(c: Config, s: State, source: string, now: real): State
    requires c.perSource > 0.0
  {
    if source in s.sources then s
    else
      var t := RoomMade(c, s, now);
      if |t.sources| < c.maxSources then t.(sources := t.sources[source := Bucket(c.burst, now)]) else t
  }

  datatype Result = Result(state: State, ok: bool)

  /** A packet: it takes a token of its source, if that is tracked, and then one of the global bucket. */
  function Admit(c: Config, s: State, source: string, now: real): Result {
    if source in s.sources then
      var own := Take(s.sources[source], now, c.perSource, c.burst);
      var t := s.(sources := s.sources[source := own.bucket]);
      if own.ok then Shared(c, t, now) else Result(t, false)
    else Shared(c, s, now)
  }

  function Shared(c: Config, s: State, now: real): Result {
    var all := Take(s.global, now, c.global, c.global);
    Result(s.(global := all.bucket), all.ok)
  }

  function Allow(c: Config, s: State, source: string, now: real): Result
    requires c.perSource > 0.0
  {
    Admit(c, Ready(c, s, source, now), source, now)
  }

  class UdpRateLimiter {
    const cfg: Config
    var sources: map<string, Bucket>
    var global: Bucket
    var lastSweep: real

    function Abs(): State
      reads this
    {
      State(sources, global, lastSweep)
    }

    constructor (c: Config, now: real)
      requires c.perSource > 0.0
      ensures cfg == c && Abs() == State(map[], Bucket(c.global, now), now)
    {
      cfg := c;
      sources, global, lastSweep := map[], Bucket(c.global, now), now;
    }

    method MakeRoom(now: real) returns (room: bool)
      requires cfg.perSource > 0.0
      modifies this
      ensures Abs() == RoomMade(cfg, old(Abs()), now) && room == (|sources| < cfg.maxSources)
    {
      if |sources| < cfg.maxSources {
        return true;
      }
      if now - lastSweep < 1.0 {
        return false;
      }
      lastSweep := now;
      var idle, todo := cfg.burst / cfg.perSource, sources.Keys;
      while todo != {}
        invariant todo <= old(sources).Keys && global == old(global) && lastSweep == now
        invariant forall k :: k in sources <==> k in old(sources) && (k in todo || now - old(sources)[k].last < idle)
        invariant forall k :: k in sources ==> sources[k] == old(sources)[k]
      {
        var k :| k in todo;
        if now - sources[k].last >= idle {
          sources := sources - {k};
        }
        todo := todo - {k};
      }
      assert sources == Swept(cfg, old(sources), now);
      return |sources| < cfg.maxSources;
    }

    method AllowPacket(source: string, now: real) returns (ok: bool)
      requires cfg.perSource > 0.0
      modifies this
      ensures Result(Abs(), ok) == Allow(cfg, old(Abs()), source, now)
    {
      if source !in sources {
        var room := MakeRoom(now);
        if room {
          sources := sources[source := Bucket(cfg.burst, now)];
        }
      }
      if source in sources {
        var own := Take(sources[source], now, cfg.perSource, cfg.burst);
        sources := sources[source := own.bucket];
        if !own.ok {
          return false;
        }
      }
      var all := Take(global, now, cfg.global, cfg.global);
      global := all.bucket;
      return all.ok;
    }
  }
}
