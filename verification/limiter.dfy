/** The connection limiter shared by the TCP traps. */
module Limits {

  datatype Limiter = Limiter(maxGlobal: int, maxPerIP: int, global: int, perIP: map<string, int>)

  /** The count of ip; a missing key counts 0. */
  function Held(l: Limiter, ip: string): int {
    if ip in l.perIP then l.perIP[ip] else 0
  }

  predicate Admits(l: Limiter, ip: string) {
    l.global < l.maxGlobal && Held(l, ip) < l.maxPerIP
  }

  function Acquire(l: Limiter, ip: string): Limiter {
    if Admits(l, ip) then l.(global := l.global + 1, perIP := l.perIP[ip := Held(l, ip) + 1]) else l
  }

  function Release(l: Limiter, ip: string): Limiter {
    var n := Held(l, ip) - 1;
    l.(global := l.global - 1, perIP := if n <= 0 then l.perIP - {ip} else l.perIP[ip := n])
  }

  /** The sum of all values. */
  ghost function Sum(m: map<string, int>): int
    decreases |m|
  {
    if m == map[] then 0
    else
      var k :| k in m;
      Shrinks(m, k);
      m[k] + Sum(m - {k})
  }

  lemma Shrinks(m: map<string, int>, k: string)
    requires k in m
    ensures |m - {k}| < |m|
  {
    assert m.Keys == (m - {k}).Keys + {k};
  }

  /** The sum does not depend on the order. */
  lemma {:induction false} SumWithout(m: map<string, int>, k: string)
    requires k in m
    ensures Sum(m) == m[k] + Sum(m - {k})
    decreases |m|
  {
    var j :| j in m && Sum(m) == m[j] + Sum(m - {j});
    if j != k {
      Shrinks(m, j);
      Shrinks(m, k);
      SumWithout(m - {j}, k);
      SumWithout(m - {k}, j);
      assert m - {j} - {k} == m - {k} - {j};
    }
  }

  lemma SumPut(m: map<string, int>, k: string, v: int)
    ensures Sum(m[k := v]) == Sum(m) + v - (if k in m then m[k] else 0)
  {
    var p := m[k := v];
    SumWithout(p, k);
    assert p - {k} == m - {k};
    if k in m {
      SumWithout(m, k);
    } else {
      assert m - {k} == m;
    }
  }

  /** The counts are positive, add up, and stay within the caps. */
  ghost predicate Valid(l: Limiter) {
    && l.global == Sum(l.perIP)
    && (l.global > 0 ==> l.global <= l.maxGlobal)
    && forall ip :: ip in l.perIP ==> 0 < l.perIP[ip] <= l.maxPerIP
  }

  lemma AcquireValid(l: Limiter, ip: string)
    requires Valid(l)
    ensures Valid(Acquire(l, ip))
  {
    SumPut(l.perIP, ip, Held(l, ip) + 1);
  }

  lemma ReleaseValid(l: Limiter, ip: string)
    requires Valid(l) && ip in l.perIP
    ensures Valid(Release(l, ip))
  {
    var n := Held(l, ip) - 1;
    if n <= 0 {
      SumWithout(l.perIP, ip);
    } else {
      SumPut(l.perIP, ip, n);
    }
  }

  /** A release undoes an acquire that was admitted. */
  lemma ReleaseUndoes(l: Limiter, ip: string)
    requires Valid(l) && Admits(l, ip)
    ensures Release(Acquire(l, ip), ip) == l
  {
    var a := Acquire(l, ip);
    if ip !in l.perIP {
      assert a.perIP - {ip} == l.perIP;
    } else {
      assert a.perIP[ip := Held(l, ip)] == l.perIP;
    }
  }

  class SharedLimiter {
    const maxGlobal: int
    const maxPerIP: int
    var global: int
    var perIP: map<string, int>

    function Abs(): Limiter
      reads this
    {
      Limiter(maxGlobal, maxPerIP, global, perIP)
    }

    constructor (maxGlobal: int, maxPerIP: int)
      ensures Abs() == Limiter(maxGlobal, maxPerIP, 0, map[]) && Valid(Abs())
    {
      this.maxGlobal, this.maxPerIP := maxGlobal, maxPerIP;
      global, perIP := 0, map[];
    }

    method TakeSlot(ip: string) returns (ok: bool)
      requires Valid(Abs())
      modifies this
      ensures Valid(Abs()) && Abs() == Acquire(old(Abs()), ip) && ok == Admits(old(Abs()), ip)
    {
      AcquireValid(Abs(), ip);
      if global >= maxGlobal {
        return false;
      }
      var n := if ip in perIP then perIP[ip] else 0;
      if n >= maxPerIP {
        return false;
      }
      global := global + 1;
      perIP := perIP[ip := n + 1];
      return true;
    }

    method GiveBack(ip: string)
      requires Valid(Abs()) && ip in perIP
      modifies this
      ensures Valid(Abs()) && Abs() == Release(old(Abs()), ip)
    {
      ReleaseValid(Abs(), ip);
      global := global - 1;
      perIP := perIP[ip := perIP[ip] - 1];
      if perIP[ip] <= 0 {
        perIP := perIP - {ip};
        assert perIP == old(perIP) - {ip};
      }
    }
  }
}
