/** What a shun summary says, told from the operations and their answers. */
module OffenderSummaries {
  import opened Fifo
  import opened Severity
  import opened Offenders
  import opened OffenderRuns
  import opened OffenderHistory
  import opened OffenderSpans

  // ---------- what a summary covers ----------

  /** The alert opened a window of ip. */
  predicate Opens(ops: seq<Op>, ip: Ip, h: History, k: nat) {
    k < |ops| && k < |h.begun| && Records(ops[k], ip) && h.begun[k] != 0
  }

  /** The k-th operation opened a window of ip, or was a flush that wrote a summary of it. */
  predicate Starts(ops: seq<Op>, ip: Ip, h: History, k: nat) {
    Opens(ops, ip, h, k) || (k < |ops| && k < |h.emitted| && ops[k].Flush? && h.emitted[k] > 0)
  }

  /** The last such operation before the n-th. */
  predicate LastStart(ops: seq<Op>, ip: Ip, h: History, o: nat, n: nat) {
    o < n && Starts(ops, ip, h, o) && forall k :: o < k < n ==> !Starts(ops, ip, h, k)
  }

  predicate Rejects(op: Op, ip: Ip) {
    op.Reject? && op.key == Some(ip)
  }

  /** The rejections of ip between two operations. */
  ghost function RejectsIn(ops: seq<Op>, ip: Ip, o: nat, n: nat): set<nat>
    requires n <= |ops|
  {
    set k: nat | o < k < n && Rejects(ops[k], ip)
  }

  ghost function ProtosIn(ops: seq<Op>, ip: Ip, o: nat, n: nat): set<string>
    requires n <= |ops|
  {
    set k: nat | o < k < n && Rejects(ops[k], ip) :: ops[k].proto
  }

  /** The protocols among them that were met when fewer than eight others had been. */
  ghost function FirstProtos(ops: seq<Op>, ip: Ip, o: nat, n: nat): set<string>
    requires n <= |ops|
  {
    set k: nat | o < k < n && Rejects(ops[k], ip) && |ProtosIn(ops, ip, o, k)| < 8 :: ops[k].proto
  }

  // ---------- the first eight protocols ----------

  lemma ProtosNext(ops: seq<Op>, ip: Ip, o: nat, n: nat)
    requires o < n < |ops|
    ensures ProtosIn(ops, ip, o, n + 1) == ProtosIn(ops, ip, o, n) + (if Rejects(ops[n], ip) then {ops[n].proto} else {})
  {
  }

  lemma FirstNext(ops: seq<Op>, ip: Ip, o: nat, n: nat)
    requires o < n < |ops|
    ensures FirstProtos(ops, ip, o, n + 1) == FirstProtos(ops, ip, o, n)
      + (if Rejects(ops[n], ip) && |ProtosIn(ops, ip, o, n)| < 8 then {ops[n].proto} else {})
  {
  }

  lemma AddOne<T>(s: set<T>, x: T)
    ensures |s| <= |s + {x}| <= |s| + 1 && (x in s ==> s + {x} == s)
  {
    if x in s {
      assert s + {x} == s;
    }
  }

  /** Up to eight protocols all are named, and of more than eight exactly eight. */
  lemma {:induction false} FirstSize(ops: seq<Op>, ip: Ip, o: nat, n: nat)
    requires o < n <= |ops|
    ensures var all, first := ProtosIn(ops, ip, o, n), FirstProtos(ops, ip, o, n);
      if |all| <= 8 then first == all else first < all && |first| == 8
  {
    if n == o + 1 {
      assert ProtosIn(ops, ip, o, n) == {} == FirstProtos(ops, ip, o, n);
    } else {
      FirstSize(ops, ip, o, n - 1);
      ProtosNext(ops, ip, o, n - 1);
      FirstNext(ops, ip, o, n - 1);
      if Rejects(ops[n - 1], ip) {
        AddOne(ProtosIn(ops, ip, o, n - 1), ops[n - 1].proto);
      }
    }
  }

  lemma RejectsNext(ops: seq<Op>, ip: Ip, o: nat, n: nat)
    requires o < n < |ops|
    ensures |RejectsIn(ops, ip, o, n + 1)| == |RejectsIn(ops, ip, o, n)| + (if Rejects(ops[n], ip) then 1 else 0)
  {
    var a, b := RejectsIn(ops, ip, o, n), RejectsIn(ops, ip, o, n + 1);
    assert b == if Rejects(ops[n], ip) then a + {n} else a;
  }

  // ---------- an open window tells its rejections ----------

  ghost predicate Tells(ops: seq<Op>, ip: Ip, e: Offender, o: nat, n: nat)
    requires o < n <= |ops|
  {
    e.shunStart == ops[o].now && e.suppressed == |RejectsIn(ops, ip, o, n)| && e.protos == FirstProtos(ops, ip, o, n)
  }

  lemma StartTells(c: Settings, ops: seq<Op>, ip: Ip, h: History, n: nat)
    requires Follows(c, ops, ip, h) && n < |ops| && Open(h.views[n + 1]) && Starts(ops, ip, h, n)
    ensures Tells(ops, ip, h.views[n + 1].value, n, n + 1)
  {
    assert FollowsAt(c, ops, ip, h, n);
    assert RejectsIn(ops, ip, n, n + 1) == {};
    assert FirstProtos(ops, ip, n, n + 1) == {};
  }

  /** An open window that does not start with the operation is the one that was open before it. */
  lemma GoesOn(c: Settings, ops: seq<Op>, ip: Ip, h: History, n: nat)
    requires Follows(c, ops, ip, h) && n < |ops| && Open(h.views[n + 1]) && !Starts(ops, ip, h, n)
    ensures Open(h.views[n])
    ensures var d, e := h.views[n].value, h.views[n + 1].value;
      && e.shunStart == d.shunStart && e.suppressed == d.suppressed + (if Rejects(ops[n], ip) then 1 else 0)
      && e.protos == d.protos + (if Rejects(ops[n], ip) && |d.protos| < 8 then {ops[n].proto} else {})
  {
    if Records(ops[n], ip) {
      AlertGoesOn(c, ops, ip, h, n);
    } else {
      assert FollowsAt(c, ops, ip, h, n);
    }
  }

  lemma AlertGoesOn(c: Settings, ops: seq<Op>, ip: Ip, h: History, n: nat)
    requires Follows(c, ops, ip, h) && n < |ops| && Open(h.views[n + 1]) && Records(ops[n], ip) && h.begun[n] == 0
    ensures Open(h.views[n])
    ensures var d, e := h.views[n].value, h.views[n + 1].value;
      e.shunStart == d.shunStart && e.suppressed == d.suppressed && e.protos == d.protos
  {
    assert FollowsAt(c, ops, ip, h, n);
  }

  lemma NextTells(c: Settings, ops: seq<Op>, ip: Ip, h: History, o: nat, n: nat)
    requires Follows(c, ops, ip, h) && o < n < |ops| && Open(h.views[n + 1]) && !Starts(ops, ip, h, n)
    requires Open(h.views[n]) && Tells(ops, ip, h.views[n].value, o, n)
    ensures Tells(ops, ip, h.views[n + 1].value, o, n + 1)
  {
    GoesOn(c, ops, ip, h, n);
    RejectsNext(ops, ip, o, n);
    FirstNext(ops, ip, o, n);
    FirstSize(ops, ip, o, n);
    assert |FirstProtos(ops, ip, o, n)| < 8 <==> |ProtosIn(ops, ip, o, n)| < 8;
  }

  lemma OpenIsLater(c: Settings, ops: seq<Op>, ip: Ip, h: History, n: nat)
    requires Follows(c, ops, ip, h) && n <= |ops| && Open(h.views[n])
    ensures n > 0
  {
  }

  lemma StillOpen(c: Settings, ops: seq<Op>, ip: Ip, h: History, n: nat)
    requires Follows(c, ops, ip, h) && n < |ops| && Open(h.views[n + 1]) && !Starts(ops, ip, h, n)
    ensures Open(h.views[n])
  {
    GoesOn(c, ops, ip, h, n);
  }

  lemma {:induction false} WindowTells(c: Settings, ops: seq<Op>, ip: Ip, h: History, n: nat) returns (o: nat)
    requires Follows(c, ops, ip, h) && n <= |ops| && Open(h.views[n])
    ensures LastStart(ops, ip, h, o, n) && Tells(ops, ip, h.views[n].value, o, n)
  {
    OpenIsLater(c, ops, ip, h, n);
    if Starts(ops, ip, h, n - 1) {
      o := n - 1;
      StartTells(c, ops, ip, h, o);
    } else {
      StillOpen(c, ops, ip, h, n - 1);
      o := WindowTells(c, ops, ip, h, n - 1);
      NextTells(c, ops, ip, h, o, n - 1);
    }
  }

  // ---------- the end of the window ----------

  /** The alert shuns ip until then; since it the source was not lost nor the opening of its window taken back. */
  ghost predicate Bears(ops: seq<Op>, ip: Ip, h: History, i: nat, n: nat, until: Time)
    requires n < |h.views| && n <= |h.lost| && n <= |ops|
  {
    i < n && Shuns(ops, i, ip, until) && Undisturbed(ops, ip, h, i, n)
  }

  /** An open window reaches as far as every such alert; without one, its time is over. */
  lemma {:induction false} BearsAtMost(c: Settings, ops: seq<Op>, ip: Ip, h: History, i: nat, n: nat, until: Time)
    requires c.shun && Clocked(ops) && Follows(c, ops, ip, h) && n <= |ops| && Bears(ops, ip, h, i, n, until)
    ensures if Open(h.views[n]) then until <= h.views[n].value.shunUntil else until <= ops[n - 1].now
    decreases n
  {
    assert FollowsAt(c, ops, ip, h, n - 1);
    if n > i + 1 {
      BearsAtMost(c, ops, ip, h, i, n - 1, until);
      assert ops[n - 2].now <= ops[n - 1].now;
      assert !Ends(ops[n - 1], ip, h.views[n - 1]);
    }
  }

  /** The longest of them sets the end of an open window. */
  ghost predicate EndsAt(ops: seq<Op>, ip: Ip, h: History, n: nat, until: Time)
    requires n < |h.views| && n <= |h.lost| && n <= |ops|
  {
    && (exists i: nat :: Bears(ops, ip, h, i, n, until))
    && forall i: nat, u: Time :: Bears(ops, ip, h, i, n, u) ==> u <= until
  }

  lemma WindowEndsAt(c: Settings, ops: seq<Op>, ip: Ip, h: History, n: nat)
    requires Clocked(ops) && Follows(c, ops, ip, h) && n <= |ops| && Open(h.views[n])
    ensures EndsAt(ops, ip, h, n, h.views[n].value.shunUntil)
  {
    var i := WindowHasCause(c, ops, n, ip, h);
    assert Bears(ops, ip, h, i, n, h.views[n].value.shunUntil);
    forall i: nat, u: Time | Bears(ops, ip, h, i, n, u) ensures u <= h.views[n].value.shunUntil {
      BearsAtMost(c, ops, ip, h, i, n, u);
    }
  }

  // ---------- the summaries ----------

  lemma SummaryShows(c: Settings, ops: seq<Op>, n: nat, ip: Ip)
    requires Clocked(ops) && n < |ops| && ip in OutAt(c, ops, n).sums
    ensures var v, x := HistoryOf(c, ops, ip).views[n], OutAt(c, ops, n).sums[ip];
      && Open(v) && v.value.suppressed > 0 && x.count == v.value.suppressed && x.protos == v.value.protos
      && x.span == (if ops[n].now < v.value.shunUntil then ops[n].now else v.value.shunUntil) - v.value.shunStart
  {
    RunValid(c, ops, n);
    StepDescribes(c, At(c, ops, n), ops[n]);
    assert HistoryOf(c, ops, ip).views[n] == View(At(c, ops, n), ip);
  }

  /** Every summary counts the rejections of its source since the window opened or was last flushed, names the first
      eight of their protocols, and spans from there to the end of the window or to now, whichever is earlier. */
  lemma SummaryIs(c: Settings, ops: seq<Op>, n: nat, ip: Ip) returns (o: nat, until: Time)
    requires Clocked(ops) && n < |ops| && ip in OutAt(c, ops, n).sums
    ensures var h, x := HistoryOf(c, ops, ip), OutAt(c, ops, n).sums[ip];
      && LastStart(ops, ip, h, o, n) && EndsAt(ops, ip, h, n, until)
      && x.count == |RejectsIn(ops, ip, o, n)| > 0
      && x.protos == FirstProtos(ops, ip, o, n)
      && x.span == (if ops[n].now < until then ops[n].now else until) - ops[o].now
  {
    var h := HistoryOf(c, ops, ip);
    SummaryShows(c, ops, n, ip);
    RunFollows(c, ops, ip);
    o := WindowTells(c, ops, ip, h, n);
    until := h.views[n].value.shunUntil;
    WindowEndsAt(c, ops, ip, h, n);
  }

  /** A summary names all protocols of its rejections, up to eight; of more it names eight. */
  lemma SummaryNames(c: Settings, ops: seq<Op>, n: nat, ip: Ip) returns (o: nat)
    requires Clocked(ops) && n < |ops| && ip in OutAt(c, ops, n).sums
    ensures var h, named := HistoryOf(c, ops, ip), OutAt(c, ops, n).sums[ip].protos;
      && LastStart(ops, ip, h, o, n)
      && var all := ProtosIn(ops, ip, o, n);
        if |all| <= 8 then named == all else named < all && |named| == 8
  {
    var until;
    o, until := SummaryIs(c, ops, n, ip);
    FirstSize(ops, ip, o, n);
  }

  // ---------- when one is written ----------

  lemma EmitsIn(c: Settings, ops: seq<Op>, ip: Ip, h: History, n: nat)
    requires Follows(c, ops, ip, h) && n < |ops| && (ops[n].Reject? ==> !h.lost[n])
    ensures h.emitted[n] > 0 <==>
      Pending(h.views[n]) > 0 && (ops[n].Flush? || !Open(h.views[n + 1]) || Opens(ops, ip, h, n))
  {
    assert FollowsAt(c, ops, ip, h, n);
  }

  /** A summary of a source is written if and only if rejections of it wait and the operation is a flush, ends its
      window or opens another one. */
  lemma WrittenIff(c: Settings, ops: seq<Op>, n: nat, ip: Ip)
    requires Clocked(ops) && n < |ops|
    ensures var h := HistoryOf(c, ops, ip);
      ip in OutAt(c, ops, n).sums <==>
        Pending(h.views[n]) > 0 && (ops[n].Flush? || !Open(h.views[n + 1]) || Opens(ops, ip, h, n))
  {
    RunFollows(c, ops, ip);
    if ops[n].Reject? {
      StepLosesNone(c, At(c, ops, n), ops[n]);
    }
    EmitsIn(c, ops, ip, HistoryOf(c, ops, ip), n);
    if ip in OutAt(c, ops, n).sums {
      SummaryShows(c, ops, n, ip);
    }
  }

  // ---------- which alerts open a window ----------

  lemma OwnLoss(c: Settings, s: State, op: Op, ip: Ip)
    requires Valid(c, s) && Records(op, ip) && ip in Step(c, s, op).out.lost
    ensures ip in s.entries && Expired(c, s.entries[ip], op.now)
  {
    PrepareDrops(c, s, ip, op.now);
  }

  lemma OpensIn(c: Settings, ops: seq<Op>, ip: Ip, h: History, n: nat)
    requires Follows(c, ops, ip, h) && n < |ops| && Records(ops[n], ip)
    requires h.lost[n] ==> h.views[n].Some? && Expired(c, h.views[n].value, ops[n].now)
    ensures h.begun[n] != 0 <==>
      c.shun && ops[n].cls != Probe && ops[n].window > 0 && !(Open(h.views[n]) && ops[n].now < h.views[n].value.shunUntil)
  {
    assert FollowsAt(c, ops, ip, h, n);
  }

  /** An alert opens a window if and only if it shuns and no earlier alert still does. */
  lemma OpensIff(c: Settings, ops: seq<Op>, n: nat, ip: Ip)
    requires c.shun && Clocked(ops) && n < |ops| && Records(ops[n], ip)
    ensures Opens(ops, ip, HistoryOf(c, ops, ip), n) <==>
      && (exists until: Time :: Shuns(ops, n, ip, until))
      && !exists i: nat, until: Time :: Effective(c, ops, n, ip, i, until)
  {
    var h := HistoryOf(c, ops, ip);
    RunFollows(c, ops, ip);
    RunValid(c, ops, n);
    if h.lost[n] {
      OwnLoss(c, At(c, ops, n), ops[n], ip);
    }
    OpensIn(c, ops, ip, h, n);
    EffectiveIff(c, ops, n, ip);
    if ops[n].cls != Probe && ops[n].window > 0 {
      assert Shuns(ops, n, ip, ops[n].now + ops[n].window);
    }
  }

  /** Some alert still shuns the source exactly if its window is open and not over. */
  lemma EffectiveIff(c: Settings, ops: seq<Op>, n: nat, ip: Ip)
    requires c.shun && Clocked(ops) && n < |ops|
    ensures var v := HistoryOf(c, ops, ip).views[n];
      (exists i: nat, until: Time :: Effective(c, ops, n, ip, i, until)) <==> Open(v) && ops[n].now < v.value.shunUntil
  {
    var h := HistoryOf(c, ops, ip);
    RunFollows(c, ops, ip);
    if Open(h.views[n]) && ops[n].now < h.views[n].value.shunUntil {
      var i := WindowHasCause(c, ops, n, ip, h);
      assert Effective(c, ops, n, ip, i, h.views[n].value.shunUntil);
    }
    if i: nat, until: Time :| Effective(c, ops, n, ip, i, until) {
      WindowPersists(c, ops, i, n, n, ip, until, h);
    }
  }
}
