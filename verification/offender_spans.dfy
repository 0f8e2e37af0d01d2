/** The span a shun summary reports, and when it is negative. */
module OffenderSpans {
  import opened Fifo
  import opened Severity
  import opened Offenders
  import opened OffenderRuns
  import opened OffenderHistory
  import opened OffenderExamples

  // ---------- summaries describe the entry before the operation ----------

  ghost predicate Describes(s: State, sums: map<Ip, Summary>, now: Time) {
    forall ip :: ip in sums ==>
      ip in s.entries && s.entries[ip].active && s.entries[ip].suppressed > 0 && sums[ip] == SummaryOf(s.entries[ip], now)
  }

  lemma DroppedDescribes(c: Settings, s: State, r: Outcome, now: Time)
    requires Valid(c, s) && Dropped(s, r, now)
    ensures Describes(s, r.sums, now)
  {
    forall ip | ip in r.sums ensures s.entries[ip].active { assert Tidy(s.entries[ip], s.nextWin); }
  }

  lemma RecordDescribes(c: Settings, s: State, p: Outcome, op: Op)
    requires op.Accept? && op.key != None && op.cls != NoClass && Linked(p.state) && Dropped(s, p, op.now) && Describes(s, p.sums, op.now)
    ensures Describes(s, Record(c, p, op).out.sums, op.now)
  {
  }

  lemma AcceptDescribes(c: Settings, s: State, op: Op)
    requires Valid(c, s) && op.Accept?
    ensures Describes(s, Step(c, s, op).out.sums, op.now)
  {
    if op.key != None && op.cls != NoClass {
      var p := Prepare(c, s, op.key.value, op.now);
      PrepareDrops(c, s, op.key.value, op.now);
      DroppedDescribes(c, s, p, op.now);
      RecordDescribes(c, s, p, op);
    }
  }

  lemma SweepDescribes(c: Settings, s: State, op: Op)
    requires Valid(c, s) && op.Sweep?
    ensures Describes(s, Step(c, s, op).out.sums, op.now)
  {
    var t := CloseEnded(s, op.now);
    var r := SweepFront(c, t, op.now);
    SweepFrontDrops(c, t, op.now);
    forall ip | ip in r.lost ensures t.entries[ip].suppressed == 0 {
      assert Tidy(s.entries[ip], s.nextWin);
    }
  }

  lemma StepDescribes(c: Settings, s: State, op: Op)
    requires Valid(c, s)
    ensures Describes(s, Step(c, s, op).out.sums, op.now)
  {
    if op.Accept? {
      AcceptDescribes(c, s, op);
    } else if op.Sweep? {
      SweepDescribes(c, s, op);
    } else if op.Revert? && op.mark.key in s.entries {
      assert Tidy(s.entries[op.mark.key], s.nextWin);
    }
  }

  // ---------- the start of a window moves past its end ----------

  /** The f-th operation was a flush that wrote a summary of the window d or more after its end, and that window is
      open ever since, up to the n-th operation. */
  ghost predicate Overrun(ops: seq<Op>, h: History, f: nat, n: nat, d: nat) {
    && f < n < |h.views| && f < |ops| && ops[f].Flush? && Open(h.views[f])
    && h.views[f].value.suppressed > 0 && h.views[f].value.shunUntil + d <= ops[f].now
    && forall k :: f < k <= n ==> Runs(h.views[k], h.views[f].value.winID)
  }

  ghost predicate OverrunBefore(ops: seq<Op>, h: History, n: nat, d: nat) {
    exists f: nat :: Overrun(ops, h, f, n, d)
  }

  /** One step: an open window is new, was extended, was flushed, or is as it was. */
  ghost predicate Carried(c: Settings, ops: seq<Op>, ip: Ip, h: History, n: nat)
    requires n < |ops| && n + 1 < |h.views| && Open(h.views[n + 1])
  {
    var e, d := Base(h.views[n]), h.views[n + 1].value;
    && Open(h.views[n]) && d.winID == e.winID && d.shunUntil == e.shunUntil
    && (d.shunStart == e.shunStart || (ops[n].Flush? && e.suppressed > 0 && d.shunStart == ops[n].now))
    && (ops[n].Flush? && e.suppressed > 0 ==> d.shunStart == ops[n].now)
  }

  /** A window that was not carried over starts now or went on before its end, under a new id. */
  ghost predicate Renewed(ops: seq<Op>, h: History, n: nat)
    requires n < |ops| && n + 1 < |h.views| && n < |h.wins| && Open(h.views[n + 1])
  {
    var d := h.views[n + 1].value;
    && d.winID > h.wins[n] && ops[n].now < d.shunUntil
    && (d.shunStart == ops[n].now || (Open(h.views[n]) && d.shunStart == h.views[n].value.shunStart && ops[n].now < h.views[n].value.shunUntil))
  }

  lemma WindowMoves(c: Settings, ops: seq<Op>, ip: Ip, h: History, n: nat)
    requires Follows(c, ops, ip, h) && n < |ops| && Open(h.views[n + 1])
    ensures Carried(c, ops, ip, h, n) || Renewed(ops, h, n)
  {
    assert FollowsAt(c, ops, ip, h, n);
  }

  ghost predicate StartKnown(ops: seq<Op>, h: History, n: nat, d: nat)
    requires n < |h.views|
  {
    Open(h.views[n]) ==>
      && (h.views[n].value.shunStart >= h.views[n].value.shunUntil + d <==> OverrunBefore(ops, h, n, d))
      && (0 < n <= |ops| ==> h.views[n].value.shunStart <= ops[n - 1].now)
  }

  lemma CarriedKnown(c: Settings, ops: seq<Op>, ip: Ip, h: History, n: nat, d: nat)
    requires Clocked(ops) && Follows(c, ops, ip, h) && n < |ops| && Open(h.views[n + 1]) && Carried(c, ops, ip, h, n)
    requires d > 0 && StartKnown(ops, h, n, d)
    ensures StartKnown(ops, h, n + 1, d)
  {
    var e, next := h.views[n].value, h.views[n + 1].value;
    if f: nat :| Overrun(ops, h, f, n, d) {
      assert Overrun(ops, h, f, n + 1, d);
      assert next.shunUntil + d <= next.shunStart;
    } else if ops[n].Flush? && e.suppressed > 0 && e.shunUntil + d <= ops[n].now {
      assert Overrun(ops, h, n, n + 1, d);
    } else {
      var m := n + 1;
      forall f: nat ensures !Overrun(ops, h, f, m, d) {
        assert !Overrun(ops, h, f, n, d);
      }
    }
  }

  lemma RenewedKnown(c: Settings, ops: seq<Op>, ip: Ip, h: History, n: nat, d: nat)
    requires Clocked(ops) && Follows(c, ops, ip, h) && n < |ops| && Open(h.views[n + 1]) && Renewed(ops, h, n)
    requires d > 0 && StartKnown(ops, h, n, d)
    ensures StartKnown(ops, h, n + 1, d)
  {
    var m := n + 1;
    forall f: nat ensures !Overrun(ops, h, f, m, d) {
      if f < m {
        assert FollowsAt(c, ops, ip, h, f);
        WinsGrow(c, ops, ip, h, f, n);
      }
    }
    if Open(h.views[n]) && n > 0 {
      assert ops[n - 1].now <= ops[n].now;
    }
    if n == 0 {
      assert h.views[n] == None;
    }
  }

  lemma {:induction false} RunKnown(c: Settings, ops: seq<Op>, ip: Ip, h: History, n: nat, d: nat)
    requires d > 0 && Clocked(ops) && Follows(c, ops, ip, h) && n <= |ops|
    ensures StartKnown(ops, h, n, d)
  {
    if n > 0 {
      RunKnown(c, ops, ip, h, n - 1, d);
      if Open(h.views[n]) {
        WindowMoves(c, ops, ip, h, n - 1);
        if Carried(c, ops, ip, h, n - 1) {
          CarriedKnown(c, ops, ip, h, n - 1, d);
        } else {
          RenewedKnown(c, ops, ip, h, n - 1, d);
        }
      }
    }
  }

  /** A summary spans -d or less if and only if an earlier flush wrote a summary of the same window d or more after
      the end of the window and left it open. */
  lemma NegativeSpanIff(c: Settings, ops: seq<Op>, n: nat, ip: Ip, d: nat)
    requires Clocked(ops) && n < |ops| && ip in OutAt(c, ops, n).sums && d > 0
    ensures OutAt(c, ops, n).sums[ip].span + d <= 0 <==> OverrunBefore(ops, HistoryOf(c, ops, ip), n, d)
  {
    var h := HistoryOf(c, ops, ip);
    RunValid(c, ops, n);
    StepDescribes(c, At(c, ops, n), ops[n]);
    RunFollows(c, ops, ip);
    RunKnown(c, ops, ip, h, n, d);
    assert h.views[n] == View(At(c, ops, n), ip);
  }

  lemma Quotient(a: nat, s: nat)
    requires s > 0
    ensures a / s >= 0 && (a / s > 0 <==> a >= s)
  {
    var q := a / s;
    assert a == s * q + a % s && 0 <= a % s < s;
    if q > 0 {
      assert s * q == s + s * (q - 1);
    }
  }

  function Whole(a: nat, s: nat): (q: nat)
    requires s > 0
    ensures q > 0 <==> a >= s
  {
    Quotient(a, s);
    a / s
  }

  /** A span in whole seconds, rounded towards zero, of so many ticks each. */
  function Seconds(span: int, second: nat): (n: int)
    requires second > 0
    ensures n < 0 <==> span + second <= 0
  {
    if span >= 0 then Whole(span, second) else 0 - Whole(0 - span, second)
  }

  /** The summary line shows a negative number of seconds if and only if such a flush came a second or more after
      the end of the window. */
  lemma NegativeSecondsIff(c: Settings, ops: seq<Op>, n: nat, ip: Ip, second: nat)
    requires Clocked(ops) && n < |ops| && ip in OutAt(c, ops, n).sums && second > 0
    ensures Seconds(OutAt(c, ops, n).sums[ip].span, second) < 0 <==> OverrunBefore(ops, HistoryOf(c, ops, ip), n, second)
  {
    NegativeSpanIff(c, ops, n, ip, second);
  }

  // ---------- such a run ----------

  /** An attack at 1 with window 10. Two connections are refused at 5; the rejection of one is counted before and that
      of the other after the flush that comes long after the end of the window. A third connection then arrives. */
  function LateFlush(second: nat): seq<Op> {
    [Accept(Some(A), Attack, 10, 1), Shunned(Some(A), 5), Shunned(Some(A), 5), Reject(Some(A), "ssh", 6),
     Flush(20 + second), Reject(Some(A), "ssh", 21 + second), Shunned(Some(A), 22 + second)]
  }

  lemma LateFlushShape(ops: seq<Op>, second: nat)
    requires ops == LateFlush(second)
    ensures Clocked(ops) && AllForA(ops)
  {
  }

  /** The operation leaves an open window open. */
  predicate Leaves(op: Op, e: Offender) {
    op.Flush? || (op.Reject? && op.key == Some(A)) || (op.Shunned? && op.now < e.shunUntil)
  }

  lemma LeftOpen(c: Settings, ops: seq<Op>, h: History, n: nat)
    requires Alone(c, ops, h) && n < |ops| && Open(h.views[n]) && Leaves(ops[n], h.views[n].value) && !h.lost[n]
    ensures Open(h.views[n + 1]) && h.views[n + 1].value.shunUntil == h.views[n].value.shunUntil
    ensures ops[n].Shunned? ==> h.views[n + 1] == h.views[n]
    ensures ops[n].Reject? ==> h.views[n + 1].value.shunStart == h.views[n].value.shunStart && h.views[n + 1].value.suppressed == h.views[n].value.suppressed + 1
    ensures ops[n].Flush? && h.views[n].value.suppressed > 0 ==> h.views[n + 1].value.shunStart == ops[n].now && h.views[n + 1].value.suppressed == 0
  {
    assert FollowsAt(c, ops, A, h, n);
  }

  /** Only an alert and a sweep lose a source. */
  lemma StepLosesNone(c: Settings, s: State, op: Op)
    requires Linked(s) && (op.Reject? || op.Flush? || op.Shunned?)
    ensures Step(c, s, op).out.lost == {}
  {
  }

  lemma NeverLostBy(c: Settings, ops: seq<Op>, n: nat)
    requires n < |ops| && (ops[n].Reject? || ops[n].Flush? || ops[n].Shunned?)
    ensures !HistoryOf(c, ops, A).lost[n]
  {
    StepLosesNone(c, At(c, ops, n), ops[n]);
  }

  lemma LateFlushViews(c: Settings, ops: seq<Op>, h: History, second: nat)
    requires c.shun && Alone(c, ops, h) && ops == LateFlush(second) && forall k :: 0 < k < |ops| ==> !h.lost[k]
    ensures h.views[1] == h.views[2] == Some(ATTACKED)
    ensures Open(h.views[6]) && h.views[6].value.shunStart == 20 + second && h.views[6].value.shunUntil == 11 && h.views[6].value.suppressed == 1
  {
    AttackOpens(c, ops, h);
    LeftOpen(c, ops, h, 1);
    LeftOpen(c, ops, h, 2);
    LeftOpen(c, ops, h, 3);
    LeftOpen(c, ops, h, 4);
    LeftOpen(c, ops, h, 5);
  }

  /** A query writes the summary of a window that is over. */
  lemma QueryReports(c: Settings, ops: seq<Op>, n: nat)
    requires c.shun && Clocked(ops) && n < |ops| && ops[n].Shunned? && ops[n].key == Some(A) && Open(HistoryOf(c, ops, A).views[n])
    requires var e := HistoryOf(c, ops, A).views[n].value; e.suppressed > 0 && e.shunUntil <= ops[n].now
    ensures A in OutAt(c, ops, n).sums && OutAt(c, ops, n).sums[A] == SummaryOf(HistoryOf(c, ops, A).views[n].value, ops[n].now)
  {
    RunValid(c, ops, n);
    StepDescribes(c, At(c, ops, n), ops[n]);
    assert HistoryOf(c, ops, A).views[n] == View(At(c, ops, n), A);
  }

  lemma LateFlushReports(c: Settings, ops: seq<Op>, n: nat, second: nat)
    requires c.shun && ops == LateFlush(second) && n == 6
    ensures A in OutAt(c, ops, n).sums && OutAt(c, ops, n).sums[A].span == -9 - second
    ensures OutAt(c, ops, n - 5).refused && OutAt(c, ops, n - 4).refused
  {
    var h := HistoryOf(c, ops, A);
    LateFlushShape(ops, second);
    RunAlone(c, ops);
    forall k | 0 < k < |ops| ensures !h.lost[k] {
      NeverLostBy(c, ops, k);
    }
    LateFlushViews(c, ops, h, second);
    QueryOf(c, ops, n - 5);
    QueryOf(c, ops, n - 4);
    QueryReports(c, ops, n);
  }

  /** A run whose last summary shows a negative number of seconds. Each of its rejections follows a refused query. */
  lemma NegativeSpanHappens(c: Settings, second: nat) returns (ops: seq<Op>, n: nat)
    requires c.shun && second > 0
    ensures Clocked(ops) && n == 6 < |ops| && OutAt(c, ops, 1).refused && OutAt(c, ops, 2).refused
    ensures A in OutAt(c, ops, n).sums && Seconds(OutAt(c, ops, n).sums[A].span, second) < 0
  {
    ops, n := LateFlush(second), 6;
    LateFlushShape(ops, second);
    LateFlushReports(c, ops, n, second);
  }
}
