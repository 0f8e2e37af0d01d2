/** Runs of a single source that show what taking alerts back does to its shun window. */
module OffenderExamples {
  import opened Fifo
  import opened Severity
  import opened Offenders
  import opened OffenderRuns
  import opened OffenderHistory

  const A: Ip := "a"

  /** The table holds no source but A. */
  ghost predicate Solo(s: State) {
    forall ip :: ip in s.entries ==> ip == A
  }

  ghost predicate AllForA(ops: seq<Op>) {
    forall k :: 0 <= k < |ops| ==> ForA(ops[k])
  }

  ghost predicate ForA(op: Op) {
    match op
    case Accept(key, cls, _, _) => key == Some(A) && cls != NoClass
    case Revert(mark, _, _) => mark.ok && mark.key == A && mark.idx < 3
    case Shunned(key, _) => key == Some(A)
    case Reject(key, _, _) => key == Some(A)
    case _ => true
  }

  /** A is alone: it stays alone, and is lost only when it is silent. */
  lemma SoloStep(c: Settings, s: State, op: Op)
    requires Valid(c, s) && Solo(s) && ForA(op)
    ensures var r := Step(c, s, op); Solo(r.state) && (A in r.out.lost ==> A in s.entries && Expired(c, s.entries[A], op.now))
  {
    StepActsLocally(c, s, op, A);
    if op.Accept? {
      SoloAccept(c, s, op);
    } else if op.Sweep? {
      SoloFront(c, CloseEnded(s, op.now), op.now);
    }
  }

  lemma SoloFront(c: Settings, s: State, now: Time)
    requires Linked(s) && Solo(s)
    ensures var r := SweepFront(c, s, now); Solo(r.state) && (A in r.lost ==> A in s.entries && Expired(c, s.entries[A], now))
  {
    SweepFrontDrops(c, s, now);
    assert s.order != [] ==> s.order[0] in s.entries;
  }

  lemma SoloAccept(c: Settings, s: State, op: Op)
    requires Valid(c, s) && Solo(s) && ForA(op) && op.Accept?
    ensures var r := Step(c, s, op); Solo(r.state) && (A in r.out.lost ==> A in s.entries && Expired(c, s.entries[A], op.now))
  {
    var own := DropSilent(c, s, A, op.now);
    assert A !in own.state.entries ==> own.state.entries == map[];
    assert Prepare(c, s, A, op.now) == own;
  }

  /** A source without an alert never enters the table. */
  lemma {:induction false} StrangerUnseen(c: Settings, ops: seq<Op>, ip: Ip, h: History, n: nat)
    requires Follows(c, ops, ip, h) && AllForA(ops) && ip != A && n <= |ops|
    ensures h.views[n] == None
  {
    if n > 0 {
      StrangerUnseen(c, ops, ip, h, n - 1);
      assert FollowsAt(c, ops, ip, h, n - 1);
    }
  }

  lemma SoloRun(c: Settings, ops: seq<Op>, n: nat)
    requires Clocked(ops) && n <= |ops| && AllForA(ops)
    ensures Solo(At(c, ops, n))
  {
    forall ip | ip in At(c, ops, n).entries ensures ip == A {
      if ip != A {
        RunFollows(c, ops, ip);
        StrangerUnseen(c, ops, ip, HistoryOf(c, ops, ip), n);
      }
    }
  }

  /** The history of A in a run of its own: it is lost only when it is silent. */
  ghost predicate AloneAt(c: Settings, ops: seq<Op>, h: History, n: nat)
    requires Follows(c, ops, A, h)
  {
    n < |ops| && h.lost[n] ==> h.views[n].Some? && Expired(c, h.views[n].value, ops[n].now)
  }

  ghost predicate Alone(c: Settings, ops: seq<Op>, h: History) {
    Follows(c, ops, A, h) && h.wins[0] == 0 && forall n: nat :: AloneAt(c, ops, h, n)
  }

  lemma RunAlone(c: Settings, ops: seq<Op>)
    requires Clocked(ops) && AllForA(ops)
    ensures Alone(c, ops, HistoryOf(c, ops, A))
  {
    RunFollows(c, ops, A);
    forall n: nat ensures AloneAt(c, ops, HistoryOf(c, ops, A), n) {
      if n < |ops| {
        SoloRun(c, ops, n);
        RunValid(c, ops, n);
        SoloStep(c, At(c, ops, n), ops[n]);
      }
    }
  }

  /** The next entry of A while it is not silent. */
  lemma AloneNext(c: Settings, ops: seq<Op>, h: History, n: nat)
    requires Alone(c, ops, h) && n < |ops| && (h.views[n].Some? ==> !Expired(c, h.views[n].value, ops[n].now))
    ensures h.views[n + 1] == Local(c, A, h.views[n], ops[n], h.wins[n])
    ensures Records(ops[n], A) ==>
      var a := Arm(c, Base(h.views[n]), ops[n].cls, ops[n].window, ops[n].now, h.wins[n]);
      h.wins[n + 1] == a.nextWin && h.begun[n] == a.win
  {
    assert FollowsAt(c, ops, A, h, n);
    assert AloneAt(c, ops, h, n);
  }

  /** A after one attack at 1 with window 10. */
  const ATTACKED := FRESH.(counts := [0, 1, 0], last := 1, shunStart := 1, shunUntil := 11, winID := 1, active := true)

  lemma AttackOpens(c: Settings, ops: seq<Op>, h: History)
    requires c.shun && Alone(c, ops, h) && |ops| > 0 && ops[0] == Accept(Some(A), Attack, 10, 1)
    ensures h.views[1] == Some(ATTACKED) && h.wins[1] == 1 && h.begun[0] == 1
  {
    AloneNext(c, ops, h, 0);
    assert [0, 0, 0][1 := 1] == [0, 1, 0];
  }

  /** An alert returns the mark with the window it opened. */
  lemma MarkOf(c: Settings, ops: seq<Op>, i: nat)
    requires Clocked(ops) && i < |ops| && Records(ops[i], A)
    ensures OutAt(c, ops, i).mark == Mark(true, A, ClassIndex(ops[i].cls), HistoryOf(c, ops, A).begun[i])
  {
    RunValid(c, ops, i);
    StepActsLocally(c, At(c, ops, i), ops[i], A);
  }

  /** The only revert of the run takes back the alert of its mark. */
  lemma OneRevert(c: Settings, ops: seq<Op>, i: nat, j: nat)
    requires Clocked(ops) && i < j < |ops| && Records(ops[i], A) && (forall k :: 0 <= k < |ops| && ops[k].Revert? ==> k == j)
    requires ops[j].Revert? && ops[j].of == i && ops[j].mark == Mark(true, A, ClassIndex(ops[i].cls), HistoryOf(c, ops, A).begun[i])
    ensures RevertsOnce(c, ops)
  {
    MarkOf(c, ops, i);
  }

  /** The answer to a query from the history. */
  lemma QueryOf(c: Settings, ops: seq<Op>, n: nat)
    requires n < |ops| && ops[n].Shunned? && ops[n].key == Some(A)
    ensures var v := HistoryOf(c, ops, A).views[n];
      OutAt(c, ops, n).refused <==> c.shun && Open(v) && ops[n].now < v.value.shunUntil
  {
    RefusesOpen(c, ops, n, A);
  }

  /** A scan whose shun ends with the attack that opened the window. */
  const SCAN_UNDER_ATTACK: seq<Op> :=
    [Accept(Some(A), Attack, 10, 1), Accept(Some(A), Scan, 5, 2), Revert(Mark(true, A, 1, 1), 0, 3), Shunned(Some(A), 4)]

  lemma ScanUnderAttackViews(c: Settings, ops: seq<Op>, h: History)
    requires c.shun && Alone(c, ops, h) && ops == SCAN_UNDER_ATTACK
    ensures !Open(h.views[3]) && h.begun[0] == 1
  {
    AttackOpens(c, ops, h);
    AloneNext(c, ops, h, 1);
    AloneNext(c, ops, h, 2);
  }

  lemma ScanUnderAttackShape(ops: seq<Op>)
    requires ops == SCAN_UNDER_ATTACK
    ensures Clocked(ops) && AllForA(ops) && Shuns(ops, 1, A, 7) && !Reverted(ops, 3, 1)
  {
  }

  lemma ScanUnderAttackReverts(c: Settings, ops: seq<Op>)
    requires c.shun && ops == SCAN_UNDER_ATTACK
    ensures RevertsOnce(c, ops)
  {
    ScanUnderAttackShape(ops);
    RunAlone(c, ops);
    ScanUnderAttackViews(c, ops, HistoryOf(c, ops, A));
    OneRevert(c, ops, 0, 2);
  }

  lemma ScanUnderAttackAnswer(c: Settings, ops: seq<Op>, n: nat)
    requires c.shun && ops == SCAN_UNDER_ATTACK && n == 3
    ensures !OutAt(c, ops, n).refused
  {
    ScanUnderAttackShape(ops);
    RunAlone(c, ops);
    ScanUnderAttackViews(c, ops, HistoryOf(c, ops, A));
    QueryOf(c, ops, n);
  }

  /** Why the condition is needed: the scan at 2 stands and its window reaches to 7, and at 4 the source is not
      refused, because the attack that opened the window was taken back at 3. */
  lemma StandingShunIsLost(c: Settings) returns (ops: seq<Op>, n: nat)
    requires c.shun
    ensures Clocked(ops) && RevertsOnce(c, ops) && n == 3 < |ops| && ops[n] == Shunned(Some(A), 4)
    ensures Shuns(ops, 1, A, 7) && !Reverted(ops, n, 1) && !OutAt(c, ops, n).refused
  {
    ops, n := SCAN_UNDER_ATTACK, 3;
    ScanUnderAttackShape(ops);
    ScanUnderAttackReverts(c, ops);
    ScanUnderAttackAnswer(c, ops, n);
  }

  /** A scan that extends the window of an attack and is taken back. */
  const EXTENDED_BY_SCAN: seq<Op> :=
    [Accept(Some(A), Attack, 10, 1), Accept(Some(A), Scan, 50, 2), Revert(Mark(true, A, 2, 0), 1, 3), Shunned(Some(A), 30)]

  lemma ExtendedByScanViews(c: Settings, ops: seq<Op>, h: History)
    requires c.shun && Alone(c, ops, h) && ops == EXTENDED_BY_SCAN
    ensures Open(h.views[3]) && h.views[3].value.shunUntil == 52 && h.begun[1] == 0
  {
    AttackOpens(c, ops, h);
    AloneNext(c, ops, h, 1);
    AloneNext(c, ops, h, 2);
  }

  lemma ExtendedByScanShape(ops: seq<Op>)
    requires ops == EXTENDED_BY_SCAN
    ensures Clocked(ops) && AllForA(ops) && Reverted(ops, 3, 1)
    ensures forall i: nat, until: Time :: Shuns(ops, i, A, until) && i < 3 && !Reverted(ops, 3, i) ==> until == 11
  {
    assert ops[2].Revert? && ops[2].of == 1;
  }

  lemma ExtendedByScanUndoes(ops: seq<Op>, win: nat)
    requires ops == EXTENDED_BY_SCAN && win == 0
    ensures Records(ops[1], A) && ops[2].Revert? && ops[2].of == 1 && ops[2].mark == Mark(true, A, ClassIndex(ops[1].cls), win)
    ensures forall k :: 0 <= k < |ops| && ops[k].Revert? ==> k == 2
  {
  }

  lemma ExtendedByScanReverts(c: Settings, ops: seq<Op>)
    requires c.shun && ops == EXTENDED_BY_SCAN
    ensures RevertsOnce(c, ops)
  {
    ExtendedByScanShape(ops);
    RunAlone(c, ops);
    ExtendedByScanViews(c, ops, HistoryOf(c, ops, A));
    ExtendedByScanUndoes(ops, HistoryOf(c, ops, A).begun[1]);
    OneRevert(c, ops, 1, 2);
  }

  lemma ExtendedByScanAnswer(c: Settings, ops: seq<Op>, n: nat)
    requires c.shun && ops == EXTENDED_BY_SCAN && n == 3
    ensures OutAt(c, ops, n).refused
  {
    ExtendedByScanShape(ops);
    RunAlone(c, ops);
    ExtendedByScanViews(c, ops, HistoryOf(c, ops, A));
    QueryOf(c, ops, n);
  }

  /** A source can be refused at 30 although the window of no alert that stands reaches beyond 11: the alert
      that extended the window was taken back. */
  lemma RefusedByTakenBackAlert(c: Settings) returns (ops: seq<Op>, n: nat)
    requires c.shun
    ensures Clocked(ops) && RevertsOnce(c, ops) && n == 3 < |ops| && ops[n] == Shunned(Some(A), 30) && OutAt(c, ops, n).refused
    ensures forall i: nat, until: Time :: Shuns(ops, i, A, until) && i < n && !Reverted(ops, n, i) ==> until == 11
  {
    ops, n := EXTENDED_BY_SCAN, 3;
    ExtendedByScanShape(ops);
    ExtendedByScanReverts(c, ops);
    ExtendedByScanAnswer(c, ops, n);
  }
}
