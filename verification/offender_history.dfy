/** What every run of the offender table guarantees about the alerts and rejections it was given. */
module OffenderHistory {
  import opened Fifo
  import opened Severity
  import opened Offenders
  import opened OffenderRuns

  /** The table after the first n operations. */
  function At(c: Settings, ops: seq<Op>, n: nat): (s: State)
    requires n <= |ops|
    ensures Linked(s)
  {
    if n == 0 then EMPTY else Step(c, At(c, ops, n - 1), ops[n - 1]).state
  }

  function OutAt(c: Settings, ops: seq<Op>, i: nat): Out
    requires i < |ops|
  {
    Step(c, At(c, ops, i), ops[i]).out
  }

  /** Clock readings do not go back in lock order. */
  ghost predicate Clocked(ops: seq<Op>) {
    forall i, j :: 0 <= i < j < |ops| ==> ops[i].now <= ops[j].now
  }

  /** Every revert undoes one earlier alert, and no alert is undone twice. */
  ghost predicate RevertsOnce(c: Settings, ops: seq<Op>) {
    && (forall j :: 0 <= j < |ops| && ops[j].Revert? ==>
          ops[j].of < j && ops[ops[j].of].Accept? && ops[j].mark == OutAt(c, ops, ops[j].of).mark)
    && (forall j, k :: 0 <= j < k < |ops| && ops[j].Revert? && ops[k].Revert? ==> ops[j].of != ops[k].of)
  }

  /** In every reachable state the map, the list and the active set agree, the list is sorted by the last
      alert and the table is within its bound. */
  lemma {:induction false} RunValid(c: Settings, ops: seq<Op>, n: nat)
    requires Clocked(ops) && n <= |ops|
    ensures Valid(c, At(c, ops, n))
    ensures n < |ops| ==> Before(At(c, ops, n), ops[n].now)
  {
    if n > 0 {
      RunValid(c, ops, n - 1);
      StepValid(c, At(c, ops, n - 1), ops[n - 1]);
    }
  }

  /** A run as a record: operations in lock order, the tables between them and their answers. */
  datatype Run = Run(ops: seq<Op>, states: seq<State>, outs: seq<Out>)

  ghost predicate Shaped(r: Run) {
    |r.states| == |r.ops| + 1 && |r.outs| == |r.ops|
  }

  ghost predicate Steps(c: Settings, r: Run, n: nat)
    requires Shaped(r)
  {
    n < |r.ops| ==> Linked(r.states[n]) && Step(c, r.states[n], r.ops[n]) == Result(r.states[n + 1], r.outs[n])
  }

  ghost predicate IsRun(c: Settings, r: Run) {
    Shaped(r) && r.states[0] == EMPTY && forall n: nat :: Steps(c, r, n)
  }

  const START := Run([], [EMPTY], [])

  function Last(r: Run): State
    requires r.states != []
  {
    r.states[|r.states| - 1]
  }

  function Extend(c: Settings, r: Run, op: Op): Run
    requires r.states != [] && Linked(Last(r))
  {
    var next := Step(c, Last(r), op);
    Run(r.ops + [op], r.states + [next.state], r.outs + [next.out])
  }

  lemma {:induction false} RunIsAt(c: Settings, r: Run, n: nat)
    requires IsRun(c, r) && n <= |r.ops|
    ensures r.states[n] == At(c, r.ops, n)
  {
    if n > 0 {
      RunIsAt(c, r, n - 1);
      assert Steps(c, r, n - 1);
    }
  }

  lemma RunOutIsAt(c: Settings, r: Run, n: nat)
    requires IsRun(c, r) && n < |r.ops|
    ensures r.outs[n] == OutAt(c, r.ops, n)
  {
    RunIsAt(c, r, n);
    assert Steps(c, r, n);
  }

  lemma LastLinked(c: Settings, r: Run)
    requires IsRun(c, r)
    ensures Linked(Last(r))
  {
    RunIsAt(c, r, |r.ops|);
  }

  /** Every operation can follow a run, and the clock stays in order if it did not go back. */
  lemma RunExtends(c: Settings, r: Run, op: Op)
    requires IsRun(c, r)
    ensures Linked(Last(r)) && IsRun(c, Extend(c, r, op))
    ensures Clocked(r.ops) && (r.ops == [] || r.ops[|r.ops| - 1].now <= op.now) ==> Clocked(Extend(c, r, op).ops)
  {
    LastLinked(c, r);
    var e := Extend(c, r, op);
    forall n: nat | n < |e.ops| ensures Steps(c, e, n) {
      if n < |r.ops| {
        assert Steps(c, r, n);
      }
    }
  }

  // ---------- the history of one source ----------

  /** The entry of one source and the window counter before each operation; whether the operation lost the
      source, the window it opened and the count of the summary it wrote for the source. */
  datatype History = History(
    views: seq<Option<Offender>>, wins: seq<nat>, lost: seq<bool>, begun: seq<nat>, emitted: seq<nat>)

  ghost function HistoryOf(c: Settings, ops: seq<Op>, ip: Ip): (h: History)
    ensures |h.views| == |h.wins| == |ops| + 1 && |h.lost| == |h.begun| == |h.emitted| == |ops|
    ensures forall n :: 0 <= n <= |ops| ==> h.views[n] == View(At(c, ops, n), ip)
    ensures forall n :: 0 <= n <= |ops| ==> h.wins[n] == At(c, ops, n).nextWin
    ensures forall n :: 0 <= n < |ops| ==> h.lost[n] == (ip in OutAt(c, ops, n).lost)
    ensures forall n :: 0 <= n < |ops| ==> h.begun[n] == OutAt(c, ops, n).mark.win
    ensures forall n :: 0 <= n < |ops| ==> h.emitted[n] == Emitted(OutAt(c, ops, n).sums, ip)
  {
    History(seq(|ops| + 1, n requires 0 <= n <= |ops| => View(At(c, ops, n), ip)),
            seq(|ops| + 1, n requires 0 <= n <= |ops| => At(c, ops, n).nextWin),
            seq(|ops|, n requires 0 <= n < |ops| => ip in OutAt(c, ops, n).lost),
            seq(|ops|, n requires 0 <= n < |ops| => OutAt(c, ops, n).mark.win),
            seq(|ops|, n requires 0 <= n < |ops| => Emitted(OutAt(c, ops, n).sums, ip)))
  }

  ghost function Kept(h: History, n: nat): Option<Offender>
    requires n < |h.views| && n < |h.lost|
  {
    if h.lost[n] then None else h.views[n]
  }

  ghost predicate FollowsAt(c: Settings, ops: seq<Op>, ip: Ip, h: History, n: nat)
    requires |h.views| == |h.wins| == |ops| + 1 && |h.lost| == |h.begun| == |h.emitted| == |ops|
  {
    n < |ops| ==>
      && h.views[n + 1] == Local(c, ip, Kept(h, n), ops[n], h.wins[n])
      && h.wins[n] <= h.wins[n + 1]
      && (ops[n].Revert? ==> !h.lost[n])
      && (ops[n].Accept? && h.begun[n] != 0 ==> h.begun[n] == h.wins[n + 1] == h.wins[n] + 1)
      && (Records(ops[n], ip) ==>
            var a := Arm(c, Base(Kept(h, n)), ops[n].cls, ops[n].window, ops[n].now, h.wins[n]);
            h.wins[n + 1] == a.nextWin && h.begun[n] == a.win)
      && (h.views[n].Some? ==> Tidy(h.views[n].value, h.wins[n]) && h.views[n].value.last <= ops[n].now)
      && Pending(h.views[n]) + (if Counted(ops[n], ip, h.views[n]) then 1 else 0)
           == Pending(h.views[n + 1]) + h.emitted[n]
  }

  /** h is a history in which the source is treated as if it were alone, apart from the losses. */
  ghost predicate Follows(c: Settings, ops: seq<Op>, ip: Ip, h: History) {
    && |h.views| == |h.wins| == |ops| + 1 && |h.lost| == |h.begun| == |h.emitted| == |ops|
    && h.views[0] == None
    && forall n: nat :: FollowsAt(c, ops, ip, h, n)
  }

  /** In every run each source has the history it would have alone, apart from the losses. */
  lemma RunFollows(c: Settings, ops: seq<Op>, ip: Ip)
    requires Clocked(ops)
    ensures Follows(c, ops, ip, HistoryOf(c, ops, ip))
  {
    var h := HistoryOf(c, ops, ip);
    forall n: nat | n < |ops| ensures FollowsAt(c, ops, ip, h, n) {
      RunValid(c, ops, n);
      StepActsLocally(c, At(c, ops, n), ops[n], ip);
      RunBegins(c, ops, n);
    }
  }

  /** A window that an alert opens gets the next id. */
  lemma RunBegins(c: Settings, ops: seq<Op>, n: nat)
    requires Clocked(ops) && n < |ops|
    ensures ops[n].Accept? && OutAt(c, ops, n).mark.win != 0 ==>
              OutAt(c, ops, n).mark.win == At(c, ops, n + 1).nextWin == At(c, ops, n).nextWin + 1
  {
    if ops[n].Accept? && ops[n].key.Some? {
      RunValid(c, ops, n);
      StepActsLocally(c, At(c, ops, n), ops[n], ops[n].key.value);
    }
  }

  // ---------- counts ----------

  ghost predicate Reverted(ops: seq<Op>, n: nat, i: nat) {
    exists j :: 0 <= j < n <= |ops| && ops[j].Revert? && ops[j].of == i
  }

  ghost predicate Stands(ops: seq<Op>, n: nat, ip: Ip, cls: Class, i: nat) {
    i < n <= |ops| && Records(ops[i], ip) && ops[i].cls == cls && !Reverted(ops, n, i)
  }

  /** The alerts for a source and class that were accepted and not taken back. */
  ghost function Standing(ops: seq<Op>, n: nat, ip: Ip, cls: Class): set<nat> {
    set i: nat | i < n && Stands(ops, n, ip, cls, i)
  }

  ghost predicate LostBefore(c: Settings, ops: seq<Op>, n: nat, ip: Ip)
    requires n <= |ops|
  {
    exists i :: 0 <= i < n && ip in OutAt(c, ops, i).lost
  }

  function Count(v: Option<Offender>, cls: Class): nat
    requires cls != NoClass
  {
    Base(v).counts[ClassIndex(cls)]
  }

  /** The marks name the alerts they undo. */
  ghost predicate Paired(ops: seq<Op>) {
    && (forall j :: 0 <= j < |ops| && ops[j].Revert? ==>
          && ops[j].of < j && ops[ops[j].of].Accept?
          && var a, m := ops[ops[j].of], ops[j].mark;
             if a.key == None || a.cls == NoClass then !m.ok
             else m.ok && m.key == a.key.value && m.idx == ClassIndex(a.cls))
    && (forall j, k :: 0 <= j < k < |ops| && ops[j].Revert? && ops[k].Revert? ==> ops[j].of != ops[k].of)
  }

  lemma RevertsArePaired(c: Settings, ops: seq<Op>)
    requires RevertsOnce(c, ops)
    ensures Paired(ops)
  {
  }

  lemma StandingStep(ops: seq<Op>, n: nat, ip: Ip, cls: Class)
    requires Paired(ops) && n < |ops| && cls != NoClass
    ensures var before, after := Standing(ops, n, ip, cls), Standing(ops, n + 1, ip, cls);
      if Records(ops[n], ip) && ops[n].cls == cls then
        n !in before && after == before + {n}
      else if Undoes(ops[n], ip) && ops[n].mark.idx == ClassIndex(cls) then
        ops[n].of in before && after == before - {ops[n].of}
      else after == before
  {
    var before, after := Standing(ops, n, ip, cls), Standing(ops, n + 1, ip, cls);
    forall i: nat | i < n
      ensures Reverted(ops, n + 1, i) <==> Reverted(ops, n, i) || (ops[n].Revert? && ops[n].of == i)
    {
      if ops[n].Revert? && ops[n].of == i { assert Reverted(ops, n + 1, i); }
      if Reverted(ops, n, i) { assert Reverted(ops, n + 1, i); }
    }
    assert !Reverted(ops, n + 1, n);
    assert ops[n].Revert? ==> !Reverted(ops, n, ops[n].of);
    assert forall i: nat :: i in after <==> i < n + 1 && Stands(ops, n + 1, ip, cls, i);
  }

  lemma StandingCount(ops: seq<Op>, n: nat, ip: Ip, cls: Class)
    requires Paired(ops) && n < |ops| && cls != NoClass
    ensures var before, after := |Standing(ops, n, ip, cls)|, |Standing(ops, n + 1, ip, cls)|;
      if Records(ops[n], ip) && ops[n].cls == cls then after == before + 1
      else if Undoes(ops[n], ip) && ops[n].mark.idx == ClassIndex(cls) then after == before - 1
      else after == before
  {
    StandingStep(ops, n, ip, cls);
  }

  /** How one operation moves a count. */
  lemma LocalCount(c: Settings, ip: Ip, v: Option<Offender>, op: Op, nextWin: nat, cls: Class)
    requires cls != NoClass
    ensures Count(Local(c, ip, v, op, nextWin), cls) ==
      if Records(op, ip) && op.cls == cls then Count(v, cls) + 1
      else if Undoes(op, ip) && op.mark.idx == ClassIndex(cls) && Count(v, cls) > 0 then Count(v, cls) - 1
      else Count(v, cls)
  {
  }

  lemma {:induction false} CountsStandIn(c: Settings, ops: seq<Op>, n: nat, ip: Ip, cls: Class, h: History)
    requires Paired(ops) && Follows(c, ops, ip, h) && n <= |ops| && cls != NoClass
    ensures Count(h.views[n], cls) <= |Standing(ops, n, ip, cls)|
    ensures (forall i :: 0 <= i < n ==> !h.lost[i]) ==> Count(h.views[n], cls) == |Standing(ops, n, ip, cls)|
  {
    if n == 0 {
      assert Standing(ops, 0, ip, cls) == {};
    } else {
      CountsStandIn(c, ops, n - 1, ip, cls, h);
      assert FollowsAt(c, ops, ip, h, n - 1);
      LocalCount(c, ip, Kept(h, n - 1), ops[n - 1], h.wins[n - 1], cls);
      StandingCount(ops, n - 1, ip, cls);
    }
  }

  /** A count never exceeds the alerts that stand, and equals them while the source was not lost. */
  lemma CountsStand(c: Settings, ops: seq<Op>, n: nat, ip: Ip, cls: Class)
    requires Clocked(ops) && RevertsOnce(c, ops) && n <= |ops| && cls != NoClass
    ensures Count(View(At(c, ops, n), ip), cls) <= |Standing(ops, n, ip, cls)|
    ensures !LostBefore(c, ops, n, ip) ==> Count(View(At(c, ops, n), ip), cls) == |Standing(ops, n, ip, cls)|
  {
    RunFollows(c, ops, ip);
    RevertsArePaired(c, ops);
    CountsStandIn(c, ops, n, ip, cls, HistoryOf(c, ops, ip));
  }

  /** The repeat cooldown is never applied before RepeatAfter alerts stand, counting the next one. */
  lemma RepeatNeedsStanding(c: Settings, ops: seq<Op>, n: nat, ip: Ip, cls: Class, base: int, now: Time)
    requires Clocked(ops) && RevertsOnce(c, ops) && n <= |ops| && cls != NoClass
    ensures var w := WindowFor(c, At(c, ops, n), Some(ip), cls, base, now);
      var stand := |Standing(ops, n, ip, cls)|;
      && (w == base || (w == c.repeat && stand + 1 >= c.repeatAfter))
      && (base > 0 && c.repeat > 0 && !LostBefore(c, ops, n, ip)
          && (ip in At(c, ops, n).entries ==> !Expired(c, At(c, ops, n).entries[ip], now))
          ==> w == if stand + 1 >= c.repeatAfter then c.repeat else base)
  {
    CountsStand(c, ops, n, ip, cls);
  }

  // ---------- shun windows ----------

  /** The i-th operation is an accepted alert for ip that shuns it until the given time. */
  ghost predicate Shuns(ops: seq<Op>, i: nat, ip: Ip, until: Time) {
    && i < |ops| && Records(ops[i], ip)
    && ops[i].cls != Probe && ops[i].window > 0 && ops[i].now + ops[i].window == until
  }

  predicate Open(v: Option<Offender>) {
    v.Some? && v.value.active
  }

  predicate Runs(v: Option<Offender>, w: nat) {
    Open(v) && v.value.winID == w
  }

  /** The operation takes back the alert that opened the window that runs. */
  predicate Ends(op: Op, ip: Ip, v: Option<Offender>) {
    Undoes(op, ip) && op.mark.win != 0 && Runs(v, op.mark.win)
  }

  /** From the i-th operation to the n-th the source was not lost and its window not ended by a revert. */
  ghost predicate Undisturbed(ops: seq<Op>, ip: Ip, h: History, i: nat, n: nat)
    requires n < |h.views| && n <= |h.lost| && n <= |ops|
  {
    forall m :: i < m < n ==> !h.lost[m] && !Ends(ops[m], ip, h.views[m])
  }

  /** The window that is open now got its end, and its id, from an alert, and ran unchanged ever since. */
  lemma {:induction false} WindowHasCause(c: Settings, ops: seq<Op>, n: nat, ip: Ip, h: History) returns (i: nat)
    requires Follows(c, ops, ip, h) && n <= |ops| && Open(h.views[n])
    ensures c.shun && i < n && Shuns(ops, i, ip, h.views[n].value.shunUntil) && Undisturbed(ops, ip, h, i, n)
    ensures h.begun[i] != 0 ==> h.begun[i] == h.views[n].value.winID
    ensures forall k :: i < k <= n ==> Runs(h.views[k], h.views[n].value.winID)
  {
    var v := h.views[n - 1];
    assert FollowsAt(c, ops, ip, h, n - 1);
    if !h.lost[n - 1] && Open(v) && v.value.shunUntil == h.views[n].value.shunUntil {
      i := WindowHasCause(c, ops, n - 1, ip, h);
    } else {
      i := n - 1;
    }
  }

  /** A window that its own opening alert holds open is held by an alert that was not taken back. */
  lemma OpenerStands(c: Settings, ops: seq<Op>, i: nat, n: nat, ip: Ip, h: History)
    requires Follows(c, ops, ip, h) && Paired(ops) && i < n <= |ops| && Records(ops[i], ip)
    requires forall j :: 0 <= j < |ops| && ops[j].Revert? && ops[j].mark.ok ==> ops[j].mark.win == h.begun[ops[j].of]
    requires h.begun[i] != 0 && Undisturbed(ops, ip, h, i, n) && forall k :: i < k <= n ==> Runs(h.views[k], h.begun[i])
    ensures !Reverted(ops, n, i)
  {
    forall j | 0 <= j < n && ops[j].Revert? ensures ops[j].of != i {
      assert i < j ==> !Ends(ops[j], ip, h.views[j]);
    }
  }

  /** A source is refused only inside the window of an accepted alert of its own that was not a probe and that
      set the end of the window; if that alert was taken back, it had only extended the window. */
  lemma RefusedHasCause(c: Settings, ops: seq<Op>, n: nat) returns (i: nat)
    requires Clocked(ops) && n < |ops| && OutAt(c, ops, n).refused
    ensures ops[n].Shunned? && ops[n].key.Some?
    ensures var ip := ops[n].key.value; var h := HistoryOf(c, ops, ip);
      && i < n && Open(h.views[n]) && Shuns(ops, i, ip, h.views[n].value.shunUntil) && ops[n].now < h.views[n].value.shunUntil
      && Undisturbed(ops, ip, h, i, n)
      && (RevertsOnce(c, ops) && Reverted(ops, n, i) ==> h.begun[i] == 0)
  {
    var ip := ops[n].key.value;
    var h := HistoryOf(c, ops, ip);
    RunFollows(c, ops, ip);
    i := WindowHasCause(c, ops, n, ip, h);
    if RevertsOnce(c, ops) && h.begun[i] != 0 {
      RevertsArePaired(c, ops);
      OpenerStands(c, ops, i, n, ip, h);
    }
  }

  /** An alert keeps its source refused to the end of its window, unless the source is lost or the alert that
      opened the window is taken back. */
  lemma {:induction false} WindowPersists(c: Settings, ops: seq<Op>, i: nat, k: nat, n: nat, ip: Ip, until: Time, h: History)
    requires c.shun && Clocked(ops) && Follows(c, ops, ip, h)
    requires Shuns(ops, i, ip, until) && i < k <= n < |ops| && ops[n].now < until && Undisturbed(ops, ip, h, i, n)
    ensures Open(h.views[k]) && until <= h.views[k].value.shunUntil
    decreases k
  {
    assert FollowsAt(c, ops, ip, h, k - 1);
    if k > i + 1 {
      WindowPersists(c, ops, i, k - 1, n, ip, until, h);
      assert !Ends(ops[k - 1], ip, h.views[k - 1]);
    }
  }

  lemma RefusesOpen(c: Settings, ops: seq<Op>, n: nat, ip: Ip)
    requires n < |ops| && ops[n].Shunned? && ops[n].key == Some(ip)
    ensures var v := View(At(c, ops, n), ip);
      OutAt(c, ops, n).refused <==> c.shun && Open(v) && ops[n].now < v.value.shunUntil
  {
  }

  /** Between the alert and the end of its window every query is refused. */
  lemma RefusedThroughout(c: Settings, ops: seq<Op>, i: nat, n: nat, ip: Ip, until: Time)
    requires c.shun && Clocked(ops) && Shuns(ops, i, ip, until) && i < n < |ops|
    requires Undisturbed(ops, ip, HistoryOf(c, ops, ip), i, n)
    requires ops[n].Shunned? && ops[n].key == Some(ip) && ops[n].now < until
    ensures OutAt(c, ops, n).refused
  {
    RefusesOpen(c, ops, n, ip);
    RunFollows(c, ops, ip);
    WindowPersists(c, ops, i, n, n, ip, until, HistoryOf(c, ops, ip));
  }

  /** The alert shuns the source at the time of the n-th operation, and neither a loss nor a revert undid that. */
  ghost predicate Effective(c: Settings, ops: seq<Op>, n: nat, ip: Ip, i: nat, until: Time)
    requires n < |ops|
  {
    i < n && Shuns(ops, i, ip, until) && ops[n].now < until && Undisturbed(ops, ip, HistoryOf(c, ops, ip), i, n)
  }

  /** A query is refused if and only if the window of some alert reaches beyond it and since that alert the
      source was not lost and no revert took back the opening of the window. */
  lemma RefusedIff(c: Settings, ops: seq<Op>, n: nat, ip: Ip)
    requires c.shun && Clocked(ops) && n < |ops| && ops[n].Shunned? && ops[n].key == Some(ip)
    ensures OutAt(c, ops, n).refused <==> exists i: nat, until: Time :: Effective(c, ops, n, ip, i, until)
  {
    if OutAt(c, ops, n).refused {
      var i := RefusedHasCause(c, ops, n);
      assert Effective(c, ops, n, ip, i, HistoryOf(c, ops, ip).views[n].value.shunUntil);
    }
    if i: nat, until: Time :| Effective(c, ops, n, ip, i, until) {
      RefusedThroughout(c, ops, i, n, ip, until);
    }
  }

  // ---------- window ids and undo ----------

  lemma LocalWindow(c: Settings, ip: Ip, v: Option<Offender>, op: Op, nextWin: nat, w: nat)
    requires 0 < w <= nextWin
    ensures Runs(Local(c, ip, v, op, nextWin), w) ==>
              Runs(v, w) && Local(c, ip, v, op, nextWin).value.shunUntil == v.value.shunUntil
  {
  }

  /** A window id is never used again: a window that runs now ran without change since its id was given. */
  lemma {:induction false} WindowUnchanged(c: Settings, ops: seq<Op>, ip: Ip, h: History, w: nat, k: nat, j: nat)
    requires Follows(c, ops, ip, h) && k <= j <= |ops| && 0 < w <= h.wins[k] && Runs(h.views[j], w)
    ensures Runs(h.views[k], w) && h.views[k].value.shunUntil == h.views[j].value.shunUntil
    ensures w <= h.wins[j]
    decreases j
  {
    if k < j {
      assert FollowsAt(c, ops, ip, h, j - 1);
      WinsGrow(c, ops, ip, h, k, j - 1);
      LocalWindow(c, ip, Kept(h, j - 1), ops[j - 1], h.wins[j - 1], w);
      WindowUnchanged(c, ops, ip, h, w, k, j - 1);
    }
  }

  lemma {:induction false} WinsGrow(c: Settings, ops: seq<Op>, ip: Ip, h: History, k: nat, j: nat)
    requires Follows(c, ops, ip, h) && k <= j <= |ops|
    ensures h.wins[k] <= h.wins[j]
    decreases j
  {
    if k < j {
      assert FollowsAt(c, ops, ip, h, j - 1);
      WinsGrow(c, ops, ip, h, k, j - 1);
    }
  }

  lemma IdsDifferIn(c: Settings, ops: seq<Op>, ip: Ip, h: History, i: nat, j: nat)
    requires Follows(c, ops, ip, h) && i < j < |ops| && ops[i].Accept? && ops[j].Accept?
    requires h.begun[i] != 0 && h.begun[j] != 0
    ensures h.begun[i] < h.begun[j]
  {
    assert FollowsAt(c, ops, ip, h, i);
    assert FollowsAt(c, ops, ip, h, j);
    WinsGrow(c, ops, ip, h, i + 1, j);
  }

  /** Two alerts never open windows with the same id. */
  lemma WindowIdsDiffer(c: Settings, ops: seq<Op>, ip: Ip, i: nat, j: nat)
    requires Clocked(ops) && i < j < |ops| && ops[i].Accept? && ops[j].Accept?
    requires HistoryOf(c, ops, ip).begun[i] != 0 && HistoryOf(c, ops, ip).begun[j] != 0
    ensures HistoryOf(c, ops, ip).begun[i] < HistoryOf(c, ops, ip).begun[j]
  {
    RunFollows(c, ops, ip);
    IdsDifferIn(c, ops, ip, HistoryOf(c, ops, ip), i, j);
  }

  lemma {:induction false} RevertEndsIn(c: Settings, ops: seq<Op>, j: nat, ip: Ip, h: History)
    requires Paired(ops) && Follows(c, ops, ip, h) && j < |ops| && Undoes(ops[j], ip)
    requires ops[j].mark.win == h.begun[ops[j].of]
    ensures var i, w := ops[j].of, ops[j].mark.win;
      && (Open(h.views[j]) && !Open(h.views[j + 1]) <==> w != 0 && forall k :: i < k <= j ==> Runs(h.views[k], w))
      && (w != 0 ==> forall k :: i < k <= j && Runs(h.views[k], w) ==> Shuns(ops, i, ip, h.views[k].value.shunUntil))
  {
    var i, w := ops[j].of, ops[j].mark.win;
    assert FollowsAt(c, ops, ip, h, i);
    assert FollowsAt(c, ops, ip, h, j);
    if w != 0 {
      assert w == h.wins[i + 1] && Runs(h.views[i + 1], w);
      forall k | i < k <= j && Runs(h.views[k], w)
        ensures Shuns(ops, i, ip, h.views[k].value.shunUntil)
      {
        WindowUnchanged(c, ops, ip, h, w, i + 1, k);
      }
      if Runs(h.views[j], w) {
        forall k | i < k <= j ensures Runs(h.views[k], w) {
          WinsGrow(c, ops, ip, h, i + 1, k);
          WindowUnchanged(c, ops, ip, h, w, k, j);
        }
      }
    }
  }

  /** Taking an alert back ends the window of its source exactly if the alert opened that window and it ran
      unchanged ever since, to the end the alert gave it; also across eviction and re-creation. */
  lemma RevertEndsOwnWindow(c: Settings, ops: seq<Op>, j: nat)
    requires Clocked(ops) && RevertsOnce(c, ops) && j < |ops| && ops[j].Revert? && ops[j].mark.ok
    ensures var i, ip, w := ops[j].of, ops[j].mark.key, ops[j].mark.win;
      var h := HistoryOf(c, ops, ip);
      && (Open(h.views[j]) && !Open(h.views[j + 1]) <==> w != 0 && forall k :: i < k <= j ==> Runs(h.views[k], w))
      && (w != 0 ==> forall k :: i < k <= j && Runs(h.views[k], w) ==> Shuns(ops, i, ip, h.views[k].value.shunUntil))
  {
    RunFollows(c, ops, ops[j].mark.key);
    RevertsArePaired(c, ops);
    RevertEndsIn(c, ops, j, ops[j].mark.key, HistoryOf(c, ops, ops[j].mark.key));
  }

  // ---------- nothing counted is lost ----------

  /** The rejections of ip that met an open window. */
  ghost function Rejections(ops: seq<Op>, ip: Ip, h: History, n: nat): nat
    requires n <= |ops| && n < |h.views|
  {
    if n == 0 then 0
    else Rejections(ops, ip, h, n - 1) + if Counted(ops[n - 1], ip, h.views[n - 1]) then 1 else 0
  }

  /** The sum of the counts in the summaries written for the source. */
  ghost function Summarised(h: History, n: nat): nat
    requires n <= |h.emitted|
  {
    if n == 0 then 0 else Summarised(h, n - 1) + h.emitted[n - 1]
  }

  lemma {:induction false} ConservedIn(c: Settings, ops: seq<Op>, n: nat, ip: Ip, h: History)
    requires Follows(c, ops, ip, h) && n <= |ops|
    ensures Rejections(ops, ip, h, n) == Summarised(h, n) + Pending(h.views[n])
  {
    if n > 0 {
      ConservedIn(c, ops, n - 1, ip, h);
      assert FollowsAt(c, ops, ip, h, n - 1);
    }
  }

  /** Through every end, revert, expiry, eviction, sweep and flush. */
  lemma RejectionsConserved(c: Settings, ops: seq<Op>, n: nat, ip: Ip)
    requires Clocked(ops) && n <= |ops|
    ensures var h := HistoryOf(c, ops, ip); Rejections(ops, ip, h, n) == Summarised(h, n) + Pending(h.views[n])
  {
    RunFollows(c, ops, ip);
    ConservedIn(c, ops, n, ip, HistoryOf(c, ops, ip));
  }
}
