/** When the worker gives a batch to send, whether it is posted, and when it pauses, told from the actions of a run. */
module BatchSends {
  import opened BatchWorker

  datatype Run = Run(acts: seq<Action>, states: seq<State>)

  ghost predicate Goes(c: Config, r: Run, n: nat) {
    n < |r.acts| && n + 1 < |r.states| ==>
      Enabled(r.states[n].w, r.acts[n]) && r.states[n + 1] == Step(c, r.states[n], r.acts[n])
  }

  ghost predicate IsRun(c: Config, r: Run) {
    |r.states| == |r.acts| + 1 && r.states[0] == START && forall n: nat :: Goes(c, r, n)
  }

  // ---------- what the actions say ----------

  /** Close interrupted a pause, and no post has succeeded since. */
  ghost predicate Abandoned(r: Run, n: nat) {
    exists k :: 0 <= k < n && k < |r.acts| && r.acts[k] == Hold(true) && forall j :: k < j < n && j < |r.acts| ==> r.acts[j] != Post(true)
  }

  /** A post was made while abandoned. */
  ghost predicate FinalMade(r: Run, n: nat) {
    exists k :: 0 <= k < n && k < |r.acts| && r.acts[k].Post? && Abandoned(r, k)
  }

  predicate Undoing(a: Action) {
    a.Revert? || a.Release?
  }

  /** The last thing that happened but for the undoing of failed alerts is a failed post that was not the final one. */
  ghost predicate PauseDue(r: Run, n: nat) {
    exists m :: 0 <= m < n && m < |r.acts| && r.acts[m] == Post(false) && !Abandoned(r, m)
                && forall j :: m < j < n && j < |r.acts| ==> Undoing(r.acts[j])
  }

  // ---------- the worker keeps them ----------

  lemma StepFlags(c: Config, w: Worker, a: Action)
    requires Enabled(w, a)
    ensures var t := On(c, w, a).w;
      && (t.abandon <==> a == Hold(true) || (w.abandon && a != Post(true)))
      && (t.finalTried <==> w.finalTried || (a.Post? && w.abandon))
  {
  }

  lemma AbandonedNext(r: Run, m: nat)
    requires m < |r.acts|
    ensures Abandoned(r, m + 1) <==> r.acts[m] == Hold(true) || (Abandoned(r, m) && r.acts[m] != Post(true))
  {
    if r.acts[m] == Hold(true) {
      assert Abandoned(r, m + 1);
    }
    if Abandoned(r, m) && r.acts[m] != Post(true) {
      var k :| 0 <= k < m && r.acts[k] == Hold(true) && forall j :: k < j < m && j < |r.acts| ==> r.acts[j] != Post(true);
      assert Abandoned(r, m + 1);
    }
  }

  lemma {:induction false} FlagsAre(c: Config, r: Run, n: nat)
    requires IsRun(c, r) && n <= |r.acts|
    ensures r.states[n].w.abandon <==> Abandoned(r, n)
    ensures r.states[n].w.finalTried <==> FinalMade(r, n)
  {
    if n > 0 {
      var m := n - 1;
      FlagsAre(c, r, m);
      assert Goes(c, r, m);
      StepFlags(c, r.states[m].w, r.acts[m]);
      AbandonedNext(r, m);
      if FinalMade(r, m) {
        assert FinalMade(r, n);
      }
    }
  }

  lemma {:induction false} RunSound(c: Config, r: Run, n: nat)
    requires IsRun(c, r) && n <= |r.acts|
    ensures Sound(c, r.states[n]) && InOrder(c, r.states[n])
  {
    if n > 0 {
      RunSound(c, r, n - 1);
      assert Goes(c, r, n - 1);
      StepKeepsOrder(c, r.states[n - 1], r.acts[n - 1]);
    }
  }

  // ---------- posted or failed ----------

  lemma StepPosts(c: Config, w: Worker, a: Action)
    requires Enabled(w, a)
    ensures var e := On(c, w, a);
      e.gave != [] ==> if e.w.abandon && e.w.finalTried then e.w.pc.Failing? && e.w.pc.b == e.gave && !e.w.pc.reverted && !e.w.pc.hold
                       else e.w.pc.Sending? && e.w.pc.b == e.gave
  {
  }

  /** A batch given to send is posted, unless the worker is abandoned and the final attempt was made: then it fails
      without a post. */
  lemma PostedUnless(c: Config, r: Run, n: nat) returns (b: seq<Msg>)
    requires IsRun(c, r) && n < |r.acts| && r.states[n + 1].given != r.states[n].given
    ensures r.states[n + 1].given == r.states[n].given + [b]
    ensures var pc := r.states[n + 1].w.pc;
      if Abandoned(r, n + 1) && FinalMade(r, n + 1) then pc.Failing? && pc.b == b && !pc.reverted
      else pc.Sending? && pc.b == b
  {
    assert Goes(c, r, n);
    b := On(c, r.states[n].w, r.acts[n]).gave;
    FlagsAre(c, r, n + 1);
    StepPosts(c, r.states[n].w, r.acts[n]);
  }

  // ---------- the final attempt ----------

  /** A worker that is posting while abandoned is at its final attempt. */
  lemma StepFinal(c: Config, w: Worker, a: Action)
    requires Enabled(w, a) && (w.pc.Sending? && w.abandon ==> !w.finalTried)
    ensures var t := On(c, w, a).w; t.pc.Sending? && t.abandon ==> !t.finalTried
  {
  }

  lemma {:induction false} PostingIsFirst(c: Config, r: Run, n: nat)
    requires IsRun(c, r) && n <= |r.acts|
    ensures var w := r.states[n].w; w.pc.Sending? && w.abandon ==> !w.finalTried
  {
    if n > 0 {
      PostingIsFirst(c, r, n - 1);
      assert Goes(c, r, n - 1);
      StepFinal(c, r.states[n - 1].w, r.acts[n - 1]);
    }
  }

  /** Over a whole run at most one post is made while abandoned. */
  lemma OneFinalAttempt(c: Config, r: Run, j: nat, k: nat)
    requires IsRun(c, r) && j < |r.acts| && k < |r.acts| && r.acts[j].Post? && r.acts[k].Post?
    requires Abandoned(r, j) && Abandoned(r, k)
    ensures j == k
  {
    assert Goes(c, r, j) && Goes(c, r, k);
    PostingIsFirst(c, r, j);
    PostingIsFirst(c, r, k);
    FlagsAre(c, r, j);
    FlagsAre(c, r, k);
  }

  // ---------- the pause ----------

  /** The worker is failing a batch after which it pauses, or it pauses. */
  predicate Pauses(w: Worker) {
    w.pc.Holding? || (w.pc.Failing? && w.pc.hold)
  }

  lemma StepPauses(c: Config, w: Worker, a: Action)
    requires Enabled(w, a)
    ensures Pauses(On(c, w, a).w) <==> (a == Post(false) && !w.abandon) || (Undoing(a) && Pauses(w))
  {
  }

  lemma DueNext(r: Run, m: nat)
    requires m < |r.acts|
    ensures PauseDue(r, m + 1) <==> (r.acts[m] == Post(false) && !Abandoned(r, m)) || (Undoing(r.acts[m]) && PauseDue(r, m))
  {
    if r.acts[m] == Post(false) && !Abandoned(r, m) {
      assert PauseDue(r, m + 1);
    }
    if Undoing(r.acts[m]) && PauseDue(r, m) {
      var k :| 0 <= k < m && r.acts[k] == Post(false) && !Abandoned(r, k) && forall j :: k < j < m && j < |r.acts| ==> Undoing(r.acts[j]);
      assert PauseDue(r, m + 1);
    }
  }

  lemma {:induction false} PausesIff(c: Config, r: Run, n: nat)
    requires IsRun(c, r) && n <= |r.acts|
    ensures Pauses(r.states[n].w) <==> PauseDue(r, n)
  {
    if n > 0 {
      var m := n - 1;
      PausesIff(c, r, m);
      assert Goes(c, r, m);
      FlagsAre(c, r, m);
      StepPauses(c, r.states[m].w, r.acts[m]);
      DueNext(r, m);
    }
  }

  /** Once the failed alerts are undone, the worker pauses if and only if a post failed that was not the final one. */
  lemma HoldIff(c: Config, r: Run, n: nat)
    requires IsRun(c, r) && n < |r.acts| && !Undoing(r.acts[n])
    ensures r.acts[n].Hold? <==> PauseDue(r, n)
  {
    assert Goes(c, r, n);
    PausesIff(c, r, n);
    RunSound(c, r, n);
  }

  // ---------- what is given, and for what cause ----------

  /** The batch is full, or the next alert waiting behind it would make it too large. */
  ghost predicate Due(c: Config, b: seq<Msg>, waiting: seq<Msg>) {
    |b| >= c.batchSize || (waiting != [] && Bytes(b) + waiting[0].size > 512 * 1024)
  }

  lemma StepGives(c: Config, w: Worker, a: Action)
    requires Filling(c, w) && Enabled(w, a) && c.batched
    ensures var e := On(c, w, a);
      e.gave != [] && !a.Tick? && !a.TakeClosed? ==> Due(c, e.gave, Waiting(e.w))
  {
  }

  lemma TickGives(c: Config, w: Worker, a: Action)
    requires Filling(c, w) && Enabled(w, a) && (a.Tick? || a.TakeClosed?)
    ensures Waiting(On(c, w, a).w) == [] && On(c, w, a).gave == Waiting(w)
  {
  }

  /** A batch is given to send only when it is full, when the next alert would make it too large, at a tick or at
      the close of the queue; the last two leave nothing waiting. */
  lemma GivenForCause(c: Config, r: Run, n: nat)
    requires IsRun(c, r) && n < |r.acts| && c.batched
    ensures var s, t, a := r.states[n], r.states[n + 1], r.acts[n];
      if a.Tick? || a.TakeClosed? then Waiting(t.w) == [] && t.given == (if Waiting(s.w) == [] then s.given else s.given + [Waiting(s.w)])
      else t.given != s.given ==> exists b :: t.given == s.given + [b] && Due(c, b, Waiting(t.w))
  {
    RunSound(c, r, n);
    assert Goes(c, r, n);
    var w, a := r.states[n].w, r.acts[n];
    if a.Tick? || a.TakeClosed? {
      TickGives(c, w, a);
    } else {
      StepGives(c, w, a);
    }
  }

  /** Nothing waits that has to go: what waits is no full batch, and within the byte limit. */
  lemma NothingOverdue(c: Config, r: Run, n: nat)
    requires IsRun(c, r) && n <= |r.acts| && r.states[n].w.pc == Selecting
    ensures var q := Waiting(r.states[n].w);
      q == [] || (c.batched && |q| < c.batchSize && (|q| >= 2 ==> Bytes(q) <= 512 * 1024))
  {
    RunSound(c, r, n);
    assert Waiting(r.states[n].w) == r.states[n].w.batch;
  }

  lemma StepAtOnce(c: Config, w: Worker, a: Action)
    requires Filling(c, w) && Enabled(w, a) && !c.batched
    ensures On(c, w, a).gave == (if a.Take? then [a.msg] else []) && Waiting(On(c, w, a).w) == []
  {
  }

  /** Without batching every alert is given to send by itself at once. */
  lemma GivenAtOnce(c: Config, r: Run, n: nat)
    requires IsRun(c, r) && n < |r.acts| && !c.batched
    ensures r.states[n + 1].given == r.states[n].given + (if r.acts[n].Take? then [[r.acts[n].msg]] else [])
    ensures Waiting(r.states[n + 1].w) == []
  {
    RunSound(c, r, n);
    assert Goes(c, r, n);
    StepAtOnce(c, r.states[n].w, r.acts[n]);
  }
}
