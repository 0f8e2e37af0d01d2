/** The worker of the CrowdSec sink: it takes queued alerts, batches them, posts them and undoes failed ones. */
module BatchWorker {
  import Offenders

  // The estimated JSON size at which a batch is flushed early: 512 KiB.
  const MAX_BATCH_BYTES := 512 * 1024

  /** A queued alert. id numbers the offender table operation that recorded it, pass the cooldown operation
      that let it through; size and encodes describe its JSON form. */
  datatype Msg = Msg(id: nat, pass: nat, key: string, slot: nat, mark: Offenders.Mark, size: nat, encodes: bool)

  datatype Config = Config(batched: bool, batchSize: int)

  /** What the worker does once a send is over. */
  datatype Cont = Resume | Append(msg: Msg) | Exit

  datatype Pc =
    | Selecting
    | Sending(b: seq<Msg>, k: Cont)
    // Failing undoes b from the front; reverted tells that the table record of b[0] is undone already.
    | Failing(b: seq<Msg>, reverted: bool, k: Cont, hold: bool)
    | Holding(k: Cont)
    | Stopped

  datatype Worker = Worker(pc: Pc, batch: seq<Msg>, bytes: nat, abandon: bool, finalTried: bool)

  /** The worker with what it took, the batches given to send, and the alerts that were sent or failed. */
  datatype State = State(w: Worker, taken: seq<Msg>, given: seq<seq<Msg>>, sent: seq<Msg>, failed: seq<Msg>)

  const START := State(Worker(Selecting, [], 0, false, false), [], [], [], [])

  // ---------- steps ----------

  /** The worker after a step and the batch it gave to send on the way, if any. */
  datatype Effect = Effect(w: Worker, gave: seq<Msg>)

  /** The entry of send: once the final attempt is used up, a batch is failed without a post. */
  function StartSend(w: Worker, b: seq<Msg>, k: Cont): Effect {
    Effect(w.(pc := if w.abandon && w.finalTried then Failing(b, false, k, false) else Sending(b, k)), b)
  }

  function SendBatch(w: Worker, k: Cont): Effect {
    StartSend(w.(batch := [], bytes := 0), w.batch, k)
  }

  function AddToBatch(c: Config, w: Worker, msg: Msg): Effect {
    var full := w.(pc := Selecting, batch := w.batch + [msg], bytes := w.bytes + msg.size);
    if |full.batch| >= c.batchSize then SendBatch(full, Resume) else Effect(full, [])
  }

  function Continue(c: Config, w: Worker, k: Cont): Effect {
    match k
    case Resume => Effect(w.(pc := Selecting), [])
    case Append(msg) => AddToBatch(c, w, msg)
    case Exit => Effect(w.(pc := Stopped), [])
  }

  datatype Action =
    | Take(msg: Msg)               // an alert from the queue
    | TakeClosed                   // the queue is closed and empty
    | Tick
    | Post(ok: bool)               // the outcome of one flush
    | Revert                       // undo the table record of the first failed alert
    | Release                      // free its cooldown slot
    | Hold(interrupted: bool)

  predicate Enabled(w: Worker, a: Action) {
    match a
    case Take(_) => w.pc == Selecting
    case TakeClosed => w.pc == Selecting
    case Tick => w.pc == Selecting
    case Post(ok) => w.pc.Sending? && (ok ==> forall m :: m in w.pc.b ==> m.encodes)
    case Revert => w.pc.Failing? && !w.pc.reverted && w.pc.b != []
    case Release => w.pc.Failing? && w.pc.reverted && w.pc.b != []
    case Hold(_) => w.pc.Holding?
  }

  function OnTake(c: Config, w: Worker, msg: Msg): Effect {
    if !c.batched then StartSend(w, [msg], Resume)
    else if !msg.encodes then Effect(w.(pc := Failing([msg], false, Resume, false)), [])
    else if w.batch != [] && w.bytes + msg.size > MAX_BATCH_BYTES then SendBatch(w, Append(msg))
    else AddToBatch(c, w, msg)
  }

  function OnPost(c: Config, w: Worker, ok: bool): Effect
    requires w.pc.Sending?
  {
    var tried := if w.abandon then w.(finalTried := true, abandon := !ok) else w;
    if ok then Continue(c, tried, w.pc.k)
    else Effect(tried.(pc := Failing(w.pc.b, false, w.pc.k, !w.abandon)), [])
  }

  function OnRelease(c: Config, w: Worker): Effect
    requires w.pc.Failing? && w.pc.b != []
  {
    if |w.pc.b| > 1 then Effect(w.(pc := Failing(w.pc.b[1..], false, w.pc.k, w.pc.hold)), [])
    else if w.pc.hold then Effect(w.(pc := Holding(w.pc.k)), [])
    else Continue(c, w, w.pc.k)
  }

  function On(c: Config, w: Worker, a: Action): Effect
    requires Enabled(w, a)
  {
    match a
    case Take(msg) => OnTake(c, w, msg)
    case TakeClosed => if c.batched && w.batch != [] then SendBatch(w, Exit) else Effect(w.(pc := Stopped), [])
    case Tick => if c.batched && w.batch != [] then SendBatch(w, Resume) else Effect(w, [])
    case Post(ok) => OnPost(c, w, ok)
    case Revert => Effect(w.(pc := w.pc.(reverted := true)), [])
    case Release => OnRelease(c, w)
    case Hold(interrupted) => Continue(c, w.(abandon := w.abandon || interrupted), w.pc.k)
  }

  /** What an action takes in, sends and fails. */
  function Intake(a: Action): seq<Msg> {
    if a.Take? then [a.msg] else []
  }

  function SentBy(w: Worker, a: Action): seq<Msg> {
    if a == Post(true) && w.pc.Sending? then w.pc.b else []
  }

  function FailedBy(w: Worker, a: Action): seq<Msg> {
    if a.Revert? && w.pc.Failing? && w.pc.b != [] then [w.pc.b[0]] else []
  }

  function Step(c: Config, s: State, a: Action): State
    requires Enabled(s.w, a)
  {
    var e := On(c, s.w, a);
    State(e.w, s.taken + Intake(a), if e.gave == [] then s.given else s.given + [e.gave],
          s.sent + SentBy(s.w, a), s.failed + FailedBy(s.w, a))
  }

  // ---------- what the worker holds ----------

  function Carried(k: Cont): seq<Msg> {
    if k.Append? then [k.msg] else []
  }

  /** The alerts of a send or a failure that are still undecided. */
  function Undecided(pc: Pc): seq<Msg> {
    match pc
    case Sending(b, _) => b
    case Failing(b, reverted, _, _) => if reverted && b != [] then b[1..] else b
    case _ => []
  }

  function ContOf(pc: Pc): Cont {
    match pc
    case Selecting => Resume
    case Sending(_, k) => k
    case Failing(_, _, k, _) => k
    case Holding(k) => k
    case Stopped => Exit
  }

  function Next(pc: Pc): seq<Msg> {
    Carried(ContOf(pc))
  }

  function Count(ms: seq<Msg>, m: Msg): nat {
    if ms == [] then 0 else Count(ms[..|ms| - 1], m) + if ms[|ms| - 1] == m then 1 else 0
  }

  /** How often m is among the alerts whose fate is open. */
  function Held(w: Worker, m: Msg): nat {
    Count(Undecided(w.pc), m) + Count(Next(w.pc), m) + Count(w.batch, m)
  }

  /** What waits to be batched, in queue order. */
  function Waiting(w: Worker): seq<Msg> {
    Next(w.pc) + w.batch
  }

  function Bytes(b: seq<Msg>): nat {
    if b == [] then 0 else Bytes(b[..|b| - 1]) + b[|b| - 1].size
  }

  function Flatten(bs: seq<seq<Msg>>): seq<Msg> {
    if bs == [] then [] else Flatten(bs[..|bs| - 1]) + bs[|bs| - 1]
  }

  /** The alerts that go into batches: all of them without batching, else those that encode. */
  function Batchable(c: Config, ms: seq<Msg>): seq<Msg> {
    if ms == [] then []
    else
      var last := ms[|ms| - 1];
      Batchable(c, ms[..|ms| - 1]) + if !c.batched || last.encodes then [last] else []
  }

  /** A batch of two or more is within the byte limit, and no batch exceeds the configured size. */
  predicate Bounded(c: Config, b: seq<Msg>) {
    && b != []
    && (|b| >= 2 ==> Bytes(b) <= MAX_BATCH_BYTES)
    && (|b| == 1 || |b| <= c.batchSize)
  }

  /** The batch being filled. */
  ghost predicate Filling(c: Config, w: Worker) {
    && w.bytes == Bytes(w.batch)
    && (|w.batch| >= 2 ==> w.bytes <= MAX_BATCH_BYTES)
    && (w.batch == [] || |w.batch| < c.batchSize)
    && (ContOf(w.pc) != Resume ==> w.batch == [])
    && (!c.batched ==> w.batch == [] && Next(w.pc) == [])
    && (w.pc.Sending? || w.pc.Failing? ==> w.pc.b != [])
  }

  ghost predicate Sound(c: Config, s: State) {
    && Filling(c, s.w)
    && (forall b :: b in s.given ==> Bounded(c, b))
  }

  /** The batches given to send, followed by what waits to be batched, are the queue order. */
  ghost predicate InOrder(c: Config, s: State) {
    Batchable(c, s.taken) == Flatten(s.given) + Waiting(s.w)
  }

  /** Every alert that was taken is held, sent or failed, exactly once. */
  ghost predicate Accounted(s: State) {
    forall m :: Count(s.taken, m) == Count(s.sent, m) + Count(s.failed, m) + Held(s.w, m)
  }

  // ---------- every step keeps all of this ----------

  lemma BytesAppend(b: seq<Msg>, m: Msg)
    ensures Bytes(b + [m]) == Bytes(b) + m.size
  {
    assert (b + [m])[..|b|] == b;
  }

  lemma FlattenAppend(bs: seq<seq<Msg>>, b: seq<Msg>)
    ensures Flatten(bs + [b]) == Flatten(bs) + b
  {
    assert (bs + [b])[..|bs|] == bs;
  }

  lemma BatchableAppend(c: Config, ms: seq<Msg>, m: Msg)
    ensures Batchable(c, ms + [m]) == Batchable(c, ms) + if !c.batched || m.encodes then [m] else []
  {
    assert (ms + [m])[..|ms|] == ms;
  }

  lemma {:induction false} CountAppend(a: seq<Msg>, b: seq<Msg>, m: Msg)
    ensures Count(a + b, m) == Count(a, m) + Count(b, m)
  {
    if b == [] {
      assert a + b == a;
    } else {
      CountAppend(a, b[..|b| - 1], m);
      assert (a + b)[..|a + b| - 1] == a + b[..|b| - 1];
    }
  }

  lemma CountFirst(b: seq<Msg>, m: Msg)
    requires b != []
    ensures Count(b, m) == (if b[0] == m then 1 else 0) + Count(b[1..], m)
  {
    CountAppend([b[0]], b[1..], m);
    assert b == [b[0]] + b[1..];
    assert [b[0]][..0] == [];
  }

  /** A worker that continues with k: the carried alert has its batch to itself. */
  ghost predicate Continues(c: Config, w: Worker, k: Cont) {
    && w.bytes == Bytes(w.batch)
    && (|w.batch| >= 2 ==> w.bytes <= MAX_BATCH_BYTES)
    && (w.batch == [] || |w.batch| < c.batchSize)
    && (k != Resume ==> w.batch == [])
    && (!c.batched ==> w.batch == [] && !k.Append?)
  }

  /** What a step promises: a sound worker, a bounded batch, and in order what was given and what still waits. */
  ghost predicate Good(c: Config, e: Effect, order: seq<Msg>) {
    && Filling(c, e.w)
    && (e.gave == [] || Bounded(c, e.gave))
    && e.gave + Waiting(e.w) == order
  }

  lemma AddToBatchGood(c: Config, w: Worker, m: Msg)
    requires c.batched && w.bytes == Bytes(w.batch)
    requires w.batch != [] ==> w.bytes + m.size <= MAX_BATCH_BYTES && |w.batch| < c.batchSize
    ensures Good(c, AddToBatch(c, w, m), w.batch + [m])
  {
    var all := w.batch + [m];
    BytesAppend(w.batch, m);
    assert Bounded(c, all) || |all| < c.batchSize;
    if |all| >= c.batchSize {
      assert all + [] == all;
    }
  }

  lemma SendBatchGood(c: Config, w: Worker, k: Cont)
    requires c.batched && w.batch != [] && Filling(c, w)
    ensures Good(c, SendBatch(w, k), w.batch + Carried(k))
  {
  }

  lemma ContinueGood(c: Config, w: Worker, k: Cont)
    requires Continues(c, w, k)
    ensures Good(c, Continue(c, w, k), Carried(k) + w.batch)
  {
    if k.Append? {
      AddToBatchGood(c, w, k.msg);
    }
  }

  /** The alert an action adds to what is to be batched. */
  function Batched(c: Config, a: Action): seq<Msg> {
    if a.Take? && (!c.batched || a.msg.encodes) then [a.msg] else []
  }

  ghost predicate KeepsOrder(c: Config, w: Worker, a: Action)
    requires Enabled(w, a)
  {
    Good(c, On(c, w, a), Waiting(w) + Batched(c, a))
  }

  lemma TakeGood(c: Config, w: Worker, m: Msg)
    requires Filling(c, w) && w.pc == Selecting
    ensures KeepsOrder(c, w, Take(m))
  {
    SelectingWaits(c, w, m);
    if !c.batched || !m.encodes {
      TakeAloneGood(c, w, m);
    } else if w.batch != [] && w.bytes + m.size > MAX_BATCH_BYTES {
      SendBatchGood(c, w, Append(m));
    } else {
      AddToBatchGood(c, w, m);
    }
  }

  lemma SelectingWaits(c: Config, w: Worker, m: Msg)
    requires w.pc == Selecting
    ensures Waiting(w) + Batched(c, Take(m)) == w.batch + if !c.batched || m.encodes then [m] else []
  {
  }

  lemma TakeAloneGood(c: Config, w: Worker, m: Msg)
    requires Filling(c, w) && w.pc == Selecting && (!c.batched || !m.encodes)
    ensures Good(c, OnTake(c, w, m), w.batch + if !c.batched then [m] else [])
  {
  }

  lemma TickGood(c: Config, w: Worker)
    requires Filling(c, w) && w.pc == Selecting
    ensures KeepsOrder(c, w, Tick) && KeepsOrder(c, w, TakeClosed)
  {
    if c.batched && w.batch != [] {
      SendBatchGood(c, w, Exit);
      SendBatchGood(c, w, Resume);
    }
  }

  lemma PostGood(c: Config, w: Worker, ok: bool)
    requires Filling(c, w) && Enabled(w, Post(ok))
    ensures KeepsOrder(c, w, Post(ok))
  {
    if ok {
      ContinueGood(c, if w.abandon then w.(finalTried := true, abandon := !ok) else w, w.pc.k);
    }
  }

  lemma ReleaseGood(c: Config, w: Worker)
    requires Filling(c, w) && Enabled(w, Release)
    ensures KeepsOrder(c, w, Release)
  {
    if |w.pc.b| > 1 {
      ReleaseNext(c, w);
    } else if !w.pc.hold {
      ContinueGood(c, w, w.pc.k);
    }
  }

  lemma ReleaseNext(c: Config, w: Worker)
    requires Filling(c, w) && Enabled(w, Release) && |w.pc.b| > 1
    ensures KeepsOrder(c, w, Release)
  {
    var r := OnRelease(c, w).w;
    assert Waiting(r) == Waiting(w) && Filling(c, r);
  }

  lemma HoldGood(c: Config, w: Worker, interrupted: bool)
    requires Filling(c, w) && w.pc.Holding?
    ensures KeepsOrder(c, w, Hold(interrupted))
  {
    ContinueGood(c, w.(abandon := w.abandon || interrupted), w.pc.k);
  }

  lemma OnGood(c: Config, w: Worker, a: Action)
    requires Filling(c, w) && Enabled(w, a)
    ensures KeepsOrder(c, w, a)
  {
    match a {
      case Take(m) => TakeGood(c, w, m);
      case TakeClosed => TickGood(c, w);
      case Tick => TickGood(c, w);
      case Post(ok) => PostGood(c, w, ok);
      case Revert =>
      case Release => ReleaseGood(c, w);
      case Hold(interrupted) => HoldGood(c, w, interrupted);
    }
  }

  lemma GivenOrder(given: seq<seq<Msg>>, gave: seq<Msg>, waiting: seq<Msg>, order: seq<Msg>, more: seq<Msg>)
    requires gave + waiting == order + more
    ensures Flatten(if gave == [] then given else given + [gave]) + waiting == Flatten(given) + order + more
  {
    FlattenAppend(given, gave);
    assert Flatten(given) + order + more == Flatten(given) + (order + more);
    assert Flatten(given) + (gave + waiting) == (Flatten(given) + gave) + waiting;
    assert gave == [] ==> Flatten(given) + gave == Flatten(given);
  }

  /** Batches stay bounded and in queue order. */
  lemma StepKeepsOrder(c: Config, s: State, a: Action)
    requires Sound(c, s) && InOrder(c, s) && Enabled(s.w, a)
    ensures Sound(c, Step(c, s, a)) && InOrder(c, Step(c, s, a))
  {
    var e := On(c, s.w, a);
    OnGood(c, s.w, a);
    GivenOrder(s.given, e.gave, Waiting(e.w), Waiting(s.w), Batched(c, a));
    if a.Take? {
      BatchableAppend(c, s.taken, a.msg);
    } else {
      assert s.taken + Intake(a) == s.taken;
    }
  }

  // ---------- nothing taken is lost or decided twice ----------

  lemma SendBatchHeld(w: Worker, k: Cont, m: Msg)
    ensures Held(SendBatch(w, k).w, m) == Count(w.batch, m) + Count(Carried(k), m)
  {
  }

  lemma AddToBatchHeld(c: Config, w: Worker, msg: Msg, m: Msg)
    ensures Held(AddToBatch(c, w, msg).w, m) == Count(w.batch, m) + Count([msg], m)
  {
    CountAppend(w.batch, [msg], m);
  }

  lemma ContinueHeld(c: Config, w: Worker, k: Cont, m: Msg)
    ensures Held(Continue(c, w, k).w, m) == Count(Carried(k), m) + Count(w.batch, m)
  {
    if k.Append? {
      AddToBatchHeld(c, w, k.msg, m);
    }
  }

  lemma TakeHeld(c: Config, w: Worker, msg: Msg, m: Msg)
    requires w.pc == Selecting
    ensures Held(OnTake(c, w, msg).w, m) == Held(w, m) + Count([msg], m)
  {
    if !c.batched {
    } else if !msg.encodes {
    } else if w.batch != [] && w.bytes + msg.size > MAX_BATCH_BYTES {
      SendBatchHeld(w, Append(msg), m);
    } else {
      AddToBatchHeld(c, w, msg, m);
    }
  }

  lemma ReleaseHeld(c: Config, w: Worker, m: Msg)
    requires Enabled(w, Release)
    ensures Held(OnRelease(c, w).w, m) == Held(w, m)
  {
    if |w.pc.b| == 1 {
      assert w.pc.b[1..] == [];
      ContinueHeld(c, w, w.pc.k, m);
    }
  }

  lemma PostHeld(c: Config, w: Worker, ok: bool, m: Msg)
    requires w.pc.Sending?
    ensures Held(OnPost(c, w, ok).w, m) + Count(if ok then w.pc.b else [], m) == Held(w, m)
  {
    ContinueHeld(c, if w.abandon then w.(finalTried := true, abandon := !ok) else w, w.pc.k, m);
  }

  /** A step moves alerts in from the queue and out as sent or failed, and loses none. */
  lemma OnHeld(c: Config, w: Worker, a: Action, m: Msg)
    requires Enabled(w, a)
    ensures Held(On(c, w, a).w, m) + Count(SentBy(w, a), m) + Count(FailedBy(w, a), m)
         == Held(w, m) + Count(Intake(a), m)
  {
    match a {
      case Take(msg) => TakeHeld(c, w, msg, m);
      case TakeClosed => SendBatchHeld(w, Exit, m);
      case Tick => SendBatchHeld(w, Resume, m);
      case Post(ok) => PostHeld(c, w, ok, m);
      case Revert => CountFirst(w.pc.b, m);
      case Release => ReleaseHeld(c, w, m);
      case Hold(interrupted) => ContinueHeld(c, w.(abandon := w.abandon || interrupted), w.pc.k, m);
    }
  }

  lemma StepAccounted(c: Config, s: State, a: Action)
    requires Accounted(s) && Enabled(s.w, a)
    ensures Accounted(Step(c, s, a))
  {
    forall m ensures var r := Step(c, s, a); Count(r.taken, m) == Count(r.sent, m) + Count(r.failed, m) + Held(r.w, m) {
      OnHeld(c, s.w, a, m);
      CountAppend(s.taken, Intake(a), m);
      CountAppend(s.sent, SentBy(s.w, a), m);
      CountAppend(s.failed, FailedBy(s.w, a), m);
    }
  }
}
