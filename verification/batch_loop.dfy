/** The batching loop of the worker on its own, with the sends collected. */
module BatchLoop {
  import opened BatchWorker

  /** What the select of the loop delivers until the queue is closed. */
  datatype Input = Alert(msg: Msg) | Tick

  function Alerts(inputs: seq<Input>): seq<Msg> {
    if inputs == [] then []
    else
      var last := inputs[|inputs| - 1];
      Alerts(inputs[..|inputs| - 1]) + if last.Alert? then [last.msg] else []
  }

  function Unencodable(ms: seq<Msg>): seq<Msg> {
    if ms == [] then []
    else Unencodable(ms[..|ms| - 1]) + if ms[|ms| - 1].encodes then [] else [ms[|ms| - 1]]
  }

  lemma AlertsNext(inputs: seq<Input>, i: nat)
    requires i < |inputs|
    ensures Alerts(inputs[..i + 1]) ==
            if inputs[i].Alert? then Alerts(inputs[..i]) + [inputs[i].msg] else Alerts(inputs[..i])
  {
    assert inputs[..i + 1][..i] == inputs[..i];
  }

  lemma UnencodableAppend(ms: seq<Msg>, m: Msg)
    ensures Unencodable(ms + [m]) == if m.encodes then Unencodable(ms) else Unencodable(ms) + [m]
  {
    assert (ms + [m])[..|ms|] == ms;
  }

  /** The batch being filled and the batches sent so far. */
  datatype Fill = Fill(given: seq<seq<Msg>>, batch: seq<Msg>, bytes: nat)

  ghost predicate Ready(c: Config, f: Fill, order: seq<Msg>) {
    && Flatten(f.given) + f.batch == order
    && (forall b :: b in f.given ==> Bounded(c, b))
    && f.bytes == Bytes(f.batch) && (|f.batch| >= 2 ==> f.bytes <= MAX_BATCH_BYTES)
    && (f.batch == [] || |f.batch| < c.batchSize)
  }

  // ---- the same steps of the worker, with every post successful ----

  function Idle(f: Fill): Worker {
    Worker(Selecting, f.batch, f.bytes, false, false)
  }

  function Sent(e: Effect, given: seq<seq<Msg>>): seq<seq<Msg>> {
    if e.gave == [] then given else given + [e.gave]
  }

  /** The worker posts what it gave to send, and what that lets it give, until it selects again. */
  function Posted(c: Config, e: Effect, given: seq<seq<Msg>>, posts: nat): Fill
    decreases posts
  {
    if posts == 0 || !e.w.pc.Sending? then Fill(Sent(e, given), e.w.batch, e.w.bytes)
    else Posted(c, OnPost(c, e.w, true), Sent(e, given), posts - 1)
  }

  /** One alert leads to at most two posts. */
  function Took(c: Config, f: Fill, msg: Msg): Fill {
    Posted(c, OnTake(c, Idle(f), msg), f.given, 2)
  }

  lemma AddsLikeWorker(c: Config, w: Worker, given: seq<seq<Msg>>, msg: Msg, posts: nat)
    requires posts > 0 && !w.abandon && w.pc.Selecting?
    ensures var b, n := w.batch + [msg], w.bytes + msg.size;
      Posted(c, AddToBatch(c, w, msg), given, posts) == if |b| >= c.batchSize then Fill(given + [b], [], 0) else Fill(given, b, n)
  {
  }

  lemma FlushesLikeWorker(c: Config, f: Fill, msg: Msg)
    requires c.batched && msg.encodes && f.batch != [] && f.bytes + msg.size > MAX_BATCH_BYTES
    ensures Took(c, f, msg) == Took(c, Fill(f.given + [f.batch], [], 0), msg)
  {
    var sent := Fill(f.given + [f.batch], [], 0);
    var e := OnTake(c, Idle(f), msg);
    assert e == Effect(Idle(sent).(pc := Sending(f.batch, Append(msg))), f.batch);
    assert OnPost(c, e.w, true) == AddToBatch(c, e.w, msg);
    assert AddToBatch(c, e.w, msg) == AddToBatch(c, Idle(sent), msg);
    AddsLikeWorker(c, Idle(sent), sent.given, msg, 1);
    AddsLikeWorker(c, Idle(sent), sent.given, msg, 2);
  }

  /** A tick, and the close of the queue, lead to at most one post. */
  function Flushed(c: Config, f: Fill, a: Action): Fill
    requires a.Tick? || a.TakeClosed?
  {
    Posted(c, On(c, Idle(f), a), f.given, 1)
  }

  lemma TicksLikeWorker(c: Config, f: Fill, a: Action)
    requires c.batched && (a.Tick? || a.TakeClosed?)
    ensures Flushed(c, f, a) == if f.batch == [] then f else Fill(f.given + [f.batch], [], 0)
  {
  }

  /** An alert that does not encode leaves the fill alone. */
  lemma FailsLikeWorker(c: Config, f: Fill, msg: Msg)
    requires c.batched && !msg.encodes
    ensures Took(c, f, msg) == f
  {
  }

  /** The worker after the inputs. */
  function Worked(c: Config, inputs: seq<Input>): Fill {
    if inputs == [] then Fill([], [], 0)
    else
      var f, last := Worked(c, inputs[..|inputs| - 1]), inputs[|inputs| - 1];
      match last
      case Tick => Flushed(c, f, Action.Tick)
      case Alert(msg) => Took(c, f, msg)
  }

  lemma WorkedNext(c: Config, inputs: seq<Input>, i: nat)
    requires i < |inputs|
    ensures Worked(c, inputs[..i + 1]) ==
      match inputs[i]
      case Tick => Flushed(c, Worked(c, inputs[..i]), Action.Tick)
      case Alert(msg) => Took(c, Worked(c, inputs[..i]), msg)
  {
    assert inputs[..i + 1][..i] == inputs[..i];
  }

  // ---- the loop ----

  method Send(c: Config, f: Fill, ghost order: seq<Msg>) returns (r: Fill)
    requires Flatten(f.given) + f.batch == order && forall b :: b in f.given ==> Bounded(c, b)
    requires Bounded(c, f.batch)
    ensures Ready(c, r, order) && r == Fill(f.given + [f.batch], [], 0)
  {
    FlattenAppend(f.given, f.batch);
    assert Flatten(f.given + [f.batch]) + [] == order;
    return Fill(f.given + [f.batch], [], 0);
  }

  lemma OneMore(a: seq<Msg>, b: seq<Msg>, m: Msg, order: seq<Msg>)
    requires a + b == order
    ensures a + (b + [m]) == order + [m]
  {
  }

  method Push(c: Config, f0: Fill, msg: Msg, ghost order: seq<Msg>) returns (f: Fill)
    requires Ready(c, f0, order) && c.batched && msg.encodes
    ensures Ready(c, f, order + [msg])
    ensures f == Took(c, f0, msg)
  {
    f := f0;
    if f.batch != [] && f.bytes + msg.size > MAX_BATCH_BYTES {
      FlushesLikeWorker(c, f0, msg);
      f := Send(c, f, order);
    }
    f := Add(c, f, msg, order);
  }

  lemma AddFits(c: Config, f0: Fill, msg: Msg, f: Fill)
    requires f0.bytes == Bytes(f0.batch) && (f0.batch == [] || |f0.batch| < c.batchSize)
    requires f0.batch == [] || f0.bytes + msg.size <= MAX_BATCH_BYTES
    requires f == Fill(f0.given, f0.batch + [msg], f0.bytes + msg.size)
    ensures Bounded(c, f.batch) && f.bytes == Bytes(f.batch) && (|f.batch| >= 2 ==> f.bytes <= MAX_BATCH_BYTES)
  {
    BytesAppend(f0.batch, msg);
  }

  method Add(c: Config, f0: Fill, msg: Msg, ghost order: seq<Msg>) returns (f: Fill)
    requires Ready(c, f0, order) && c.batched && msg.encodes && (f0.batch == [] || f0.bytes + msg.size <= MAX_BATCH_BYTES)
    ensures Ready(c, f, order + [msg])
    ensures f == Took(c, f0, msg)
  {
    AddsLikeWorker(c, Idle(f0), f0.given, msg, 2);
    OneMore(Flatten(f0.given), f0.batch, msg, order);
    f := Fill(f0.given, f0.batch + [msg], f0.bytes + msg.size);
    AddFits(c, f0, msg, f);
    if |f.batch| >= c.batchSize {
      f := Send(c, f, order + [msg]);
    }
  }

  /** The batches the loop sends, up to and including the one at the close of the queue, and the alerts it
      fails because they do not encode: the alerts in queue order, no batch over the limits, as the worker's own
      steps give them when every post succeeds. */
  method Batches(c: Config, inputs: seq<Input>) returns (given: seq<seq<Msg>>, unencoded: seq<Msg>)
    requires c.batched
    ensures Flatten(given) == Batchable(c, Alerts(inputs))
    ensures forall b :: b in given ==> Bounded(c, b)
    ensures unencoded == Unencodable(Alerts(inputs))
    ensures given == Flushed(c, Worked(c, inputs), TakeClosed).given
  {
    var f := Fill([], [], 0);
    unencoded := [];
    assert inputs[..0] == [];
    for i := 0 to |inputs|
      invariant Ready(c, f, Batchable(c, Alerts(inputs[..i])))
      invariant unencoded == Unencodable(Alerts(inputs[..i]))
      invariant f == Worked(c, inputs[..i])
    {
      AlertsNext(inputs, i);
      WorkedNext(c, inputs, i);
      ghost var order := Batchable(c, Alerts(inputs[..i]));
      match inputs[i] {
        case Tick =>
          TicksLikeWorker(c, f, Action.Tick);
          if f.batch != [] {
            f := Send(c, f, order);
          }
        case Alert(msg) =>
          BatchableAppend(c, Alerts(inputs[..i]), msg);
          UnencodableAppend(Alerts(inputs[..i]), msg);
          if msg.encodes {
            f := Push(c, f, msg, order);
          } else {
            FailsLikeWorker(c, f, msg);
            assert order + [] == order;
            unencoded := unencoded + [msg];
          }
      }
    }
    assert inputs[..|inputs|] == inputs;
    TicksLikeWorker(c, f, TakeClosed);
    if f.batch != [] {
      f := Send(c, f, Batchable(c, Alerts(inputs)));
    }
    given := f.given;
  }
}
