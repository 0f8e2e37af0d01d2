/** The PROXY protocol listener as interleaved steps: accept loop, handshakes and Close. */
module ProxyListeners {
  import opened Fifo

  /**
   * Spawned: its handshake has a semaphore slot and has not taken the lock yet. Pending: listed, the
   * header is read. Waiting: unlisted again, offered to Accept or about to be dropped.
   */
  datatype Phase = Spawned | Pending | Waiting | Delivered | Dropped

  /** header is the verdict on the PROXY header once it was read; cut says that Close closed the connection. */
  datatype Conn = Conn(trusted: bool, phase: Phase, header: Option<bool>, closed: bool, slot: bool, cut: bool)

  /** limit is the capacity of the semaphore, sem what it holds; handed are the connections Accept returned. */
  datatype State = State(limit: nat, conns: map<nat, Conn>, pending: set<nat>, sem: nat, done: bool, handed: seq<nat>)

  datatype Op =
    | Arrive(c: nat, trusted: bool)   // the accept loop decides on a new connection
    | Enter(c: nat)                   // handshake: the first critical section
    | Judge(c: nat, valid: bool)      // handshake: the header was read, or could not be
    | Unlist(c: nat)                  // handshake: the second critical section
    | Deliver(c: nat)                 // handshake and Accept meet on ready
    | Drop(c: nat)                    // handshake: no valid header, Close, or the hand-over timed out
    | FreeSlot(c: nat)                // handshake returns
    | Close                           // Close, the first time

  predicate At(s: State, c: nat, p: Phase) {
    c in s.conns && s.conns[c].phase == p
  }

  predicate Enabled(s: State, op: Op) {
    match op
    case Arrive(c, _) => c !in s.conns
    case Enter(c) => At(s, c, Spawned)
    case Judge(c, _) => At(s, c, Pending) && s.conns[c].header.None?
    case Unlist(c) => At(s, c, Pending) && s.conns[c].header.Some?
    case Deliver(c) => At(s, c, Waiting) && s.conns[c].header == Some(true)
    case Drop(c) => At(s, c, Waiting)
    case FreeSlot(c) => (At(s, c, Delivered) || At(s, c, Dropped)) && s.conns[c].slot && s.sem > 0
    case Close => !s.done
  }

  function Put(s: State, c: nat, x: Conn): State {
    s.(conns := s.conns[c := x])
  }

  /** An untrusted peer and one beyond the semaphore are closed at once. */
  function Arrived(s: State, c: nat, trusted: bool): State {
    if trusted && s.sem < s.limit then
      Put(s, c, Conn(true, Spawned, None, false, true, false)).(sem := s.sem + 1)
    else Put(s, c, Conn(trusted, Dropped, None, true, false, false))
  }

  function Entered(s: State, c: nat): State
    requires c in s.conns
  {
    if s.done then Put(s, c, s.conns[c].(phase := Dropped, closed := true))
    else Put(s, c, s.conns[c].(phase := Pending)).(pending := s.pending + {c})
  }

  function Unlisted(s: State, c: nat): State
    requires c in s.conns
  {
    Put(s, c, s.conns[c].(phase := Waiting)).(pending := s.pending - {c})
  }

  function Handed(s: State, c: nat): State
    requires c in s.conns
  {
    Put(s, c, s.conns[c].(phase := Delivered)).(handed := s.handed + [c])
  }

  function Cut(s: State): State {
    s.(done := true,
       conns := map c | c in s.conns ::
         if c in s.pending then s.conns[c].(closed := true, cut := true) else s.conns[c])
  }

  function Step(s: State, op: Op): State
    requires Enabled(s, op)
  {
    match op
    case Arrive(c, trusted) => Arrived(s, c, trusted)
    case Enter(c) => Entered(s, c)
    case Judge(c, valid) => Put(s, c, s.conns[c].(header := Some(valid)))
    case Unlist(c) => Unlisted(s, c)
    case Deliver(c) => Handed(s, c)
    case Drop(c) => Put(s, c, s.conns[c].(phase := Dropped, closed := true))
    case FreeSlot(c) => Put(s, c, s.conns[c].(slot := false)).(sem := s.sem - 1)
    case Close => Cut(s)
  }

  // ---- what holds in every reachable state ----

  predicate Handshaking(p: Phase) {
    p in {Spawned, Pending, Waiting}
  }

  ghost function Slots(conns: map<nat, Conn>): set<nat> {
    set c | c in conns && conns[c].slot
  }

  /** What the phase of a connection says about it. */
  predicate Sound(x: Conn, done: bool) {
    && (Handshaking(x.phase) ==> x.slot && x.trusted)
    && (x.phase == Spawned ==> !x.cut)
    && (x.phase == Pending && done ==> x.closed)
    && (x.phase == Delivered ==> x.trusted && x.header == Some(true))
    && (x.phase == Dropped ==> x.closed)
    && (x.phase != Dropped ==> (x.closed <==> x.cut))
    && (x.cut ==> done)
  }

  ghost predicate AllSound(s: State) {
    forall c :: c in s.conns ==> Sound(s.conns[c], s.done)
  }

  ghost predicate PendingExact(s: State) {
    forall c :: c in s.pending <==> At(s, c, Pending)
  }

  ghost predicate SemExact(s: State) {
    s.sem == |Slots(s.conns)| && s.sem <= s.limit
  }

  /** Accept returned each delivered connection once, and no other. */
  ghost predicate HandedExact(s: State) {
    NoDup(s.handed) && forall c :: c in s.handed <==> At(s, c, Delivered)
  }

  ghost predicate Inv(s: State) {
    AllSound(s) && PendingExact(s) && SemExact(s) && HandedExact(s)
  }
}
