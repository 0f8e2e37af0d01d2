/** The TCP traps as interleaved steps: dispatch, serve and Stop of servers that share one limiter. */
module TcpServers {
  import opened Limits

  /**
   * Where the goroutines of a connection stand.
   * Accepted: handed to dispatch. Holding: the limiter slot is taken, the server lock is not.
   * Refused: stopping was seen, the slot is still held. Dropping: the slot is given back.
   * Serving: registered, the handler runs. Closing: the handler returned, the connection is closed.
   * Freed: the slot is given back. Left: no longer registered. Gone: nothing runs for it any more.
   */
  datatype Phase = Accepted | Holding | Refused | Dropping | Serving | Closing | Freed | Left | Gone

  /** taken and given count the slots acquired and released for the connection. */
  datatype Conn = Conn(server: nat, ip: string, phase: Phase, closed: bool, taken: nat, given: nat)

  /** The fields of a server; wg is the wait group of its workers. */
  datatype Server = Server(conns: set<nat>, stopping: bool, wg: int)

  /** A Stop call: the connections of its snapshot it has not closed yet. */
  datatype Stopper = Stopper(server: nat, todo: set<nat>)

  datatype State = State(limiter: Limiter, conns: map<nat, Conn>, servers: map<nat, Server>, stops: map<nat, Stopper>)

  datatype Op =
    | Accept(c: nat, server: nat, ip: string)
    | Reject(c: nat)                 // dispatch: the context ended or the source is shunned
    | TakeSlot(c: nat)               // dispatch: the limiter decides
    | Register(c: nat)               // dispatch: the critical section of the server
    | ReturnSlot(c: nat)             // dispatch: Release after stopping was seen
    | CloseRefused(c: nat)           // dispatch: Close after stopping was seen
    | Cancel(c: nat)                 // the context of the connection ends
    | Finish(c: nat)                 // serve: the handler is done, conn.Close
    | FreeSlot(c: nat)               // serve: limiter.Release
    | Leave(c: nat)                  // serve: delete from conns
    | Done(c: nat)                   // serve: wg.Done
    | StopBegin(stop: nat, server: nat) // Stop: the critical section
    | StopClose(stop: nat, c: nat)      // Stop: closes one connection of its snapshot

  predicate At(s: State, c: nat, p: Phase) {
    c in s.conns && s.conns[c].phase == p && s.conns[c].server in s.servers
  }

  predicate Enabled(s: State, op: Op) {
    match op
    case Accept(c, server, _) => c !in s.conns && server in s.servers
    case Reject(c) => At(s, c, Accepted)
    case TakeSlot(c) => At(s, c, Accepted)
    case Register(c) => At(s, c, Holding)
    case ReturnSlot(c) => At(s, c, Refused)
    case CloseRefused(c) => At(s, c, Dropping)
    case Cancel(c) => At(s, c, Serving)
    case Finish(c) => At(s, c, Serving)
    case FreeSlot(c) => At(s, c, Closing)
    case Leave(c) => At(s, c, Freed)
    case Done(c) => At(s, c, Left)
    case StopBegin(t, server) => t !in s.stops && server in s.servers
    case StopClose(t, c) => t in s.stops && c in s.stops[t].todo && c in s.conns
  }

  function Put(s: State, c: nat, x: Conn): State {
    s.(conns := s.conns[c := x])
  }

  function PutServer(s: State, i: nat, v: Server): State {
    s.(servers := s.servers[i := v])
  }

  /** conn.Close for a connection nothing else runs for. */
  function Dropped(s: State, c: nat): State
    requires c in s.conns
  {
    Put(s, c, s.conns[c].(phase := Gone, closed := true))
  }

  function Took(s: State, c: nat): State
    requires c in s.conns
  {
    var x := s.conns[c];
    if Admits(s.limiter, x.ip) then
      Put(s, c, x.(phase := Holding, taken := x.taken + 1)).(limiter := Acquire(s.limiter, x.ip))
    else Dropped(s, c)
  }

  function Gave(s: State, c: nat, p: Phase): State
    requires c in s.conns
  {
    var x := s.conns[c];
    Put(s, c, x.(phase := p, given := x.given + 1)).(limiter := Release(s.limiter, x.ip))
  }

  function Registered(s: State, c: nat): State
    requires c in s.conns && s.conns[c].server in s.servers
  {
    var x := s.conns[c];
    var v := s.servers[x.server];
    if v.stopping then Put(s, c, x.(phase := Refused))
    else PutServer(Put(s, c, x.(phase := Serving)), x.server, v.(conns := v.conns + {c}, wg := v.wg + 1))
  }

  function LeftServer(s: State, c: nat): State
    requires c in s.conns && s.conns[c].server in s.servers
  {
    var x := s.conns[c];
    var v := s.servers[x.server];
    PutServer(Put(s, c, x.(phase := Left)), x.server, v.(conns := v.conns - {c}))
  }

  function DoneIn(s: State, c: nat): State
    requires c in s.conns && s.conns[c].server in s.servers
  {
    var x := s.conns[c];
    var v := s.servers[x.server];
    PutServer(Put(s, c, x.(phase := Gone)), x.server, v.(wg := v.wg - 1))
  }

  function StopBegun(s: State, t: nat, i: nat): State
    requires i in s.servers
  {
    var v := s.servers[i];
    PutServer(s, i, v.(stopping := true)).(stops := s.stops[t := Stopper(i, v.conns)])
  }

  function StopClosed(s: State, t: nat, c: nat): State
    requires t in s.stops && c in s.conns
  {
    var p := s.stops[t];
    Put(s, c, s.conns[c].(closed := true)).(stops := s.stops[t := p.(todo := p.todo - {c})])
  }

  function Step(s: State, op: Op): State
    requires Enabled(s, op)
  {
    match op
    case Accept(c, server, ip) => Put(s, c, Conn(server, ip, Accepted, false, 0, 0))
    case Reject(c) => Dropped(s, c)
    case TakeSlot(c) => Took(s, c)
    case Register(c) => Registered(s, c)
    case ReturnSlot(c) => Gave(s, c, Dropping)
    case CloseRefused(c) => Dropped(s, c)
    case Cancel(c) => Put(s, c, s.conns[c].(closed := true))
    case Finish(c) => Put(s, c, s.conns[c].(phase := Closing, closed := true))
    case FreeSlot(c) => Gave(s, c, Freed)
    case Leave(c) => LeftServer(s, c)
    case Done(c) => DoneIn(s, c)
    case StopBegin(t, i) => StopBegun(s, t, i)
    case StopClose(t, c) => StopClosed(s, t, c)
  }

  // ---- what holds in every reachable state ----

  predicate Holds(p: Phase) {
    p in {Holding, Refused, Serving, Closing}
  }

  predicate InConns(p: Phase) {
    p in {Serving, Closing, Freed}
  }

  predicate Working(p: Phase) {
    InConns(p) || p == Left
  }

  /** The groups of connections the counters count. */
  datatype Group = HoldersOf(ip: string) | AllHolders | MembersOf(server: nat) | WorkersOf(server: nat)

  predicate Fits(g: Group, x: Conn) {
    match g
    case HoldersOf(ip) => x.ip == ip && Holds(x.phase)
    case AllHolders => Holds(x.phase)
    case MembersOf(i) => x.server == i && InConns(x.phase)
    case WorkersOf(i) => x.server == i && Working(x.phase)
  }

  ghost function Select(conns: map<nat, Conn>, g: Group): set<nat> {
    set c | c in conns && Fits(g, conns[c])
  }

  /** One connection changes; its groups change by at most that one. */
  lemma SelectPut(conns: map<nat, Conn>, c: nat, x: Conn, g: Group)
    ensures var was := Select(conns, g);
      && Select(conns[c := x], g) == (if Fits(g, x) then was + {c} else was - {c})
      && |Select(conns[c := x], g)| == |was| - (if c in was then 1 else 0) + (if Fits(g, x) then 1 else 0)
  {
    var was := Select(conns, g);
    var now := Select(conns[c := x], g);
    assert now == if Fits(g, x) then was + {c} else was - {c};
    assert |was - {c}| == |was| - if c in was then 1 else 0;
    assert now - {c} == was - {c};
  }

  /** The limiter counts exactly the slots held. */
  ghost predicate SlotsCounted(s: State) {
    && Valid(s.limiter)
    && s.limiter.global == |Select(s.conns, AllHolders)|
    && forall ip :: Held(s.limiter, ip) == |Select(s.conns, HoldersOf(ip))|
  }

  /** A server has its registered connections, and counts its workers. */
  ghost predicate Counted(v: Server, conns: map<nat, Conn>, i: nat) {
    v.conns == Select(conns, MembersOf(i)) && v.wg == |Select(conns, WorkersOf(i))|
  }

  ghost predicate WorkersCounted(s: State) {
    && (forall c :: c in s.conns ==> s.conns[c].server in s.servers)
    && (forall i :: i in s.servers ==> Counted(s.servers[i], s.conns, i))
  }

  /** A connection takes at most one slot and gives back that one. */
  predicate Paired(x: Conn) {
    x.given <= x.taken <= 1 && (Holds(x.phase) <==> x.taken == x.given + 1) && (x.phase == Accepted ==> x.taken == 0)
  }

  ghost predicate SlotsPaired(s: State) {
    forall c :: c in s.conns ==> Paired(s.conns[c])
  }

  /** A Stop call has a stopping server, and still has to close what is registered and open. */
  ghost predicate Covers(s: State, p: Stopper) {
    && p.server in s.servers && s.servers[p.server].stopping
    && forall c :: c in s.servers[p.server].conns ==> c in p.todo || (c in s.conns && s.conns[c].closed)
  }

  ghost predicate StopsCover(s: State) {
    forall t :: t in s.stops ==> Covers(s, s.stops[t])
  }

  /** A connection whose handler is done is closed. */
  ghost predicate DoneIsClosed(s: State) {
    forall c :: c in s.conns && s.conns[c].phase in {Closing, Freed, Left, Gone} ==> s.conns[c].closed
  }

  ghost predicate Inv(s: State) {
    SlotsCounted(s) && WorkersCounted(s) && SlotsPaired(s) && StopsCover(s) && DoneIsClosed(s)
  }
}
