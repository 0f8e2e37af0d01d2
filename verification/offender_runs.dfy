/** Every run of the offender table. */
module OffenderRuns {
  import opened Fifo
  import opened Severity
  import opened Offenders

  // ---------- what every operation keeps ----------

  lemma DropOrdered(s: State, ip: Ip, now: Time)
    requires Linked(s) && Ordered(s) && ip in s.entries
    ensures Ordered(Drop(s, ip, now).state)
  {
    var r := Drop(s, ip, now).state;
    var p := IndexOf(s.order, ip);
    forall i | 0 <= i < |r.order|
      ensures LastAt(r, i) == LastAt(s, if i < p then i else i + 1)
    {
      assert r.order[i] == s.order[if i < p then i else i + 1] && r.order[i] in r.entries;
    }
  }

  lemma {:induction false} SweepFrontOrdered(c: Settings, s: State, now: Time)
    requires Linked(s) && Ordered(s)
    ensures Ordered(SweepFront(c, s, now).state)
    decreases |s.order|
  {
    if s.order != [] && Expired(c, s.entries[s.order[0]], now) {
      DropOrdered(s, s.order[0], now);
      SweepFrontOrdered(c, Drop(s, s.order[0], now).state, now);
    }
  }

  lemma MakeRoomOrdered(c: Settings, s: State, now: Time)
    requires Linked(s) && Ordered(s)
    ensures Ordered(MakeRoom(c, s, now).state)
  {
    SweepFrontOrdered(c, s, now);
    var t := SweepFront(c, s, now).state;
    if |t.entries| >= c.max && t.order != [] {
      DropOrdered(t, Victim(t), now);
    }
  }

  lemma DroppedValid(c: Settings, s: State, r: Outcome, now: Time)
    requires Valid(c, s) && Dropped(s, r, now) && Linked(r.state) && Ordered(r.state)
    ensures Valid(c, r.state)
  {
    FewerKeys(r.state.entries, s.entries);
  }

  lemma DropSilentDrops(c: Settings, s: State, key: Ip, now: Time)
    requires Valid(c, s)
    ensures var r := DropSilent(c, s, key, now); Valid(c, r.state) && Dropped(s, r, now)
  {
    if key in s.entries && Expired(c, s.entries[key], now) {
      DropDrops(s, key, now);
      DropOrdered(s, key, now);
    } else {
      NothingDropped(s, now);
    }
    DroppedValid(c, s, DropSilent(c, s, key, now), now);
  }

  lemma MakeRoomDrops(c: Settings, s: State, now: Time)
    requires Valid(c, s)
    ensures var r := MakeRoom(c, s, now); Valid(c, r.state) && Dropped(s, r, now) && |r.state.entries| < c.max
  {
    MakeRoomFrees(c, s, now);
    MakeRoomOrdered(c, s, now);
    DroppedValid(c, s, MakeRoom(c, s, now), now);
  }

  /** Preparing for an alert drops other sources, or the entry of the source itself when it is silent. */
  lemma PrepareDrops(c: Settings, s: State, key: Ip, now: Time)
    requires Valid(c, s)
    ensures var p := Prepare(c, s, key, now);
      && Valid(c, p.state)
      && Dropped(s, p, now)
      && (key in p.state.entries || |p.state.entries| < c.max)
      && (key in p.lost ==> Expired(c, s.entries[key], now))
  {
    var own := DropSilent(c, s, key, now);
    DropSilentDrops(c, s, key, now);
    if key !in own.state.entries && |own.state.entries| >= c.max {
      MakeRoomDrops(c, own.state, now);
      DropsCompose(s, own, MakeRoom(c, own.state, now), now);
    }
  }

  lemma DetachValid(c: Settings, s: State, ip: Ip)
    requires Valid(c, s) && ip in s.entries
    ensures Valid(c, Detach(s, ip)) && |Detach(s, ip).entries| < c.max
  {
    DropDrops(s, ip, 0);
    DropOrdered(s, ip, 0);
    DroppedValid(c, s, Drop(s, ip, 0), 0);
    DropShrinks(s, ip, 0);
  }

  lemma AppendOrdered(s: State, key: Ip, e: Offender, nextWin: nat)
    requires Linked(s) && Ordered(s) && Before(s, e.last) && key !in s.entries
    ensures Ordered(Append(s, key, e, nextWin))
  {
    var r := Append(s, key, e, nextWin);
    forall i | 0 <= i < |s.order|
      ensures LastAt(r, i) == LastAt(s, i) <= e.last
    {
      assert r.order[i] == s.order[i] && s.order[i] in s.entries;
    }
  }

  lemma AppendSound(c: Settings, s: State, key: Ip, e: Offender, nextWin: nat)
    requires Sound(c, s) && Before(s, e.last)
    requires key !in s.entries && |s.entries| < c.max
    requires s.nextWin <= nextWin && Tidy(e, nextWin)
    ensures Sound(c, Append(s, key, e, nextWin)) && Before(Append(s, key, e, nextWin), e.last)
  {
    SizeWith(s.entries, key, e);
  }

  lemma PutValid(c: Settings, s: State, key: Ip, e: Offender, nextWin: nat)
    requires Valid(c, s) && Before(s, e.last)
    requires key in s.entries || |s.entries| < c.max
    requires s.nextWin <= nextWin && Tidy(e, nextWin)
    ensures Valid(c, Put(s, key, e, nextWin)) && Before(Put(s, key, e, nextWin), e.last)
  {
    if key in s.entries {
      DetachValid(c, s, key);
      AppendSound(c, Detach(s, key), key, e, nextWin);
      AppendOrdered(Detach(s, key), key, e, nextWin);
    } else {
      AppendSound(c, s, key, e, nextWin);
      AppendOrdered(s, key, e, nextWin);
    }
  }

  lemma SameOrder(s: State, r: State)
    requires Ordered(s) && r.order == s.order && r.entries.Keys == s.entries.Keys
    requires forall ip :: ip in s.entries ==> r.entries[ip].last == s.entries[ip].last
    ensures Ordered(r) && |r.entries| == |s.entries|
  {
    assert forall i :: LastAt(r, i) == LastAt(s, i);
  }

  lemma UpdateValid(c: Settings, s: State, key: Ip, e: Offender)
    requires Valid(c, s) && key in s.entries
    requires e.last == s.entries[key].last && Tidy(e, s.nextWin)
    ensures Valid(c, Update(s, key, e))
  {
    SameOrder(s, Update(s, key, e));
  }

  lemma CloseEndedValid(c: Settings, s: State, now: Time)
    requires Valid(c, s)
    ensures Valid(c, CloseEnded(s, now))
  {
    SameOrder(s, CloseEnded(s, now));
  }

  lemma AcceptValid(c: Settings, s: State, op: Op)
    requires Valid(c, s) && Before(s, op.now) && op.Accept?
    ensures Valid(c, Step(c, s, op).state) && Before(Step(c, s, op).state, op.now)
  {
    if op.key != None && op.cls != NoClass {
      PrepareDrops(c, s, op.key.value, op.now);
      var p := Prepare(c, s, op.key.value, op.now).state;
      var a := Arm(c, EntryOr(p, op.key.value), op.cls, op.window, op.now, p.nextWin);
      PutValid(c, p, op.key.value, a.e, a.nextWin);
    }
  }

  lemma RevertValid(c: Settings, s: State, op: Op)
    requires Valid(c, s) && Before(s, op.now) && op.Revert?
    ensures Valid(c, Step(c, s, op).state) && Before(Step(c, s, op).state, op.now)
  {
    if op.mark.ok && op.mark.idx < 3 && op.mark.key in s.entries {
      var e := Disarm(s.entries[op.mark.key], op.mark);
      if !e.active && e.counts == [0, 0, 0] {
        DetachValid(c, s, op.mark.key);
      } else {
        UpdateValid(c, s, op.mark.key, e);
      }
    }
  }

  lemma SweepValid(c: Settings, s: State, op: Op)
    requires Valid(c, s) && Before(s, op.now) && op.Sweep?
    ensures Valid(c, Step(c, s, op).state) && Before(Step(c, s, op).state, op.now)
  {
    var t := CloseEnded(s, op.now);
    CloseEndedValid(c, s, op.now);
    SweepFrontDrops(c, t, op.now);
    SweepFrontOrdered(c, t, op.now);
    DroppedValid(c, t, SweepFront(c, t, op.now), op.now);
  }

  lemma FlushValid(c: Settings, s: State, op: Op)
    requires Valid(c, s) && Before(s, op.now) && op.Flush?
    ensures Valid(c, Step(c, s, op).state) && Before(Step(c, s, op).state, op.now)
  {
    SameOrder(s, Step(c, s, op).state);
  }

  lemma RejectValid(c: Settings, s: State, op: Op)
    requires Valid(c, s) && Before(s, op.now) && op.Reject?
    ensures Valid(c, Step(c, s, op).state) && Before(Step(c, s, op).state, op.now)
  {
    if op.key != None && op.key.value in s.entries && s.entries[op.key.value].active {
      UpdateValid(c, s, op.key.value, Step(c, s, op).state.entries[op.key.value]);
    }
  }

  lemma ShunnedValid(c: Settings, s: State, op: Op)
    requires Valid(c, s) && Before(s, op.now) && op.Shunned?
    ensures Valid(c, Step(c, s, op).state) && Before(Step(c, s, op).state, op.now)
  {
    if op.key != None && op.key.value in s.entries {
      UpdateValid(c, s, op.key.value, Closed(s.entries[op.key.value]));
    }
  }

  /** Every operation keeps the table consistent. Clock readings do not go back. */
  lemma StepValid(c: Settings, s: State, op: Op)
    requires Valid(c, s) && Before(s, op.now)
    ensures Valid(c, Step(c, s, op).state) && Before(Step(c, s, op).state, op.now)
  {
    match op {
      case Accept(_, _, _, _) => AcceptValid(c, s, op);
      case Revert(_, _, _) => RevertValid(c, s, op);
      case Shunned(_, _) => ShunnedValid(c, s, op);
      case Reject(_, _, _) => RejectValid(c, s, op);
      case Sweep(_) => SweepValid(c, s, op);
      case Flush(_) => FlushValid(c, s, op);
    }
  }

  // ---------- one source at a time ----------

  function View(s: State, ip: Ip): Option<Offender> {
    if ip in s.entries then Some(s.entries[ip]) else None
  }

  predicate Records(op: Op, ip: Ip) {
    op.Accept? && op.key == Some(ip) && op.cls != NoClass
  }

  predicate Undoes(op: Op, ip: Ip) {
    op.Revert? && op.mark.ok && op.mark.idx < 3 && op.mark.key == ip
  }

  function Base(v: Option<Offender>): Offender {
    if v.Some? then v.value else FRESH
  }

  /** A rejection that is counted on an open window of ip. */
  predicate Counted(op: Op, ip: Ip, v: Option<Offender>) {
    op.Reject? && op.key == Some(ip) && v.Some? && v.value.active
  }

  /** What an operation does to the entry of ip, were it the only source. */
  function Local(c: Settings, ip: Ip, v: Option<Offender>, op: Op, nextWin: nat): Option<Offender> {
    if Records(op, ip) then Some(Arm(c, Base(v), op.cls, op.window, op.now, nextWin).e)
    else if v == None then None
    else
      var e := v.value;
      match op
      case Accept(_, _, _, _) => v
      case Revert(_, _, _) =>
        if !Undoes(op, ip) then v
        else if !Disarm(e, op.mark).active && Disarm(e, op.mark).counts == [0, 0, 0] then None
        else Some(Disarm(e, op.mark))
      case Shunned(_, _) =>
        if c.shun && op.key == Some(ip) && e.active && op.now >= e.shunUntil then Some(Closed(e)) else v
      case Reject(_, _, _) =>
        if Counted(op, ip, v)
        then Some(e.(suppressed := e.suppressed + 1,
                     protos := if |e.protos| < MAX_SHUN_PROTOCOLS then e.protos + {op.proto} else e.protos))
        else v
      case Sweep(_) => if e.active && op.now >= e.shunUntil then Some(Closed(e)) else v
      case Flush(_) =>
        if e.active && e.suppressed > 0 then Some(e.(suppressed := 0, protos := {}, shunStart := op.now)) else v
  }

  function Pending(v: Option<Offender>): nat {
    if v.Some? then v.value.suppressed else 0
  }

  function Emitted(sums: map<Ip, Summary>, ip: Ip): nat {
    if ip in sums then sums[ip].count else 0
  }

  /** Each source is kept as if it were alone, until the table loses it. */
  ghost predicate ActsLocally(c: Settings, s: State, op: Op, ip: Ip)
    requires Linked(s)
  {
    var r := Step(c, s, op);
    var v := if ip in r.out.lost then None else View(s, ip);
    && View(r.state, ip) == Local(c, ip, v, op, s.nextWin)
    && (ip in r.out.lost ==> ip in s.entries)
    && s.nextWin <= r.state.nextWin
    && (Records(op, ip) ==>
          var a := Arm(c, Base(v), op.cls, op.window, op.now, s.nextWin);
          r.out.mark == Mark(true, ip, ClassIndex(op.cls), a.win) && r.state.nextWin == a.nextWin)
  }

  /** A counted rejection is pending or in a summary. */
  ghost predicate Conserves(c: Settings, s: State, op: Op, ip: Ip)
    requires Linked(s)
  {
    var r := Step(c, s, op);
    Pending(View(s, ip)) + (if Counted(op, ip, View(s, ip)) then 1 else 0)
      == Pending(View(r.state, ip)) + Emitted(r.out.sums, ip)
  }

  lemma PutEntries(s: State, key: Ip, e: Offender, nextWin: nat)
    requires Linked(s)
    ensures Put(s, key, e, nextWin).entries == s.entries[key := e]
  {
  }

  lemma DroppedView(s: State, r: Outcome, now: Time, ip: Ip)
    requires Dropped(s, r, now)
    ensures View(r.state, ip) == if ip in r.lost then None else View(s, ip)
    ensures Emitted(r.sums, ip) == if ip in r.lost then Pending(View(s, ip)) else 0
  {
  }

  lemma RecordView(c: Settings, p: Outcome, op: Op, ip: Ip)
    requires Linked(p.state) && op.Accept? && op.key != None && op.cls != NoClass
    ensures View(Record(c, p, op).state, ip) == Local(c, ip, View(p.state, ip), op, p.state.nextWin)
  {
    var a := Arm(c, EntryOr(p.state, op.key.value), op.cls, op.window, op.now, p.state.nextWin);
    PutEntries(p.state, op.key.value, a.e, a.nextWin);
  }

  lemma RecordEmits(c: Settings, p: Outcome, op: Op, ip: Ip)
    requires Linked(p.state) && op.Accept? && op.key != None && op.cls != NoClass
    requires ip in p.state.entries ==> ip !in p.sums && Tidy(p.state.entries[ip], p.state.nextWin)
    ensures Emitted(Record(c, p, op).out.sums, ip) + Pending(Local(c, ip, View(p.state, ip), op, p.state.nextWin))
         == Emitted(p.sums, ip) + Pending(View(p.state, ip))
  {
  }

  lemma AcceptActsLocally(c: Settings, s: State, op: Op, ip: Ip)
    requires Valid(c, s) && op.Accept?
    ensures ActsLocally(c, s, op, ip)
  {
    if op.key != None && op.cls != NoClass {
      var p := Prepare(c, s, op.key.value, op.now);
      PrepareDrops(c, s, op.key.value, op.now);
      DroppedView(s, p, op.now, ip);
      RecordView(c, p, op, ip);
    }
  }

  lemma AcceptConserves(c: Settings, s: State, op: Op, ip: Ip)
    requires Valid(c, s) && op.Accept?
    ensures Conserves(c, s, op, ip)
  {
    if op.key != None && op.cls != NoClass {
      var p := Prepare(c, s, op.key.value, op.now);
      PrepareDrops(c, s, op.key.value, op.now);
      DroppedView(s, p, op.now, ip);
      RecordView(c, p, op, ip);
      RecordEmits(c, p, op, ip);
    }
  }

  lemma RevertActsLocally(c: Settings, s: State, op: Op, ip: Ip)
    requires Valid(c, s) && op.Revert?
    ensures ActsLocally(c, s, op, ip) && Conserves(c, s, op, ip)
  {
  }

  lemma ShunnedActsLocally(c: Settings, s: State, op: Op, ip: Ip)
    requires Valid(c, s) && op.Shunned?
    ensures ActsLocally(c, s, op, ip) && Conserves(c, s, op, ip)
  {
  }

  lemma SweepActsLocally(c: Settings, s: State, op: Op, ip: Ip)
    requires Valid(c, s) && op.Sweep?
    ensures ActsLocally(c, s, op, ip) && Conserves(c, s, op, ip)
  {
    var t := CloseEnded(s, op.now);
    SweepFrontDrops(c, t, op.now);
    DroppedView(t, SweepFront(c, t, op.now), op.now, ip);
  }

  lemma StepActsLocally(c: Settings, s: State, op: Op, ip: Ip)
    requires Valid(c, s)
    ensures ActsLocally(c, s, op, ip) && Conserves(c, s, op, ip)
  {
    match op {
      case Accept(_, _, _, _) =>
        AcceptActsLocally(c, s, op, ip);
        AcceptConserves(c, s, op, ip);
      case Revert(_, _, _) => RevertActsLocally(c, s, op, ip);
      case Shunned(_, _) => ShunnedActsLocally(c, s, op, ip);
      case Reject(_, _, _) =>
      case Sweep(_) => SweepActsLocally(c, s, op, ip);
      case Flush(_) =>
    }
  }
}
