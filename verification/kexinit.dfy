/** The scan for the first SSH_MSG_KEXINIT of a client (sections 4.2, 6 and 7.1 of RFC 4253). */
module KexInit {
  import opened Bytes
  import opened Fifo

  const SCAN_LIMIT := 16 * 1024
  const MSG_KEXINIT: byte := 20
  const NEWLINE: byte := 10
  const SSH_DASH: seq<byte> := [0x53, 0x53, 0x48, 0x2d]

  /** The four name-lists the HASSH digests, in its order. */
  datatype Names = Names(kex: seq<byte>, enc: seq<byte>, mac: seq<byte>, comp: seq<byte>)

  /** A scan: the names of a parsed packet, whether it is final, where a later scan
      resumes and the buffer length it needs at least. */
  datatype Scan = Scan(names: Option<Names>, done: bool, resume: nat, need: nat)

  predicate IsIdent(buf: seq<byte>, pos: nat, nl: int) {
    pos + 4 <= nl <= |buf| && buf[pos..pos + 4] == SSH_DASH
  }

  datatype Line = Pending(at: nat) | Ident(start: nat, after: nat)

  /** The identification line at or after pos, or the start of the last, unfinished line. */
  ghost function Lines(buf: seq<byte>, pos: nat): (l: Line)
    requires pos <= |buf|
    ensures l.Pending? ==> pos <= l.at <= |buf|
    ensures l.Ident? ==> pos <= l.start < l.after <= |buf|
    decreases |buf| - pos
  {
    match IndexOfByte(buf, NEWLINE, pos)
    case None => Pending(pos)
    case Some(nl) => if IsIdent(buf, pos, nl) then Ident(pos, nl + 1) else Lines(buf, nl + 1)
  }

  /** k name-lists, each with its length in front. */
  function NameLists(p: seq<byte>, k: nat): (r: Option<seq<seq<byte>>>)
    ensures r.Some? ==> |r.value| == k
    decreases |p|
  {
    if k == 0 then Some([])
    else if |p| < 4 || BigEndian32(p, 0) > |p| - 4 then None
    else
      var n := BigEndian32(p, 0);
      var more := NameLists(p[4 + n..], k - 1);
      if more.None? then None else Some([p[4..4 + n]] + more.value)
  }

  function Payload(payload: seq<byte>): Option<Names> {
    if |payload| < 17 || payload[0] != MSG_KEXINIT then None
    else
      var lists := NameLists(payload[17..], 8);
      if lists.None? then None
      else Some(Names(lists.value[0], lists.value[2], lists.value[4], lists.value[6]))
  }

  /** The first binary packet: too short for a verdict below need bytes, or final. */
  datatype Packet = Short(need: nat) | Final(names: Option<Names>)

  function PacketAt(buf: seq<byte>, pos: nat): (r: Packet)
    requires pos <= |buf|
    ensures r.Short? ==> |buf| < r.need
  {
    if |buf| - pos < 6 then Short(pos + 6)
    else
      var len, pad: int := BigEndian32(buf, pos), buf[pos + 4];
      if len < 2 || len > SCAN_LIMIT || pad + 1 > len then Final(None)
      else if |buf| - pos < 4 + len then Short(pos + 4 + len)
      else Final(Payload(buf[pos + 5..pos + 4 + len - pad]))
  }

  ghost function ScanFrom(buf: seq<byte>, from: nat): (r: Scan)
    requires from <= |buf|
    ensures !r.done ==> r.names.None? && r.resume <= |buf| < r.need
  {
    match Lines(buf, from)
    case Pending(at) => Scan(None, false, at, |buf| + 1)
    case Ident(start, after) =>
      match PacketAt(buf, after)
      case Short(need) => Scan(None, false, start, need)
      case Final(names) => Scan(names, true, start, 0)
  }

  // ---- the scan as the code runs it ----

  /** The line loop: skips lines up to the identification line. */
  method FindIdent(buf: seq<byte>, from: nat) returns (found: bool, start: nat, pos: nat)
    requires from <= |buf|
    ensures Lines(buf, from) == if found then Ident(start, pos) else Pending(pos)
  {
    found, start, pos := false, from, from;
    while !found
      invariant pos <= |buf| && (found ==> start < pos)
      invariant Lines(buf, from) == if found then Ident(start, pos) else Lines(buf, pos)
      decreases !found, |buf| - pos
    {
      var nl := FindByte(buf, NEWLINE, pos);
      if nl < 0 {
        return;
      }
      start := pos;
      pos := nl + 1;
      found := IsIdent(buf, start, nl);
    }
  }

  /** The lists read so far in front of those that follow. */
  ghost function Behind(lists: seq<seq<byte>>, more: Option<seq<seq<byte>>>): Option<seq<seq<byte>>> {
    if more.None? then None else Some(lists + more.value)
  }

  lemma BehindNext(p: seq<byte>, k: nat, lists: seq<seq<byte>>)
    requires k > 0 && |p| >= 4 && BigEndian32(p, 0) <= |p| - 4
    ensures var n := BigEndian32(p, 0);
      Behind(lists, NameLists(p, k)) == Behind(lists + [p[4..4 + n]], NameLists(p[4 + n..], k - 1))
  {
    var n := BigEndian32(p, 0);
    var more := NameLists(p[4 + n..], k - 1);
    if more.Some? {
      assert lists + ([p[4..4 + n]] + more.value) == lists + [p[4..4 + n]] + more.value;
    }
  }

  /** Reads k lists off the front of p. */
  method ReadNameLists(all: seq<byte>, k: nat) returns (r: Option<seq<seq<byte>>>)
    ensures r == NameLists(all, k)
  {
    var p, lists := all, [];
    ghost var whole := NameLists(all, k);
    assert whole.Some? ==> [] + whole.value == whole.value;
    while |lists| < k
      invariant |lists| <= k && NameLists(all, k) == Behind(lists, NameLists(p, k - |lists|))
    {
      if |p| < 4 {
        return None;
      }
      var n := BigEndian32(p, 0);
      if n > |p| - 4 {
        return None;
      }
      BehindNext(p, k - |lists|, lists);
      lists := lists + [p[4..4 + n]];
      p := p[4 + n..];
    }
    r := Some(lists);
    assert lists + [] == lists;
  }

  method ReadPacket(buf: seq<byte>, pos: nat) returns (r: Packet)
    requires pos <= |buf|
    ensures r == PacketAt(buf, pos)
  {
    var rest := buf[pos..];
    if |rest| < 6 {
      return Short(pos + 6);
    }
    var len, pad: int := BigEndian32(rest, 0), rest[4];
    if len < 2 || len > SCAN_LIMIT || pad + 1 > len {
      return Final(None);
    }
    if |rest| < 4 + len {
      return Short(pos + 4 + len);
    }
    var payload := rest[5..4 + len - pad];
    assert payload == buf[pos + 5..pos + 4 + len - pad];
    if |payload| < 17 || payload[0] != MSG_KEXINIT {
      return Final(None);
    }
    var lists := ReadNameLists(payload[17..], 8);
    if lists.None? {
      return Final(None);
    }
    return Final(Some(Names(lists.value[0], lists.value[2], lists.value[4], lists.value[6])));
  }

  method ScanKexInitFrom(buf: seq<byte>, from: nat) returns (names: Option<Names>, done: bool, resume: nat, need: nat)
    requires from <= |buf|
    ensures Scan(names, done, resume, need) == ScanFrom(buf, from)
  {
    var found, start, pos := FindIdent(buf, from);
    if !found {
      return None, false, pos, |buf| + 1;
    }
    var packet := ReadPacket(buf, pos);
    match packet {
      case Short(need) => return None, false, start, need;
      case Final(names) => return names, true, start, 0;
    }
  }
}
