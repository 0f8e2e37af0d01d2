/** What a client must have sent for the scan to find its name-lists. */
module KexForms {
  import opened Bytes
  import opened Fifo
  import opened KexInit
  import opened KexPacket

  // ---- lines ----

  /** The line has no newline inside. */
  predicate IsLine(line: seq<byte>) {
    10 !in line
  }

  /** It starts with SSH-. */
  predicate IsIdentLine(line: seq<byte>) {
    IsLine(line) && |line| >= 4 && line[0] == 'S' as int && line[1] == 'S' as int && line[2] == 'H' as int && line[3] == '-' as int
  }

  /** The i-th line is no identification, and what follows it is the next stage. */
  ghost predicate Passes(stages: seq<seq<byte>>, lines: seq<seq<byte>>, i: nat)
    requires |stages| == |lines| + 1
  {
    i < |lines| ==> IsLine(lines[i]) && !IsIdentLine(lines[i]) && stages[i] == lines[i] + [10] + stages[i + 1]
  }

  /** Line after line goes by that is no identification, and then comes one that is. */
  ghost predicate Identifies(stages: seq<seq<byte>>, lines: seq<seq<byte>>, line: seq<byte>, rest: seq<byte>) {
    && |stages| == |lines| + 1 && (forall i: nat :: Passes(stages, lines, i))
    && IsIdentLine(line) && stages[|lines|] == line + [10] + rest
  }

  lemma NextLine(buf: seq<byte>, pos: nat, line: seq<byte>, rest: seq<byte>)
    requires pos <= |buf| && IsLine(line) && buf[pos..] == line + [10] + rest
    ensures IndexOfByte(buf, NEWLINE, pos) == Some(pos + |line|)
    ensures IsIdent(buf, pos, pos + |line|) <==> IsIdentLine(line)
    ensures pos + |line| + 1 <= |buf| && buf[pos + |line| + 1..] == rest
  {
    var tail := line + [10] + rest;
    forall j | 0 <= j <= |line| ensures buf[pos + j] == tail[j] {
      assert buf[pos..][j] == buf[pos + j];
    }
    assert FirstAt(buf, NEWLINE, pos, pos + |line|) by {
      forall j | pos <= j < pos + |line| ensures buf[j] != NEWLINE {
        assert buf[pos + (j - pos)] == line[j - pos];
      }
    }
    assert buf[pos + |line| + 1..] == buf[pos..][|line| + 1..];
    if |line| >= 4 {
      assert buf[pos..pos + 4] == line[..4];
      assert line[..4] == [line[0], line[1], line[2], line[3]];
    }
  }

  /** found tells for every position what the line search finds from there. */
  ghost predicate Tells(found: seq<Line>, buf: seq<byte>, pos: nat)
    requires |found| == |buf| + 1
  {
    pos <= |buf| ==> found[pos] == Lines(buf, pos)
  }

  ghost predicate TellsAll(found: seq<Line>, buf: seq<byte>) {
    |found| == |buf| + 1 && forall pos: nat :: Tells(found, buf, pos)
  }

  ghost function Found(buf: seq<byte>): (found: seq<Line>)
    ensures |found| == |buf| + 1
  {
    seq(|buf| + 1, pos requires 0 <= pos <= |buf| => Lines(buf, pos))
  }

  lemma FoundTells(buf: seq<byte>)
    ensures TellsAll(Found(buf), buf)
  {
  }

  lemma SkipsLine(found: seq<Line>, buf: seq<byte>, pos: nat, line: seq<byte>, rest: seq<byte>)
    requires TellsAll(found, buf) && pos <= |buf| && IsLine(line) && !IsIdentLine(line) && buf[pos..] == line + [10] + rest
    ensures pos + |line| + 1 <= |buf| && buf[pos + |line| + 1..] == rest && found[pos] == found[pos + |line| + 1]
  {
    NextLine(buf, pos, line, rest);
    assert Tells(found, buf, pos) && Tells(found, buf, pos + |line| + 1);
  }

  lemma FindsLine(found: seq<Line>, buf: seq<byte>, pos: nat, line: seq<byte>, rest: seq<byte>)
    requires TellsAll(found, buf) && pos <= |buf| && IsIdentLine(line) && buf[pos..] == line + [10] + rest
    ensures found[pos] == Ident(pos, pos + |line| + 1) && pos + |line| + 1 <= |buf| && buf[pos + |line| + 1..] == rest
  {
    NextLine(buf, pos, line, rest);
    assert Tells(found, buf, pos);
  }

  lemma SplitLine(found: seq<Line>, buf: seq<byte>, pos: nat) returns (nl: nat)
    requires TellsAll(found, buf) && pos <= |buf| && found[pos].Ident?
    ensures pos <= nl < |buf| && IsLine(buf[pos..nl]) && buf[pos..] == buf[pos..nl] + [10] + buf[nl + 1..]
  {
    assert Tells(found, buf, pos);
    nl := IndexOfByte(buf, NEWLINE, pos).value;
    assert FirstAt(buf, NEWLINE, pos, nl);
    forall j | 0 <= j < |buf[pos..nl]| ensures buf[pos..nl][j] != 10 {
      assert buf[pos..nl][j] == buf[pos + j];
    }
  }

  lemma {:induction false} IdentFound(found: seq<Line>, buf: seq<byte>, pos: nat, stages: seq<seq<byte>>, lines: seq<seq<byte>>,
                                      line: seq<byte>, rest: seq<byte>, i: nat)
    requires TellsAll(found, buf) && Identifies(stages, lines, line, rest) && i <= |lines| && pos <= |buf| && buf[pos..] == stages[i]
    ensures var l := found[pos]; l.Ident? && l.after <= |buf| && buf[l.after..] == rest
    decreases |lines| - i
  {
    if i == |lines| {
      FindsLine(found, buf, pos, line, rest);
    } else {
      assert Passes(stages, lines, i);
      SkipsLine(found, buf, pos, lines[i], stages[i + 1]);
      IdentFound(found, buf, pos + |lines[i]| + 1, stages, lines, line, rest, i + 1);
    }
  }

  lemma LineThen(first: seq<byte>, bytes: seq<byte>, stages: seq<seq<byte>>, lines: seq<seq<byte>>, line: seq<byte>, rest: seq<byte>)
    requires IsLine(first) && !IsIdentLine(first) && Identifies(stages, lines, line, rest) && bytes == first + [10] + stages[0]
    ensures Identifies([bytes] + stages, [first] + lines, line, rest)
  {
    forall i: nat ensures Passes([bytes] + stages, [first] + lines, i) {
      assert i > 0 ==> Passes(stages, lines, i - 1);
    }
  }

  lemma {:induction false} FoundIdent(found: seq<Line>, buf: seq<byte>, pos: nat)
    returns (stages: seq<seq<byte>>, lines: seq<seq<byte>>, line: seq<byte>)
    requires TellsAll(found, buf) && pos <= |buf| && found[pos].Ident?
    ensures var l := found[pos]; l.after <= |buf| && Identifies(stages, lines, line, buf[l.after..]) && stages[0] == buf[pos..]
    decreases |buf| - pos
  {
    var nl := SplitLine(found, buf, pos);
    var first, bytes := buf[pos..nl], buf[pos..];
    if IsIdentLine(first) {
      stages, lines, line := [bytes], [], first;
      FindsLine(found, buf, pos, first, buf[nl + 1..]);
    } else {
      SkipsLine(found, buf, pos, first, buf[nl + 1..]);
      stages, lines, line := FoundIdent(found, buf, nl + 1);
      LineThen(first, bytes, stages, lines, line, buf[found[pos].after..]);
      stages, lines := [bytes] + stages, [first] + lines;
    }
  }

  // ---- the packet ----

  ghost predicate Small(lists: seq<seq<byte>>) {
    forall l :: l in lists ==> |l| < 0x1_0000_0000
  }

  lemma {:induction false} ListsThere(p: seq<byte>, k: nat) returns (tail: seq<byte>)
    requires NameLists(p, k).Some?
    ensures var lists := NameLists(p, k).value; Small(lists) && p == EncodeLists(lists) + tail
    decreases k
  {
    if k == 0 {
      tail := p;
      assert [] + p == p;
    } else {
      var n := BigEndian32(p, 0);
      var more := NameLists(p[4 + n..], k - 1).value;
      tail := ListsThere(p[4 + n..], k - 1);
      ListThen(p, n, more, tail);
    }
  }

  lemma ListThen(p: seq<byte>, n: nat, more: seq<seq<byte>>, tail: seq<byte>)
    requires |p| >= 4 && n == BigEndian32(p, 0) && n <= |p| - 4 && Small(more) && p[4 + n..] == EncodeLists(more) + tail
    ensures Small([p[4..4 + n]] + more) && p == EncodeLists([p[4..4 + n]] + more) + tail
  {
    var first, lists := p[4..4 + n], [p[4..4 + n]] + more;
    LengthThere(p);
    assert lists[1..] == more;
    assert p == PutBigEndian32(n) + first + (EncodeLists(more) + tail);
    assert PutBigEndian32(n) + first + (EncodeLists(more) + tail) == PutBigEndian32(n) + first + EncodeLists(more) + tail;
  }

  lemma LengthThere(p: seq<byte>)
    requires |p| >= 4
    ensures p[..4] == PutBigEndian32(BigEndian32(p, 0))
  {
    var a: int, b: int, c: int, d: int := p[0], p[1], p[2], p[3];
    Bytewise(a, b, c, d);
  }

  lemma Bytewise(a: int, b: int, c: int, d: int)
    requires 0 <= a < 0x100 && 0 <= b < 0x100 && 0 <= c < 0x100 && 0 <= d < 0x100
    ensures var n := a * 0x100_0000 + b * 0x1_0000 + c * 0x100 + d;
      n / 0x100_0000 == a && n / 0x1_0000 % 0x100 == b && n / 0x100 % 0x100 == c && n % 0x100 == d
  {
    var n := a * 0x100_0000 + b * 0x1_0000 + c * 0x100 + d;
    assert n / 0x100 == a * 0x1_0000 + b * 0x100 + c;
    assert n / 0x1_0000 == a * 0x100 + b;
  }

  /** A KEXINIT with these names: the number 20, sixteen bytes, eight name-lists and whatever follows. */
  ghost predicate IsKexInit(payload: seq<byte>, names: Names) {
    exists cookie, lists, tail ::
      && |cookie| == 16 && |lists| == 8 && Small(lists)
      && payload == [20] + cookie + (EncodeLists(lists) + tail)
      && names == Names(lists[0], lists[2], lists[4], lists[6])
  }

  lemma PayloadIff(payload: seq<byte>, names: Names)
    ensures Payload(payload) == Some(names) <==> IsKexInit(payload, names)
  {
    if Payload(payload) == Some(names) {
      var tail := ListsThere(payload[17..], 8);
      var lists := NameLists(payload[17..], 8).value;
      assert payload == [20] + payload[1..17] + payload[17..];
      assert |payload[1..17]| == 16 && |lists| == 8;
    }
    if IsKexInit(payload, names) {
      var cookie, lists, tail :|
        && |cookie| == 16 && |lists| == 8 && Small(lists)
        && payload == [20] + cookie + (EncodeLists(lists) + tail)
        && names == Names(lists[0], lists[2], lists[4], lists[6]);
      PayloadReadsBack(cookie, lists, tail);
    }
  }

  /** A binary packet of at most 16 KiB: its length, that of the padding, the payload and the padding. */
  ghost predicate IsPacket(bytes: seq<byte>, payload: seq<byte>, padding: seq<byte>, post: seq<byte>) {
    && 1 <= |payload| + |padding| && |padding| < 256 && 1 + |payload| + |padding| <= 16384
    && bytes == PutBigEndian32(1 + |payload| + |padding|) + ([|padding|] + payload + padding) + post
  }

  lemma PacketFound(buf: seq<byte>, pos: nat, payload: seq<byte>, padding: seq<byte>, post: seq<byte>)
    requires pos <= |buf| && IsPacket(buf[pos..], payload, padding, post)
    ensures PacketAt(buf, pos) == Final(Payload(payload))
  {
    var len := 1 + |payload| + |padding|;
    var body := [|padding|] + payload + padding;
    assert buf == buf[..pos] + PutBigEndian32(len) + (body + post);
    BigEndian32Reads(len, buf[..pos], body + post);
    assert buf[pos + 4] == |padding|;
    assert buf[pos + 5..pos + 5 + |payload|] == payload;
  }

  lemma FoundPacket(buf: seq<byte>, pos: nat) returns (payload: seq<byte>, padding: seq<byte>, post: seq<byte>)
    requires pos <= |buf| && PacketAt(buf, pos).Final? && PacketAt(buf, pos).names.Some?
    ensures IsPacket(buf[pos..], payload, padding, post) && Payload(payload) == PacketAt(buf, pos).names
  {
    var bytes := buf[pos..];
    var len, pad: int := BigEndian32(buf, pos), buf[pos + 4];
    payload, padding, post := buf[pos + 5..pos + 4 + len - pad], buf[pos + 4 + len - pad..pos + 4 + len], buf[pos + 4 + len..];
    LengthThere(bytes);
    assert BigEndian32(bytes, 0) == len;
    assert bytes == bytes[..4] + ([pad] + payload + padding) + post;
  }

  // ---- the stream ----

  /** The stream identifies and then sends a packet with these names. */
  ghost predicate Sends(bytes: seq<byte>, names: Names) {
    exists stages, lines, line, rest, payload, padding, post ::
      && Identifies(stages, lines, line, rest) && stages[0] == bytes
      && IsPacket(rest, payload, padding, post) && IsKexInit(payload, names)
  }

  lemma FoundSends(buf: seq<byte>, names: Names)
    requires ScanFrom(buf, 0).names == Some(names)
    ensures Sends(buf, names)
  {
    assert buf[0..] == buf;
    var l := Lines(buf, 0);
    FoundTells(buf);
    var stages, lines, line := FoundIdent(Found(buf), buf, 0);
    var payload, padding, post := FoundPacket(buf, l.after);
    PayloadIff(payload, names);
    assert Identifies(stages, lines, line, buf[l.after..]) && IsPacket(buf[l.after..], payload, padding, post);
  }

  lemma SentFound(buf: seq<byte>, names: Names)
    requires Sends(buf, names)
    ensures ScanFrom(buf, 0).names == Some(names)
  {
    assert buf[0..] == buf;
    var stages, lines, line, rest, payload, padding, post :|
      && Identifies(stages, lines, line, rest) && stages[0] == buf
      && IsPacket(rest, payload, padding, post) && IsKexInit(payload, names);
    FoundTells(buf);
    IdentFound(Found(buf), buf, 0, stages, lines, line, rest, 0);
    PacketFound(buf, Lines(buf, 0).after, payload, padding, post);
    PayloadIff(payload, names);
  }

  /** The scan finds names if and only if the stream has sent an identification line, behind lines that are none, and
      then a KEXINIT of at most 16 KiB with these names. */
  lemma NamesIff(buf: seq<byte>, names: Names)
    ensures ScanFrom(buf, 0).names == Some(names) <==> Sends(buf, names)
  {
    if ScanFrom(buf, 0).names == Some(names) {
      FoundSends(buf, names);
    }
    if Sends(buf, names) {
      SentFound(buf, names);
    }
  }

  // ---- when the scan is over ----

  /** The bytes behind the identification line have a length or a padding that no packet has, or the whole packet. */
  ghost predicate Decided(rest: seq<byte>) {
    && |rest| >= 6
    && var len := rest[0] as int * 0x100_0000 + rest[1] as int * 0x1_0000 + rest[2] as int * 0x100 + rest[3] as int;
       len < 2 || len > 16384 || len < 1 + rest[4] as int || |rest| >= 4 + len
  }

  lemma DecidedAt(buf: seq<byte>, pos: nat)
    requires pos <= |buf|
    ensures PacketAt(buf, pos).Final? <==> Decided(buf[pos..])
  {
    if |buf| - pos >= 6 {
      var rest := buf[pos..];
      assert rest[0] == buf[pos] && rest[1] == buf[pos + 1] && rest[2] == buf[pos + 2] && rest[3] == buf[pos + 3];
      assert rest[4] == buf[pos + 4];
    }
  }

  /** The scan is over if and only if the stream has identified and what follows is decided. */
  lemma DoneIff(buf: seq<byte>)
    ensures ScanFrom(buf, 0).done <==>
      exists stages, lines, line, rest :: Identifies(stages, lines, line, rest) && stages[0] == buf && Decided(rest)
  {
    assert buf[0..] == buf;
    FoundTells(buf);
    if ScanFrom(buf, 0).done {
      var after := Lines(buf, 0).after;
      var stages, lines, line := FoundIdent(Found(buf), buf, 0);
      DecidedAt(buf, after);
      assert Identifies(stages, lines, line, buf[after..]);
    }
    if stages, lines, line, rest :| Identifies(stages, lines, line, rest) && stages[0] == buf && Decided(rest) {
      IdentFound(Found(buf), buf, 0, stages, lines, line, rest, 0);
      DecidedAt(buf, Lines(buf, 0).after);
    }
  }
}
