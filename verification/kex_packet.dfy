/** The scan reads back the name-lists of a well-formed client packet. */
module KexPacket {
  import opened Bytes
  import opened Fifo
  import opened KexInit

  /** Name-lists as section 7.1 of RFC 4253 encodes them. */
  function EncodeLists(lists: seq<seq<byte>>): seq<byte>
    requires forall l :: l in lists ==> |l| < 0x1_0000_0000
  {
    if lists == [] then []
    else PutBigEndian32(|lists[0]|) + lists[0] + EncodeLists(lists[1..])
  }

  lemma {:induction false} ListsReadBack(lists: seq<seq<byte>>, k: nat, rest: seq<byte>)
    requires (forall l :: l in lists ==> |l| < 0x1_0000_0000) && k <= |lists|
    ensures NameLists(EncodeLists(lists) + rest, k) == Some(lists[..k])
    decreases k
  {
    if k > 0 {
      var l, p := lists[0], EncodeLists(lists) + rest;
      var more := EncodeLists(lists[1..]) + rest;
      assert p == [] + PutBigEndian32(|l|) + (l + more);
      BigEndian32Reads(|l|, [], l + more);
      assert p[4..4 + |l|] == l && p[4 + |l|..] == more;
      ListsReadBack(lists[1..], k - 1, rest);
      assert [l] + lists[1..][..k - 1] == lists[..k];
    }
  }

  /** A KEXINIT payload: the message number, a cookie of 16 bytes, the lists and what follows. */
  function KexPayload(cookie: seq<byte>, lists: seq<seq<byte>>, rest: seq<byte>): seq<byte>
    requires forall l :: l in lists ==> |l| < 0x1_0000_0000
  {
    [MSG_KEXINIT] + cookie + (EncodeLists(lists) + rest)
  }

  /** A binary packet as section 6 of RFC 4253 frames it. */
  function Frame(payload: seq<byte>, padding: seq<byte>): seq<byte>
    requires |padding| < 256 && 1 + |payload| + |padding| < 0x1_0000_0000
  {
    PutBigEndian32(1 + |payload| + |padding|) + ([|padding|] + payload + padding)
  }

  lemma PayloadReadsBack(cookie: seq<byte>, lists: seq<seq<byte>>, rest: seq<byte>)
    requires (forall l :: l in lists ==> |l| < 0x1_0000_0000) && |cookie| == 16 && |lists| >= 8
    ensures Payload(KexPayload(cookie, lists, rest)) == Some(Names(lists[0], lists[2], lists[4], lists[6]))
  {
    var payload := KexPayload(cookie, lists, rest);
    assert payload[17..] == EncodeLists(lists) + rest;
    ListsReadBack(lists, 8, rest);
  }

  lemma PacketReadsBack(pre: seq<byte>, payload: seq<byte>, padding: seq<byte>, post: seq<byte>)
    requires |padding| < 256 && |payload| > 0 && 1 + |payload| + |padding| <= SCAN_LIMIT
    ensures PacketAt(pre + Frame(payload, padding) + post, |pre|) == Final(Payload(payload))
  {
    var len, pos := 1 + |payload| + |padding|, |pre|;
    var body := [|padding|] + payload + padding;
    var buf := pre + Frame(payload, padding) + post;
    assert buf == pre + PutBigEndian32(len) + (body + post);
    BigEndian32Reads(len, pre, body + post);
    assert buf[pos + 4] == |padding|;
    assert buf[pos + 5..pos + 5 + |payload|] == payload;
  }

  /** A line without a newline inside that starts with SSH- is the identification line. */
  lemma IdentAtFront(line: seq<byte>, rest: seq<byte>)
    requires NEWLINE !in line && SSH_DASH <= line
    ensures Lines(line + [NEWLINE] + rest, 0) == Ident(0, |line| + 1)
  {
    var buf := line + [NEWLINE] + rest;
    assert forall i :: 0 <= i < |line| ==> buf[i] == line[i] && line[i] in line;
    assert buf[|line|] == NEWLINE;
    assert FirstAt(buf, NEWLINE, 0, |line|);
    assert buf[0..4] == line[..4] == SSH_DASH;
  }

  /** The HASSH of a client that sends its identification and a KEXINIT is over lists 0, 2, 4 and 6. */
  lemma ClientReadsBack(line: seq<byte>, cookie: seq<byte>, lists: seq<seq<byte>>, tail: seq<byte>, padding: seq<byte>, post: seq<byte>)
    requires NEWLINE !in line && SSH_DASH <= line
    requires (forall l :: l in lists ==> |l| < 0x1_0000_0000) && |cookie| == 16 && |lists| >= 8
    requires |padding| < 256 && 1 + |KexPayload(cookie, lists, tail)| + |padding| <= SCAN_LIMIT
    ensures var packet := Frame(KexPayload(cookie, lists, tail), padding);
      ScanFrom(line + [NEWLINE] + (packet + post), 0)
        == Scan(Some(Names(lists[0], lists[2], lists[4], lists[6])), true, 0, 0)
  {
    PayloadReadsBack(cookie, lists, tail);
    FramedReadsBack(line, KexPayload(cookie, lists, tail), padding, post);
  }

  lemma ScanIs(buf: seq<byte>, after: nat, names: Option<Names>)
    requires Lines(buf, 0) == Ident(0, after) && after <= |buf| && PacketAt(buf, after) == Final(names)
    ensures ScanFrom(buf, 0) == Scan(names, true, 0, 0)
  {
  }

  lemma FramedReadsBack(line: seq<byte>, payload: seq<byte>, padding: seq<byte>, post: seq<byte>)
    requires NEWLINE !in line && SSH_DASH <= line
    requires |padding| < 256 && |payload| > 0 && 1 + |payload| + |padding| <= SCAN_LIMIT
    ensures ScanFrom(line + [NEWLINE] + (Frame(payload, padding) + post), 0) == Scan(Payload(payload), true, 0, 0)
  {
    PacketReadsBack(line + [NEWLINE], payload, padding, post);
    PacketScanned(line, Frame(payload, padding), post, Payload(payload));
  }

  lemma Reassoc(a: seq<byte>, b: seq<byte>, c: seq<byte>)
    ensures a + (b + c) == a + b + c
  {
  }

  lemma PacketScanned(line: seq<byte>, packet: seq<byte>, post: seq<byte>, names: Option<Names>)
    requires NEWLINE !in line && SSH_DASH <= line
    requires PacketAt(line + [NEWLINE] + packet + post, |line + [NEWLINE]|) == Final(names)
    ensures ScanFrom(line + [NEWLINE] + (packet + post), 0) == Scan(names, true, 0, 0)
  {
    Reassoc(line + [NEWLINE], packet, post);
    IdentAtFront(line, packet + post);
    ScanIs(line + [NEWLINE] + (packet + post), |line| + 1, names);
  }
}
