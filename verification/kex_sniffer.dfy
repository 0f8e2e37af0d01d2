/** The tap on the client stream: bytes arrive in any pieces, the scan resumes where it stopped. */
module KexSniffer {
  import opened Bytes
  import opened Fifo
  import opened KexInit

  /** The fields of the tap. */
  datatype Sniff = Sniff(buf: seq<byte>, resume: nat, need: nat, done: bool, hassh: Option<Names>)

  const FRESH := Sniff([], 0, 0, false, None)

  predicate Valid(s: Sniff) {
    |s.buf| <= SCAN_LIMIT && (!s.done ==> s.resume <= |s.buf|)
  }

  /** The part of a stream the tap looks at. */
  function Window(s: seq<byte>): seq<byte> {
    if |s| > SCAN_LIMIT then s[..SCAN_LIMIT] else s
  }

  ghost function Feed(s: Sniff, b: seq<byte>): (r: Sniff)
    requires Valid(s)
    ensures Valid(r)
  {
    if s.done then s
    else
      var buf := Window(s.buf + b);
      if |buf| < s.need then s.(buf := buf)
      else
        var r := ScanFrom(buf, s.resume);
        if r.done || |buf| >= SCAN_LIMIT then Sniff([], r.resume, r.need, true, r.names)
        else Sniff(buf, r.resume, r.need, false, s.hassh)
  }

  ghost function FeedAll(s: Sniff, chunks: seq<seq<byte>>): (r: Sniff)
    requires Valid(s)
    ensures Valid(r)
    decreases |chunks|
  {
    if chunks == [] then s else FeedAll(Feed(s, chunks[0]), chunks[1..])
  }

  class KexSniffConn {
    var buf: seq<byte>
    var resume: nat
    var need: nat
    var done: bool
    var hassh: Option<Names>

    function Abs(): Sniff
      reads this
    {
      Sniff(buf, resume, need, done, hassh)
    }

    constructor ()
      ensures Abs() == FRESH
    {
      buf, resume, need, done, hassh := [], 0, 0, false, None;
    }

    method FeedBytes(bytes: seq<byte>)
      requires Valid(Abs())
      modifies this
      ensures Valid(Abs()) && Abs() == Feed(old(Abs()), bytes)
    {
      if done {
        return;
      }
      var b, room := bytes, SCAN_LIMIT - |buf|;
      if |b| > room {
        b := b[..room];
      }
      assert buf + b == Window(buf + bytes);
      buf := buf + b;
      if |buf| < need {
        return;
      }
      var h, final, from, atLeast := ScanKexInitFrom(buf, resume);
      resume, need := from, atLeast;
      if final || |buf| >= SCAN_LIMIT {
        hassh, done, buf := h, true, [];
      }
    }
  }

  // ---- what more input changes ----

  /** A line that has ended ends in the same place when more bytes follow. */
  lemma LineEndsOnce(buf: seq<byte>, more: seq<byte>, pos: nat)
    requires IndexOfByte(buf, NEWLINE, pos).Some?
    ensures IndexOfByte(buf + more, NEWLINE, pos) == IndexOfByte(buf, NEWLINE, pos)
    ensures var nl := IndexOfByte(buf, NEWLINE, pos).value; IsIdent(buf + more, pos, nl) == IsIdent(buf, pos, nl)
  {
    IndexStays(buf, more, NEWLINE, pos);
    var nl := IndexOfByte(buf, NEWLINE, pos).value;
    if pos + 4 <= nl {
      assert (buf + more)[pos..pos + 4] == buf[pos..pos + 4];
    }
  }

  /** A found identification line stays, and lines known to be something else stay skipped. */
  lemma {:induction false} LinesExtend(buf: seq<byte>, more: seq<byte>, pos: nat)
    requires pos <= |buf|
    ensures var l := Lines(buf, pos);
      && (l.Ident? ==> Lines(buf + more, pos) == Lines(buf + more, l.start) == l)
      && (l.Pending? ==> Lines(buf + more, pos) == Lines(buf + more, l.at))
    decreases |buf| - pos
  {
    var end := IndexOfByte(buf, NEWLINE, pos);
    if end.Some? {
      LineEndsOnce(buf, more, pos);
      if !IsIdent(buf, pos, end.value) {
        LinesExtend(buf, more, end.value + 1);
      }
    }
  }

  /** A verdict on the packet is final; without one, bytes short of need change nothing. */
  lemma PacketExtend(buf: seq<byte>, more: seq<byte>, pos: nat)
    requires pos <= |buf|
    ensures var p := PacketAt(buf, pos);
      p.Final? || |buf + more| < p.need ==> PacketAt(buf + more, pos) == p
  {
    var all := buf + more;
    if |buf| - pos >= 6 {
      var len, pad: int := BigEndian32(buf, pos), buf[pos + 4];
      assert BigEndian32(all, pos) == len && all[pos + 4] == pad;
      if pad + 1 <= len && |buf| - pos >= 4 + len {
        assert all[pos + 5..pos + 4 + len - pad] == buf[pos + 5..pos + 4 + len - pad];
      }
    }
  }

  /** A finished scan is stable; an unfinished one resumes without loss and cannot finish below need. */
  lemma ScanExtend(buf: seq<byte>, more: seq<byte>)
    ensures var r := ScanFrom(buf, 0);
      && (r.done ==> ScanFrom(buf + more, 0) == r)
      && (!r.done ==> ScanFrom(buf + more, r.resume) == ScanFrom(buf + more, 0))
      && (!r.done && |buf + more| < r.need ==> !ScanFrom(buf + more, 0).done)
  {
    LinesExtend(buf, more, 0);
    match Lines(buf, 0) {
      case Pending(at) =>
        if more == [] { assert buf + more == buf; }
      case Ident(start, after) =>
        PacketExtend(buf, more, after);
    }
  }

  // ---- any chunking is one scan ----

  /** Whatever follows w, a scan from k finds what a scan from the start finds. */
  ghost predicate Resumable(w: seq<byte>, k: nat) {
    k <= |w| && forall v :: w <= v ==> ScanFrom(v, k) == ScanFrom(v, 0)
  }

  /** Whatever follows w, no scan of fewer than need bytes is final. */
  ghost predicate Waits(w: seq<byte>, need: nat) {
    forall v :: w <= v && |v| < need ==> !ScanFrom(v, 0).done
  }

  /** After the window w of the stream, the tap stands as one scan of w does. */
  ghost predicate Tracks(s: Sniff, w: seq<byte>) {
    if s.done then s.hassh == ScanFrom(w, 0).names && (ScanFrom(w, 0).done || |w| == SCAN_LIMIT)
    else (
      && s.buf == w && s.hassh.None? && !ScanFrom(w, 0).done && Resumable(w, s.resume) && Waits(w, s.need)
      && (Lines(w, 0).Pending? ==> |w| < SCAN_LIMIT && s.need <= |w| + 1))
  }

  lemma WindowExtends(w: seq<byte>, b: seq<byte>)
    requires |w| <= SCAN_LIMIT
    ensures w <= Window(w + b) && |Window(w + b)| <= SCAN_LIMIT
  {
  }

  lemma StillWaits(w: seq<byte>, v: seq<byte>, k: nat, need: nat)
    requires w <= v && Resumable(w, k) && Waits(w, need) && |v| < need
    ensures Resumable(v, k) && Waits(v, need) && !ScanFrom(v, 0).done
  {
  }

  lemma FeedWaits(s: Sniff, w: seq<byte>, b: seq<byte>)
    requires Valid(s) && Tracks(s, w) && !s.done && |Window(w + b)| < s.need
    ensures Tracks(Feed(s, b), Window(w + b))
  {
    var v := Window(w + b);
    WindowExtends(w, b);
    StillWaits(w, v, s.resume, s.need);
    StillPending(w, v, s.need);
  }

  lemma StillPending(w: seq<byte>, v: seq<byte>, need: nat)
    requires w <= v && |v| < need && (Lines(w, 0).Pending? ==> need <= |w| + 1)
    ensures Lines(v, 0).Pending? ==> v == w
  {
    var m := v[|w|..];
    assert v == w + m;
    LinesExtend(w, m, 0);
  }

  lemma ScanResult(v: seq<byte>)
    requires !ScanFrom(v, 0).done
    ensures Resumable(v, ScanFrom(v, 0).resume) && Waits(v, ScanFrom(v, 0).need)
  {
    var r := ScanFrom(v, 0);
    forall u | v <= u ensures ScanFrom(u, r.resume) == ScanFrom(u, 0) && (|u| < r.need ==> !ScanFrom(u, 0).done) {
      assert u == v + u[|v|..];
      ScanExtend(v, u[|v|..]);
    }
  }

  lemma FeedScans(s: Sniff, w: seq<byte>, b: seq<byte>)
    requires Valid(s) && Tracks(s, w) && !s.done && |Window(w + b)| >= s.need
    ensures Tracks(Feed(s, b), Window(w + b))
  {
    var v := Window(w + b);
    WindowExtends(w, b);
    assert v == w + v[|w|..];
    assert ScanFrom(v, s.resume) == ScanFrom(v, 0);
    if !ScanFrom(v, 0).done {
      ScanResult(v);
    }
  }

  lemma FeedDone(s: Sniff, w: seq<byte>, b: seq<byte>)
    requires s.done && Tracks(s, w) && |w| <= SCAN_LIMIT
    ensures Tracks(s, Window(w + b))
  {
    var v := Window(w + b);
    WindowExtends(w, b);
    assert v == w + v[|w|..];
    ScanExtend(w, v[|w|..]);
    if |w| == SCAN_LIMIT {
      assert v == w;
    }
  }

  lemma FeedTracks(s: Sniff, w: seq<byte>, b: seq<byte>)
    requires Valid(s) && Tracks(s, w) && |w| <= SCAN_LIMIT
    ensures Tracks(Feed(s, b), Window(w + b))
  {
    if s.done {
      FeedDone(s, w, b);
    } else if |Window(w + b)| < s.need {
      FeedWaits(s, w, b);
    } else {
      FeedScans(s, w, b);
    }
  }

  lemma WindowThen(w: seq<byte>, b: seq<byte>, rest: seq<byte>)
    ensures Window(Window(w + b) + rest) == Window(w + (b + rest))
  {
  }

  lemma {:induction false} FeedAllTracks(s: Sniff, w: seq<byte>, chunks: seq<seq<byte>>)
    requires Valid(s) && Tracks(s, w) && |w| <= SCAN_LIMIT
    ensures Tracks(FeedAll(s, chunks), Window(w + Flatten(chunks)))
    decreases |chunks|
  {
    if chunks == [] {
      assert w + Flatten(chunks) == w;
    } else {
      FeedTracks(s, w, chunks[0]);
      FeedAllTracks(Feed(s, chunks[0]), Window(w + chunks[0]), chunks[1..]);
      WindowThen(w, chunks[0], Flatten(chunks[1..]));
    }
  }

  lemma FreshTracks()
    ensures Tracks(FRESH, [])
  {
    assert Lines([], 0) == Pending(0);
  }

  /** The HASSH after any chunking of a stream is that of one scan over its first 16 KiB. */
  lemma AnyChunking(chunks: seq<seq<byte>>)
    ensures FeedAll(FRESH, chunks).hassh == ScanFrom(Window(Flatten(chunks)), 0).names
  {
    FreshTracks();
    FeedAllTracks(FRESH, [], chunks);
    assert [] + Flatten(chunks) == Flatten(chunks);
  }

  /** The tap stops when that scan is final, and otherwise only with a full buffer; with a full
      buffer it goes on only while it waits for a packet that does not fit. */
  lemma StopsWhenFinal(chunks: seq<seq<byte>>)
    ensures var s, w := FeedAll(FRESH, chunks), Window(Flatten(chunks));
      && (ScanFrom(w, 0).done ==> s.done)
      && (s.done ==> ScanFrom(w, 0).done || |w| == SCAN_LIMIT)
      && (!s.done && |w| == SCAN_LIMIT ==> Lines(w, 0).Ident? && PacketAt(w, Lines(w, 0).after).Short?)
  {
    FreshTracks();
    FeedAllTracks(FRESH, [], chunks);
    assert [] + Flatten(chunks) == Flatten(chunks);
  }
}
