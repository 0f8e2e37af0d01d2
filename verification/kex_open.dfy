/** When the tap on the client stream stays open although its buffer is full. */
module KexOpen {
  import opened Bytes
  import opened KexInit
  import opened KexSniffer

  /** A short buffer whose scan waits for a packet that no full buffer can hold. */
  ghost predicate Stuck(w: seq<byte>) {
    && |w| < SCAN_LIMIT && Lines(w, 0).Ident?
    && PacketAt(w, Lines(w, 0).after).Short? && PacketAt(w, Lines(w, 0).after).need > SCAN_LIMIT
  }

  /** The tap waits for as many bytes as a scan of w does; a fresh tap has not scanned yet. */
  ghost predicate Exact(s: Sniff, w: seq<byte>) {
    !s.done ==> s.need == ScanFrom(w, 0).need || (w == [] && s.need == 0)
  }

  lemma StuckIff(s: Sniff, w: seq<byte>)
    requires Tracks(s, w) && Exact(s, w) && !s.done && |w| < SCAN_LIMIT
    ensures Stuck(w) <==> s.need > SCAN_LIMIT
  {
    FreshTracks();
  }

  /** Bytes that still leave the buffer short of need do not change need. */
  lemma NeedStands(w: seq<byte>, m: seq<byte>)
    requires !ScanFrom(w, 0).done && |w + m| < ScanFrom(w, 0).need
    ensures ScanFrom(w + m, 0).need == ScanFrom(w, 0).need
  {
    LinesExtend(w, m, 0);
    match Lines(w, 0) {
      case Pending(at) => assert w + m == w;
      case Ident(start, after) => PacketExtend(w, m, after);
    }
  }

  lemma WaitingIsExact(s: Sniff, w: seq<byte>, b: seq<byte>)
    requires Valid(s) && s.buf == w && !ScanFrom(w, 0).done && Exact(s, w) && !s.done && |Window(w + b)| < s.need
    ensures Exact(Feed(s, b), Window(w + b))
  {
    var v := Window(w + b);
    WindowExtends(w, b);
    var m := v[|w|..];
    assert v == w + m;
    NeedStands(w, m);
  }

  lemma FeedExact(s: Sniff, w: seq<byte>, b: seq<byte>)
    requires Valid(s) && Tracks(s, w) && Exact(s, w) && |w| <= SCAN_LIMIT
    ensures Exact(Feed(s, b), Window(w + b))
  {
    if !s.done {
      if |Window(w + b)| < s.need {
        WaitingIsExact(s, w, b);
      } else {
        WindowExtends(w, b);
        assert ScanFrom(Window(w + b), s.resume) == ScanFrom(Window(w + b), 0);
      }
    }
  }

  /** A tap that waits for more than a full buffer waits for ever; one that is done stays done. */
  lemma {:induction false} StaysSo(s: Sniff, chunks: seq<seq<byte>>)
    requires Valid(s)
    ensures s.done ==> FeedAll(s, chunks) == s
    ensures !s.done && s.need > SCAN_LIMIT ==> !FeedAll(s, chunks).done
    decreases |chunks|
  {
    if chunks != [] {
      StaysSo(Feed(s, chunks[0]), chunks[1..]);
    }
  }

  lemma FullScanStops(s: Sniff, w: seq<byte>, b: seq<byte>)
    requires Valid(s) && Tracks(s, w) && |w| <= SCAN_LIMIT && |Window(w + b)| == SCAN_LIMIT && s.need <= SCAN_LIMIT
    ensures Feed(s, b).done
  {
  }

  lemma {:induction false} FeedAllSplit(s: Sniff, chunks: seq<seq<byte>>, k: nat)
    requires Valid(s) && k <= |chunks|
    ensures FeedAll(s, chunks) == FeedAll(FeedAll(s, chunks[..k]), chunks[k..])
    decreases |chunks|
  {
    if k > 0 {
      FeedAllSplit(Feed(s, chunks[0]), chunks[1..], k - 1);
      assert chunks[..k][1..] == chunks[1..][..k - 1] && chunks[1..][k - 1..] == chunks[k..];
    } else {
      assert chunks[k..] == chunks;
    }
  }

  lemma {:induction false} FeedAllExact(s: Sniff, w: seq<byte>, chunks: seq<seq<byte>>)
    requires Valid(s) && Tracks(s, w) && Exact(s, w) && |w| <= SCAN_LIMIT
    ensures Exact(FeedAll(s, chunks), Window(w + Flatten(chunks)))
    decreases |chunks|
  {
    if chunks == [] {
      assert w + Flatten(chunks) == w;
    } else {
      FeedTracks(s, w, chunks[0]);
      FeedExact(s, w, chunks[0]);
      FeedAllExact(Feed(s, chunks[0]), Window(w + chunks[0]), chunks[1..]);
      WindowThen(w, chunks[0], Flatten(chunks[1..]));
    }
  }

  lemma {:induction false} FlattenSplit(chunks: seq<seq<byte>>, k: nat)
    requires k < |chunks|
    ensures Flatten(chunks[..k + 1]) == Flatten(chunks[..k]) + chunks[k]
    decreases k
  {
    if k > 0 {
      FlattenSplit(chunks[1..], k - 1);
      assert chunks[..k + 1][1..] == chunks[1..][..k] && chunks[..k][1..] == chunks[1..][..k - 1];
    } else {
      assert chunks[..1][1..] == [];
    }
  }

  /** The chunk that fills the buffer. */
  lemma {:induction false} FillingChunk(chunks: seq<seq<byte>>, n: nat) returns (k: nat)
    requires n <= |chunks| && |Flatten(chunks[..n])| >= SCAN_LIMIT
    ensures k < n && |Flatten(chunks[..k])| < SCAN_LIMIT <= |Flatten(chunks[..k]) + chunks[k]|
    decreases n
  {
    assert Flatten(chunks[..0]) == [];
    k := n - 1;
    FlattenSplit(chunks, k);
    if |Flatten(chunks[..k])| >= SCAN_LIMIT {
      k := FillingChunk(chunks, k);
    }
  }

  /** The tap after the first k chunks. */
  lemma After(chunks: seq<seq<byte>>, k: nat)
    requires k <= |chunks| && |Flatten(chunks[..k])| <= SCAN_LIMIT
    ensures var s, w := FeedAll(FRESH, chunks[..k]), Flatten(chunks[..k]); Tracks(s, w) && Exact(s, w)
  {
    var w := Flatten(chunks[..k]);
    assert [] + w == w;
    FreshTracks();
    FeedAllTracks(FRESH, [], chunks[..k]);
    FeedAllExact(FRESH, [], chunks[..k]);
  }

  lemma StuckStaysOpen(chunks: seq<seq<byte>>, k: nat)
    requires k <= |chunks| && Stuck(Flatten(chunks[..k]))
    ensures !FeedAll(FRESH, chunks).done
  {
    var s, w := FeedAll(FRESH, chunks[..k]), Flatten(chunks[..k]);
    After(chunks, k);
    assert !s.done;
    StuckIff(s, w);
    StaysSo(s, chunks[k..]);
    FeedAllSplit(FRESH, chunks, k);
  }

  lemma OneMore(chunks: seq<seq<byte>>, k: nat)
    requires k < |chunks|
    ensures FeedAll(FRESH, chunks) == FeedAll(Feed(FeedAll(FRESH, chunks[..k]), chunks[k]), chunks[k + 1..])
  {
    FeedAllSplit(FRESH, chunks, k);
    assert chunks[k..][0] == chunks[k] && chunks[k..][1..] == chunks[k + 1..];
  }

  /** An open tap with a full buffer got stuck at some boundary between two chunks. */
  lemma OpenWasStuck(chunks: seq<seq<byte>>) returns (k: nat)
    requires |Flatten(chunks)| >= SCAN_LIMIT && !FeedAll(FRESH, chunks).done
    ensures k <= |chunks| && Stuck(Flatten(chunks[..k]))
  {
    assert chunks[..|chunks|] == chunks;
    k := FillingChunk(chunks, |chunks|);
    var s, w := FeedAll(FRESH, chunks[..k]), Flatten(chunks[..k]);
    After(chunks, k);
    OneMore(chunks, k);
    StaysSo(Feed(s, chunks[k]), chunks[k + 1..]);
    if s.need <= SCAN_LIMIT {
      FullScanStops(s, w, chunks[k]);
    } else {
      StuckIff(s, w);
    }
  }

  /** After 16 KiB the tap is still open if and only if some boundary between two chunks, before that, came after
      the identification line and a packet header that asks for more than 16 KiB. */
  lemma OpenIff(chunks: seq<seq<byte>>)
    requires |Window(Flatten(chunks))| == SCAN_LIMIT
    ensures !FeedAll(FRESH, chunks).done <==> exists k: nat :: k <= |chunks| && Stuck(Flatten(chunks[..k]))
  {
    if !FeedAll(FRESH, chunks).done {
      var k := OpenWasStuck(chunks);
    } else {
      forall k: nat | k <= |chunks| ensures !Stuck(Flatten(chunks[..k])) {
        if Stuck(Flatten(chunks[..k])) { StuckStaysOpen(chunks, k); }
      }
    }
  }

  /** Before 16 KiB the tap is open if and only if the scan is not final. */
  lemma OpenBefore(chunks: seq<seq<byte>>)
    requires |Flatten(chunks)| < SCAN_LIMIT
    ensures !FeedAll(FRESH, chunks).done <==> !ScanFrom(Flatten(chunks), 0).done
  {
    StopsWhenFinal(chunks);
  }

  // ---- such a stream ----

  /** An identification line and the header of a packet of 16384 bytes. */
  const OPENING: seq<byte> := SSH_DASH + [NEWLINE] + [0, 0, 0x40, 0, 0, MSG_KEXINIT]

  lemma OpeningIsStuck()
    ensures Stuck(OPENING)
  {
    var buf := OPENING;
    assert FirstAt(buf, NEWLINE, 0, 4);
    assert buf[0..4] == SSH_DASH;
    assert Lines(buf, 0) == Ident(0, 5);
    assert BigEndian32(buf, 5) == SCAN_LIMIT;
  }

  /** The same 16 KiB leave the tap open in two chunks and stop it in one. */
  lemma ChunkingDecides(fill: seq<byte>)
    requires |OPENING + fill| >= SCAN_LIMIT
    ensures !FeedAll(FRESH, [OPENING, fill]).done && FeedAll(FRESH, [OPENING + fill]).done
  {
    var two, one := [OPENING, fill], [OPENING + fill];
    OpeningIsStuck();
    FirstChunk(OPENING, fill);
    StuckStaysOpen(two, 1);
    OnePiece(OPENING + fill);
  }

  lemma FirstChunk(a: seq<byte>, b: seq<byte>)
    ensures Flatten([a, b][..1]) == a
  {
    assert [a, b][..1] == [a] && [a][1..] == [];
    assert Flatten([a]) == a + Flatten([a][1..]);
  }

  lemma OnePiece(a: seq<byte>)
    requires |a| >= SCAN_LIMIT
    ensures FeedAll(FRESH, [a]).done
  {
    FreshTracks();
    assert [] + a == a;
    FullScanStops(FRESH, [], a);
    assert [a][1..] == [];
  }
}
