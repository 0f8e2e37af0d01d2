/** The capture of the first TLS record, whatever pieces it arrives in. */
module HelloCapture {
  import opened Bytes

  const MAX_RECORD := 16 * 1024 + 5

  /** What is buffered of the record and whether the capture is over. */
  datatype Capture = Capture(buf: seq<byte>, done: bool)

  const FRESH := Capture([], false)

  function Need(buf: seq<byte>): nat
    requires |buf| >= 5
  {
    var high: int := buf[3];
    5 + high * 0x100 + buf[4]
  }

  function Window(s: seq<byte>): seq<byte> {
    if |s| > MAX_RECORD then s[..MAX_RECORD] else s
  }

  /** The capture of a stream seen at once: its first record, if that is a handshake record that fits. */
  function Captured(s: seq<byte>): Capture {
    var w := Window(s);
    if |w| < 5 then Capture(w, false)
    else if w[0] != 0x16 || Need(w) > MAX_RECORD then Capture([], true)
    else if |w| >= Need(w) then Capture(w[..Need(w)], true)
    else Capture(w, false)
  }

  function Fed(c: Capture, p: seq<byte>): Capture {
    if c.done then c else Captured(c.buf + p)
  }

  function FedAll(c: Capture, chunks: seq<seq<byte>>): Capture
    decreases |chunks|
  {
    if chunks == [] then c else FedAll(Fed(c, chunks[0]), chunks[1..])
  }

  class HelloConn {
    var buf: seq<byte>
    var done: bool

    constructor ()
      ensures Capture(buf, done) == FRESH
    {
      buf, done := [], false;
    }

    /** A read of the connection, copied until the capture is over. */
    method Read(bytes: seq<byte>)
      requires |buf| <= MAX_RECORD
      modifies this
      ensures |buf| <= MAX_RECORD && Capture(buf, done) == Fed(Capture(old(buf), old(done)), bytes)
    {
      if done {
        return;
      }
      var p, room := bytes, MAX_RECORD - |buf|;
      if |p| > room {
        p := p[..room];
      }
      assert buf + p == Window(buf + bytes);
      buf := buf + p;
      if |buf| < 5 {
        return;
      }
      var need := Need(buf);
      if buf[0] != 0x16 || need > MAX_RECORD {
        done, buf := true, [];
        return;
      }
      if |buf| >= need {
        done := true;
        buf := buf[..need];
      }
    }
  }

  /** More bytes continue an open capture and leave a finished one. */
  lemma CaptureResumes(s: seq<byte>, p: seq<byte>)
    ensures Captured(s + p) == Fed(Captured(s), p)
  {
    var w, v := Window(s), Window(s + p);
    assert w <= v;
    if Captured(s).done {
      if Captured(s).buf != [] {
        assert v[..Need(w)] == w[..Need(w)];
      }
    } else {
      assert Captured(s).buf == w && (|s| > MAX_RECORD ==> w == v);
      assert Window(w + p) == v;
    }
  }

  lemma {:induction false} FedAllIs(s: seq<byte>, chunks: seq<seq<byte>>)
    ensures FedAll(Captured(s), chunks) == Captured(s + Flatten(chunks))
    decreases |chunks|
  {
    if chunks == [] {
      assert s + Flatten(chunks) == s;
    } else {
      CaptureResumes(s, chunks[0]);
      FedAllIs(s + chunks[0], chunks[1..]);
      assert s + chunks[0] + Flatten(chunks[1..]) == s + Flatten(chunks);
    }
  }

  /** Any chunking of a stream captures what the whole stream would. */
  lemma AnyChunking(chunks: seq<seq<byte>>)
    ensures FedAll(FRESH, chunks) == Captured(Flatten(chunks))
  {
    FedAllIs([], chunks);
    assert [] + Flatten(chunks) == Flatten(chunks);
  }

  // ---- what is captured ----

  /** A handshake record: its type, two version bytes, the length of the body and the body, at most 16 KiB. */
  predicate IsHandshake(record: seq<byte>) {
    |record| >= 5 && record[0] == 22 && |record| - 5 == record[3] as int * 256 + record[4] as int && |record| - 5 <= 16384
  }

  /** The stream cannot start with one. */
  predicate Hopeless(stream: seq<byte>) {
    |stream| >= 5 && (stream[0] != 22 || stream[3] as int * 256 + stream[4] as int > 16384)
  }

  lemma WholeIff(stream: seq<byte>, record: seq<byte>)
    requires record != []
    ensures Captured(stream) == Capture(record, true) <==> record <= stream && IsHandshake(record)
  {
    var w := Window(stream);
    assert w <= stream;
    if Captured(stream) == Capture(record, true) {
      assert record == w[..Need(w)] && Need(record) == Need(w);
    }
    if record <= stream && IsHandshake(record) {
      assert |record| <= MAX_RECORD && record == w[..|record|] && Need(w) == |record|;
    }
  }

  /** In any chunks the capture ends with a record if and only if the stream starts with that handshake record, and
      without one if and only if it cannot; until then everything is kept. */
  lemma CapturedIff(chunks: seq<seq<byte>>, record: seq<byte>)
    requires record != []
    ensures var c, stream := FedAll(FRESH, chunks), Flatten(chunks);
      && (c == Capture(record, true) <==> record <= stream && IsHandshake(record))
      && (c == Capture([], true) <==> Hopeless(stream))
      && (!c.done ==> c.buf == stream)
  {
    AnyChunking(chunks);
    WholeIff(Flatten(chunks), record);
    OpenKeeps(Flatten(chunks));
  }

  lemma OpenKeeps(stream: seq<byte>)
    ensures Captured(stream) == Capture([], true) <==> Hopeless(stream)
    ensures !Captured(stream).done ==> Captured(stream).buf == stream
  {
    var w := Window(stream);
    assert |stream| >= 5 ==> w[0] == stream[0] && w[3] == stream[3] && w[4] == stream[4];
  }
}
