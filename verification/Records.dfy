/** The Fake TLS record layer: the framing writer and the buffered reader. */
module Records {
  import opened Units
  import opened Bytes

  const CCS: byte := 0x14
  const APP_DATA: byte := 0x17
  const RECORD_MAX: nat := 16384

  // ---------------------------------------------------------------------------------------------------------------
  // Records on the wire
  // ---------------------------------------------------------------------------------------------------------------

  /** A record; the reader does not look at the version bytes. */
  datatype Record = Record(kind: byte, major: byte, minor: byte, body: seq<byte>) {
    predicate Fits() {
      |body| < 0x10000
    }

    function Encode(): seq<byte> {
      [kind, major, minor] + PutBe16(|body|) + body
    }
  }

  function EncodeAll(records: seq<Record>): seq<byte> {
    if records == [] then [] else records[0].Encode() + EncodeAll(records[1..])
  }

  /** Why a read fails: the peer is done, or the stream broke off inside a header or a body. */
  datatype ReadError = Eof | UnexpectedEof

  /** The payloads a stream of bytes carries, and the error that follows them. */
  datatype Scanned = Scanned(payloads: seq<seq<byte>>, err: ReadError)

  function Broken(got: seq<byte>): ReadError {
    if got == [] then Eof else UnexpectedEof
  }

  function Scan(wire: seq<byte>): Scanned
    decreases |wire|
  {
    if |wire| < 5 then Scanned([], Broken(wire)) else
    var n, rest := Be16(wire[3], wire[4]), wire[5..];
    if wire[0] == CCS then
      if |rest| < n then Scanned([], Eof) else Scan(rest[n..])
    else if wire[0] != APP_DATA then Scanned([], Eof)
    else if n == 0 then Scan(rest)
    else if |rest| < n then Scanned([], Broken(rest))
    else
      var s := Scan(rest[n..]);
      s.(payloads := [rest[..n]] + s.payloads)
  }

  lemma EncodeParts(r: Record, tail: seq<byte>)
    requires r.Fits()
    ensures var w := r.Encode() + tail;
      && |w| >= 5 && w[0] == r.kind && Be16(w[3], w[4]) == |r.body|
      && |w[5..]| >= |r.body| && w[5..][..|r.body|] == r.body && w[5..][|r.body|..] == tail
  {
    var w := r.Encode() + tail;
    assert w[5..] == r.body + tail;
  }

  /** The bodies that count: those of application data, unless empty. */
  function Payloads(records: seq<Record>): seq<seq<byte>> {
    if records == [] then []
    else
      (if records[0].kind == APP_DATA && records[0].body != [] then [records[0].body] else []) + Payloads(records[1..])
  }

  predicate Carried(r: Record) {
    r.Fits() && (r.kind == CCS || r.kind == APP_DATA)
  }

  /** Any sequence of application data and change-cipher-spec records scans to its non-empty application data, and the
      scan goes on behind it. */
  lemma {:induction false} ScanRecords(records: seq<Record>, tail: seq<byte>)
    requires forall r :: r in records ==> Carried(r)
    ensures Scan(EncodeAll(records) + tail) == Scanned(Payloads(records) + Scan(tail).payloads, Scan(tail).err)
  {
    if records == [] {
      NoFront(tail);
      NoFront(Scan(tail).payloads);
    } else {
      var r, rest := records[0], records[1..];
      assert r in records;
      assert forall q :: q in rest ==> q in records;
      ScanRecords(rest, tail);
      Assoc(r.Encode(), EncodeAll(rest), tail);
      ScanOne(r, EncodeAll(rest) + tail);
      Assoc(if r.kind == APP_DATA && r.body != [] then [r.body] else [], Payloads(rest), Scan(tail).payloads);
    }
  }

  lemma ScanOne(r: Record, tail: seq<byte>)
    requires Carried(r)
    ensures Scan(r.Encode() + tail)
         == Scanned((if r.kind == APP_DATA && r.body != [] then [r.body] else []) + Scan(tail).payloads, Scan(tail).err)
  {
    EncodeParts(r, tail);
    NoFront(Scan(tail).payloads);
    if r.body == [] {
      assert (r.Encode() + tail)[5..] == tail;
    }
  }

  /** The records that a stream starts with, as long as they are complete and carried, and what follows. */
  function Decode(wire: seq<byte>): (seq<Record>, seq<byte>)
    decreases |wire|
  {
    if |wire| < 5 then ([], wire) else
    var n, rest := Be16(wire[3], wire[4]), wire[5..];
    if (wire[0] != CCS && wire[0] != APP_DATA) || |rest| < n then ([], wire) else
    var (more, tail) := Decode(rest[n..]);
    ([Record(wire[0], wire[1], wire[2], rest[..n])] + more, tail)
  }

  /** Every stream is such a sequence of records followed by something that starts with none, such as a record of any
      other type, and delivers nothing more, whatever is in it. */
  lemma {:induction false} DecodeComplete(wire: seq<byte>)
    ensures var (records, tail) := Decode(wire);
      && EncodeAll(records) + tail == wire
      && (forall r :: r in records ==> Carried(r))
      && Decode(tail).0 == [] && Scan(tail).payloads == []
    decreases |wire|
  {
    if |wire| < 5 || (wire[0] != CCS && wire[0] != APP_DATA) || |wire[5..]| < Be16(wire[3], wire[4]) {
      NoFront(wire);
    } else {
      var n, rest := Be16(wire[3], wire[4]), wire[5..];
      DecodeComplete(rest[n..]);
      var r := Record(wire[0], wire[1], wire[2], rest[..n]);
      var (more, tail) := Decode(rest[n..]);
      EncodeHeader(wire, n);
      Assoc(r.Encode(), EncodeAll(more), tail);
      assert ([r] + more)[1..] == more;
    }
  }

  lemma EncodeHeader(wire: seq<byte>, n: nat)
    requires |wire| >= 5 + n && n == Be16(wire[3], wire[4])
    ensures Record(wire[0], wire[1], wire[2], wire[5..][..n]).Encode() + wire[5..][n..] == wire
  {
    PutBe16Be16(wire[3], wire[4]);
    var head, rest := [wire[0], wire[1], wire[2]] + [wire[3], wire[4]], wire[5..];
    assert wire == head + rest;
    assert rest == rest[..n] + rest[n..];
    Assoc(head, rest[..n], rest[n..]);
  }

  // ---------------------------------------------------------------------------------------------------------------
  // Writing
  // ---------------------------------------------------------------------------------------------------------------

  function Chunks(data: seq<byte>): seq<seq<byte>> {
    if data == [] then []
    else [data[..Min(|data|, RECORD_MAX)]] + Chunks(data[Min(|data|, RECORD_MAX)..])
  }

  function Frame(chunk: seq<byte>): Record {
    Record(APP_DATA, 3, 3, chunk)
  }

  function Frames(chunks: seq<seq<byte>>): (r: seq<Record>)
    ensures |r| == |chunks| && forall i :: 0 <= i < |r| ==> r[i] == Frame(chunks[i])
  {
    seq(|chunks|, i requires 0 <= i < |chunks| => Frame(chunks[i]))
  }

  function Wrapped(data: seq<byte>): seq<byte> {
    EncodeAll(Frames(Chunks(data)))
  }

  lemma {:induction false} ChunksCover(data: seq<byte>)
    ensures Concat(Chunks(data)) == data
    ensures forall c :: c in Chunks(data) ==> 0 < |c| <= RECORD_MAX
    ensures |Chunks(data)| == (|data| + RECORD_MAX - 1) / RECORD_MAX
    decreases |data|
  {
    if data == [] {
    } else {
      var n := Min(|data|, RECORD_MAX);
      ChunksCover(data[n..]);
      ConcatCons(data[..n], Chunks(data[n..]));
      if |data| > RECORD_MAX {
        assert |data| + RECORD_MAX - 1 == |data[n..]| + RECORD_MAX - 1 + RECORD_MAX;
      }
    }
  }

  lemma {:induction false} EncodeSize(chunks: seq<seq<byte>>)
    ensures |EncodeAll(Frames(chunks))| == |Concat(chunks)| + 5 * |chunks|
  {
    if chunks == [] {
    } else {
      assert Frames(chunks)[1..] == Frames(chunks[1..]);
      EncodeSize(chunks[1..]);
    }
  }

  /** The framed size, and that the preallocated capacity suffices. */
  lemma WrappedSize(data: seq<byte>)
    ensures |Wrapped(data)| == |data| + 5 * ((|data| + RECORD_MAX - 1) / RECORD_MAX)
    ensures |Wrapped(data)| <= |data| + (|data| / RECORD_MAX + 1) * 5
  {
    ChunksCover(data);
    EncodeSize(Chunks(data));
    CeilBound(|data|);
  }

  lemma CeilBound(n: nat)
    ensures (n + RECORD_MAX - 1) / RECORD_MAX <= n / RECORD_MAX + 1
  {
  }

  lemma {:induction false} FramesPayloads(chunks: seq<seq<byte>>)
    requires forall c :: c in chunks ==> 0 < |c| <= RECORD_MAX
    ensures Payloads(Frames(chunks)) == chunks
    ensures forall r :: r in Frames(chunks) ==> Carried(r)
  {
    if chunks == [] {
    } else {
      assert chunks[0] in chunks;
      assert forall c :: c in chunks[1..] ==> c in chunks;
      FramesPayloads(chunks[1..]);
      assert Frames(chunks)[1..] == Frames(chunks[1..]);
      assert forall r :: r in Frames(chunks) ==> r == Frames(chunks)[0] || r in Frames(chunks)[1..];
    }
  }

  lemma WrapStep(data: seq<byte>, n: nat)
    requires data != [] && n == Min(|data|, RECORD_MAX)
    ensures Wrapped(data) == Frame(data[..n]).Encode() + Wrapped(data[n..])
  {
    var chunks := Chunks(data);
    assert chunks == [data[..n]] + Chunks(data[n..]);
    assert Frames(chunks)[1..] == Frames(Chunks(data[n..]));
  }

  /** wrapFakeTLSRecords: appends a header with an empty length, patches the length in, appends the chunk. */
  method WrapRecords(input: seq<byte>) returns (out: seq<byte>)
    ensures out == Wrapped(input)
  {
    var data := input;
    out := [];
    while |data| > 0
      invariant out + Wrapped(data) == Wrapped(input)
      decreases |data|
    {
      var chunk := data;
      if |chunk| > RECORD_MAX {
        chunk := chunk[..RECORD_MAX];
      }
      WrapStep(data, |chunk|);
      assert data[..|chunk|] == chunk;
      ghost var before := out;
      out := out + [APP_DATA, 0x03, 0x03, 0x00, 0x00];
      var size := PutBe16(|chunk|);
      out := out[|out| - 2 := size[0]][|out| - 1 := size[1]];
      out := out + chunk;
      assert out == before + Frame(chunk).Encode();
      data := data[|chunk|..];
      Assoc(before, Frame(chunk).Encode(), Wrapped(data));
    }
    assert out + [] == out;
  }

  // ---------------------------------------------------------------------------------------------------------------
  // The connection
  // ---------------------------------------------------------------------------------------------------------------

  class FakeTlsConn {
    /** What the raw connection will still yield, and what was written to it. */
    var wire: seq<byte>
    var written: seq<byte>
    var readBuf: seq<byte>

    constructor (wire: seq<byte>)
      ensures this.wire == wire && written == [] && readBuf == []
    {
      this.wire, written, readBuf := wire, [], [];
    }

    /** What reads have yet to deliver. */
    ghost function Pending(): seq<byte>
      reads this
    {
      readBuf + Concat(Scan(wire).payloads)
    }

    method ReadPayload() returns (data: seq<byte>, err: Option<ReadError>)
      modifies this`wire
      ensures var s := old(Scan(wire));
        if s.payloads == [] then err == Some(s.err) && data == []
        else err == None && [data] + Scan(wire).payloads == s.payloads && Scan(wire).err == s.err && data != []
    {
      data := [];
      while true
        invariant Scan(wire) == old(Scan(wire)) && data == []
        decreases |wire|
      {
        if |wire| < 5 {
          return [], Some(if wire == [] then Eof else UnexpectedEof);
        }
        var recType, recLen := wire[0], Be16(wire[3], wire[4]);
        var rest := wire[5..];
        if recType == CCS {
          if |rest| < recLen {
            wire := [];
            return [], Some(Eof);
          }
          wire := rest[recLen..];
          continue;
        }
        if recType != APP_DATA {
          wire := rest;
          return [], Some(Eof);
        }
        if recLen == 0 {
          wire := rest;
          continue;
        }
        if |rest| < recLen {
          wire := [];
          return [], Some(if rest == [] then Eof else UnexpectedEof);
        }
        data := rest[..recLen];
        wire := rest[recLen..];
        return data, None;
      }
    }

    /** One read delivers the next pending bytes, at least one; only when there are none does it fail. */
    method Read(p: array<byte>) returns (n: nat, err: Option<ReadError>)
      modifies this, p
      ensures n <= p.Length && written == old(written)
      ensures p.Length == 0 ==> n == 0 && err == None && (wire, readBuf) == old((wire, readBuf))
      ensures p.Length > 0 && old(Pending()) != [] ==> (
        && err == None && n > 0
        && p[..n] + Pending() == old(Pending()) && Scan(wire).err == old(Scan(wire).err))
      ensures p.Length > 0 && old(Pending()) == [] ==> n == 0 && err == Some(old(Scan(wire).err))
    {
      if p.Length == 0 {
        return 0, None;
      }
      if |readBuf| > 0 {
        n := Fill(p, readBuf);
        CutRejoins(readBuf, n, Concat(Scan(wire).payloads));
        readBuf := readBuf[n..];
        return n, None;
      }
      NoFront(Concat(Scan(wire).payloads));
      n, err := ReadFresh(p);
    }

    /** The part of Read that goes to the wire. */
    method ReadFresh(p: array<byte>) returns (n: nat, err: Option<ReadError>)
      requires p.Length > 0 && readBuf == []
      modifies this, p
      ensures n <= p.Length && written == old(written)
      ensures var s := old(Scan(wire));
        if s.payloads == [] then n == 0 && err == Some(s.err)
        else
          && err == None && n > 0 && p[..n] + Pending() == Concat(s.payloads) && Concat(s.payloads) != []
          && Scan(wire).err == s.err
    {
      var payload;
      payload, err := ReadPayload();
      if err.Some? {
        return 0, err;
      }
      ghost var rest := Scan(wire).payloads;
      ConcatCons(payload, rest);
      assert old(Scan(wire)).payloads == [payload] + rest;
      if |payload| > p.Length {
        n := Fill(p, payload[..p.Length]);
        readBuf := payload[p.Length..];
      } else {
        n := Fill(p, payload);
      }
      assert p[..n] == payload[..n] && readBuf == payload[n..];
      CutRejoins(payload, n, Concat(rest));
    }

    method Write(p: seq<byte>, ok: bool, reached: nat) returns (n: nat)
      modifies this`written
      ensures written == old(written) + if ok then Wrapped(p) else Wrapped(p)[..Min(reached, |Wrapped(p)|)]
      ensures n == if ok then |p| else 0
    {
      if |p| == 0 {
        return 0;
      }
      var framed := WrapRecords(p);
      if !ok {
        written := written + framed[..Min(reached, |framed|)];
        return 0;
      }
      written := written + framed;
      return |p|;
    }
  }

  lemma CutRejoins(s: seq<byte>, n: nat, tail: seq<byte>)
    requires n <= |s|
    ensures s[..n] + (s[n..] + tail) == s + tail
  {
  }

  method Fill(p: array<byte>, s: seq<byte>) returns (n: nat)
    modifies p
    ensures n == Min(p.Length, |s|) && p[..n] == s[..n]
  {
    n := Min(p.Length, |s|);
    for i := 0 to n
      invariant p[..i] == s[..i]
    {
      p[i] := s[i];
    }
  }

  /** Reads with buffers of any positive sizes until one fails: together they deliver every pending byte, in order. */
  method Drain(conn: FakeTlsConn, sizes: nat -> nat) returns (got: seq<byte>, err: ReadError)
    requires forall i :: sizes(i) > 0
    modifies conn
    ensures got == old(conn.Pending()) && err == old(Scan(conn.wire).err)
  {
    got := [];
    NoFront(conn.Pending());
    var round := 0;
    while true
      invariant got + conn.Pending() == old(conn.Pending())
      invariant Scan(conn.wire).err == old(Scan(conn.wire).err)
      decreases |conn.Pending()|
    {
      var p := new byte[sizes(round)];
      ghost var due := conn.Pending();
      var n, e := conn.Read(p);
      if e.Some? {
        assert got + [] == got;
        return got, e.value;
      }
      Assoc(got, p[..n], conn.Pending());
      got := got + p[..n];
      round := round + 1;
    }
  }

  /** What a peer puts on the wire: the records of one write, or a record that carries nothing. */
  datatype Item = Written(data: seq<byte>) | Noise(record: Record)

  predicate Harmless(r: Record) {
    r.Fits() && (r.kind == CCS || (r.kind == APP_DATA && r.body == []))
  }

  function Wire(items: seq<Item>): seq<byte> {
    if items == [] then []
    else (match items[0] case Written(data) => Wrapped(data) case Noise(r) => r.Encode()) + Wire(items[1..])
  }

  function AllWritten(items: seq<Item>): seq<byte> {
    if items == [] then []
    else (match items[0] case Written(data) => data case Noise(_) => []) + AllWritten(items[1..])
  }

  /** Whatever was written, in whatever pieces and with whatever harmless records in between, is what is pending. */
  lemma {:induction false} WireDelivers(items: seq<Item>)
    requires forall i :: 0 <= i < |items| && items[i].Noise? ==> Harmless(items[i].record)
    ensures Concat(Scan(Wire(items)).payloads) == AllWritten(items) && Scan(Wire(items)).err == Eof
  {
    if items == [] {
    } else {
      var rest := items[1..];
      assert forall i :: 0 <= i < |rest| ==> rest[i] == items[i + 1];
      WireDelivers(rest);
      var s := Scan(Wire(rest));
      match items[0]
      case Written(data) =>
        ScanWrapped(data, Wire(rest));
      case Noise(r) =>
        ScanOne(r, Wire(rest));
        NoFront(s.payloads);
        NoFront(Concat(s.payloads));
    }
  }

  lemma ScanWrapped(data: seq<byte>, tail: seq<byte>)
    ensures var s := Scan(Wrapped(data) + tail);
      s.err == Scan(tail).err && Concat(s.payloads) == data + Concat(Scan(tail).payloads)
  {
    ChunksCover(data);
    FramesPayloads(Chunks(data));
    ScanRecords(Frames(Chunks(data)), tail);
    ConcatAppend(Chunks(data), Scan(tail).payloads);
  }

  /** Writer to reader: for all writes, all harmless records between them and all positive read sizes, the reader gets
      exactly the bytes written, in order, and then the end of the stream. */
  method Deliver(items: seq<Item>, sizes: nat -> nat) returns (got: seq<byte>, err: ReadError)
    requires forall i :: 0 <= i < |items| && items[i].Noise? ==> Harmless(items[i].record)
    requires forall i :: sizes(i) > 0
    ensures got == AllWritten(items) && err == Eof
  {
    var sender := new FakeTlsConn([]);
    for i := 0 to |items|
      invariant sender.written + Wire(items[i..]) == Wire(items)
    {
      ghost var before := sender.written;
      match items[i] {
        case Written(data) =>
          var _ := sender.Write(data, true, 0);
        case Noise(r) =>
          sender.written := sender.written + r.Encode();
      }
      assert items[i..][1..] == items[i + 1..];
      Assoc(before, sender.written[|before|..], Wire(items[i + 1..]));
    }
    assert sender.written + [] == sender.written;
    WireDelivers(items);
    var receiver := new FakeTlsConn(sender.written);
    NoFront(AllWritten(items));
    got, err := Drain(receiver, sizes);
  }
}
