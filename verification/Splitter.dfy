/** The packet splitter: cuts a byte stream that arrives in arbitrary chunks into MTProto packets. */
module Splitter {
  import opened Bytes

  const ABRIDGED: int := 0xEFEFEFEF
  const INTERMEDIATE: int := 0xEEEEEEEE
  const PADDED: int := 0xDDDDDDDD

  const MAX_PACKET: nat := 8 * 1024 * 1024

  // ---------------------------------------------------------------------------------------------------------------
  // Packet headers
  // ---------------------------------------------------------------------------------------------------------------

  function NextAbridgedLen(buf: seq<byte>): int
    requires buf != []
  {
    var long := buf[0] == 0x7F || buf[0] == 0xFF;
    if long && |buf| < 4 then -1 else
    var headerLen := if long then 4 else 1;
    var payloadLen := if long then Le24(buf[1], buf[2], buf[3]) * 4 else buf[0] as int % 0x80 * 4;
    if payloadLen <= 0 then 0
    else if headerLen + payloadLen > MAX_PACKET then 0
    else if |buf| < headerLen + payloadLen then -1
    else headerLen + payloadLen
  }

  /** The top bit of the length is not part of it. */
  function NextIntermediateLen(buf: seq<byte>): int {
    if |buf| < 4 then -1 else
    var payloadLen := Le32(buf[0], buf[1], buf[2], buf[3] as int % 0x80);
    if payloadLen == 0 || payloadLen > MAX_PACKET - 4 then 0
    else if |buf| < 4 + payloadLen then -1
    else 4 + payloadLen
  }

  /** The length of the packet at the front of `buf`; 0 for a header that no packet can have, -1 to wait for more. */
  function NextPacketLen(proto: int, buf: seq<byte>): int {
    if buf == [] then -1
    else if proto == ABRIDGED then NextAbridgedLen(buf)
    else if proto == INTERMEDIATE || proto == PADDED then NextIntermediateLen(buf)
    else 0
  }

  lemma NextBounds(proto: int, buf: seq<byte>)
    ensures -1 <= NextPacketLen(proto, buf) <= MAX_PACKET
    ensures NextPacketLen(proto, buf) <= |buf|
  {
  }

  /** A verdict about a header is final: later bytes do not change it. */
  lemma NextStable(proto: int, buf: seq<byte>, more: seq<byte>)
    requires NextPacketLen(proto, buf) >= 0
    ensures NextPacketLen(proto, buf + more) == NextPacketLen(proto, buf)
  {
  }

  /** While the verdict is out, the packet in question is longer than what has arrived. */
  lemma NextPending(proto: int, buf: seq<byte>, more: seq<byte>)
    requires NextPacketLen(proto, buf) < 0
    ensures NextPacketLen(proto, buf + more) <= 0 || NextPacketLen(proto, buf + more) > |buf|
  {
  }

  // ---------------------------------------------------------------------------------------------------------------
  // The reference: parsing a whole stream
  // ---------------------------------------------------------------------------------------------------------------

  /** The packets of a stream, what follows the last of them, and whether that begins with an impossible header. */
  datatype Parsed = Parsed(packets: seq<seq<byte>>, rest: seq<byte>, bad: bool)

  function Prepend(packets: seq<seq<byte>>, p: Parsed): Parsed {
    p.(packets := packets + p.packets)
  }

  function Parse(proto: int, s: seq<byte>): Parsed
    decreases |s|
  {
    if s == [] then Parsed([], [], false) else
    var n := NextPacketLen(proto, s);
    if n < 0 then Parsed([], s, false)
    else if n == 0 then Parsed([], s, true)
    else (NextBounds(proto, s); Prepend([s[..n]], Parse(proto, s[n..])))
  }

  lemma ParseStep(proto: int, s: seq<byte>, n: nat)
    requires NextPacketLen(proto, s) == n > 0
    ensures n <= |s| && Parse(proto, s) == Prepend([s[..n]], Parse(proto, s[n..]))
  {
    NextBounds(proto, s);
  }

  ghost predicate Conserves(proto: int, s: seq<byte>, p: Parsed) {
    && Concat(p.packets) + p.rest == s
    && (p.bad ==> p.rest != [] && NextPacketLen(proto, p.rest) == 0)
    && (!p.bad ==> NextPacketLen(proto, p.rest) < 0)
  }

  /** The reference parse keeps every byte, and stops only where it has to. */
  lemma {:induction false} ParseConserves(proto: int, s: seq<byte>)
    ensures Conserves(proto, s, Parse(proto, s))
    decreases |s|
  {
    var n := NextPacketLen(proto, s);
    if n > 0 {
      ParseStep(proto, s, n);
      ParseConserves(proto, s[n..]);
      ConservesMore(proto, s, n, Parse(proto, s[n..]));
    } else {
      NoFront(s);
    }
  }

  lemma ConservesMore(proto: int, s: seq<byte>, n: nat, p: Parsed)
    requires n <= |s| && Conserves(proto, s[n..], p)
    ensures Conserves(proto, s, Prepend([s[..n]], p))
  {
    ConcatCons(s[..n], p.packets);
    Assoc(s[..n], Concat(p.packets), p.rest);
    assert s == s[..n] + s[n..];
  }

  /** Resuming a parse after `t` has arrived. */
  function Resume(proto: int, p: Parsed, t: seq<byte>): Parsed {
    if p.bad then Parsed(p.packets, p.rest + t, true) else Prepend(p.packets, Parse(proto, p.rest + t))
  }

  lemma ResumePrepend(proto: int, packets: seq<seq<byte>>, p: Parsed, t: seq<byte>)
    ensures Resume(proto, Prepend(packets, p), t) == Prepend(packets, Resume(proto, p, t))
  {
    Assoc(packets, p.packets, Parse(proto, p.rest + t).packets);
  }

  /** Parsing can stop anywhere and resume from the unfinished packet. */
  lemma {:induction false} ParseAppend(proto: int, s: seq<byte>, t: seq<byte>)
    ensures Parse(proto, s + t) == Resume(proto, Parse(proto, s), t)
    decreases |s|
  {
    var n := NextPacketLen(proto, s);
    if n > 0 {
      ParseStep(proto, s, n);
      NextStable(proto, s, t);
      ParseStep(proto, s + t, n);
      CutFront(s, t, n);
      ParseAppend(proto, s[n..], t);
      ResumePrepend(proto, [s[..n]], Parse(proto, s[n..]), t);
    } else {
      ParseHead(proto, s, t);
    }
  }

  lemma ParseHead(proto: int, s: seq<byte>, t: seq<byte>)
    requires NextPacketLen(proto, s) <= 0
    ensures Parse(proto, s + t) == Resume(proto, Parse(proto, s), t)
  {
    if NextPacketLen(proto, s) == 0 {
      NextStable(proto, s, t);
    } else {
      NoFront(Parse(proto, s + t).packets);
    }
  }

  // ---------------------------------------------------------------------------------------------------------------
  // Packets as a client makes them
  // ---------------------------------------------------------------------------------------------------------------

  /** A payload, whether a quick acknowledgement is asked for, and whether the abridged header is a long one even where
      a short one would do. */
  datatype Packet = Packet(payload: seq<byte>, ack: bool, long: bool)

  function PutLe24(n: nat): (out: seq<byte>)
    ensures |out| == 3
  {
    [n % 0x100, n / 0x100 % 0x100, n / 0x10000 % 0x100]
  }

  /** The header of the abridged transport counts words, in one byte or in four; that of the intermediate ones counts
      bytes. The top bit of the length asks for the acknowledgement. */
  function Header(proto: int, p: Packet): seq<byte> {
    var n := |p.payload|;
    if proto == ABRIDGED then
      if n / 4 < 0x7F && !p.long then [n / 4 + if p.ack then 0x80 else 0]
      else [if p.ack then 0xFF else 0x7F] + PutLe24(n / 4)
    else PutLe24(n) + [n / 0x1000000 % 0x80 + if p.ack then 0x80 else 0]
  }

  function Encode(proto: int, p: Packet): seq<byte> {
    Header(proto, p) + p.payload
  }

  predicate Sendable(proto: int, p: Packet) {
    && p.payload != []
    && |Encode(proto, p)| <= MAX_PACKET
    && if proto == ABRIDGED then |p.payload| % 4 == 0 else proto == INTERMEDIATE || proto == PADDED
  }

  lemma PutLe24Reads(n: nat)
    requires n < 0x1000000
    ensures var b := PutLe24(n); b[0] as int + 0x100 * (b[1] as int) + 0x10000 * (b[2] as int) == n
    ensures var b := PutLe24(n); Le24(b[0], b[1], b[2]) == n
  {
    assert n / 0x100 / 0x100 == n / 0x10000;
  }

  lemma ShortAbridgedLen(words: nat, ack: bool, s: seq<byte>)
    requires 0 < words < 0x7F && |s| >= 1 + 4 * words && s[0] == words + if ack then 0x80 else 0
    ensures NextAbridgedLen(s) == 1 + 4 * words
  {
    assert s[0] as int % 0x80 == words;
  }

  lemma LongAbridgedLen(words: nat, s: seq<byte>)
    requires 0 < words && 4 + 4 * words <= MAX_PACKET && |s| >= 4 + 4 * words
    requires (s[0] == 0x7F || s[0] == 0xFF) && Le24(s[1], s[2], s[3]) == words
    ensures NextAbridgedLen(s) == 4 + 4 * words
  {
  }

  lemma IntermediateLen(n: nat, ack: bool, s: seq<byte>)
    requires n > 0 && 4 + n <= MAX_PACKET && |s| >= 4 + n
    requires Le24(s[0], s[1], s[2]) == n && s[3] == if ack then 0x80 else 0
    ensures NextIntermediateLen(s) == 4 + n
  {
    assert s[3] as int % 0x80 == 0;
  }

  lemma IntermediateHeader(proto: int, p: Packet)
    requires Sendable(proto, p) && proto != ABRIDGED
    ensures Header(proto, p) == PutLe24(|p.payload|) + [if p.ack then 0x80 else 0]
    ensures |p.payload| < 0x1000000
  {
    assert |p.payload| / 0x1000000 == 0;
  }

  lemma AbridgedHeader(p: Packet)
    requires Sendable(ABRIDGED, p)
    ensures var n := |p.payload| / 4;
      && 0 < n < 0x1000000 && 4 * n == |p.payload|
      && Header(ABRIDGED, p) == if n < 0x7F && !p.long then [n + if p.ack then 0x80 else 0]
                                else [if p.ack then 0xFF else 0x7F] + PutLe24(n)
  {
  }

  /** A packet is recognized whatever follows it. */
  lemma EncodedLen(proto: int, p: Packet, tail: seq<byte>)
    requires Sendable(proto, p)
    ensures NextPacketLen(proto, Encode(proto, p) + tail) == |Encode(proto, p)|
  {
    var n, h := |p.payload|, Header(proto, p);
    var s := h + (p.payload + tail);
    Assoc(h, p.payload, tail);
    if proto != ABRIDGED {
      IntermediateHeader(proto, p);
      PutLe24Reads(n);
      IntermediateLen(n, p.ack, s);
    } else {
      AbridgedHeader(p);
      if n / 4 < 0x7F && !p.long {
        ShortAbridgedLen(n / 4, p.ack, s);
      } else {
        PutLe24Reads(n / 4);
        LongAbridgedLen(n / 4, s);
      }
    }
  }

  lemma PutLe24Le24(a: byte, b: byte, c: byte)
    ensures PutLe24(Le24(a, b, c)) == [a, b, c]
  {
    var x := (b as int) + 0x100 * (c as int);
    assert Le24(a, b, c) == a as int + 0x100 * x;
    assert Le24(a, b, c) / 0x100 == x && Le24(a, b, c) / 0x10000 == x / 0x100;
  }

  lemma TopBit(b: byte)
    ensures b as int == b as int % 0x80 + if b >= 0x80 then 0x80 else 0
  {
  }

  lemma SmallLe32(a: byte, b: byte, c: byte, d: byte)
    requires Le32(a, b, c, d) < 0x1000000
    ensures d == 0 && Le32(a, b, c, d) == Le24(a, b, c)
  {
  }

  /** The packet that a recognized one is the encoding of. */
  function PacketOf(proto: int, s: seq<byte>, n: nat): Packet
    requires NextPacketLen(proto, s) == n > 0
  {
    NextBounds(proto, s);
    if proto != ABRIDGED then Packet(s[4..n], s[3] >= 0x80, false)
    else if s[0] == 0x7F || s[0] == 0xFF then Packet(s[4..n], s[0] == 0xFF, true)
    else Packet(s[1..n], s[0] >= 0x80, false)
  }

  lemma AbridgedIs(s: seq<byte>, n: nat)
    requires NextPacketLen(ABRIDGED, s) == n > 0
    ensures var p := PacketOf(ABRIDGED, s, n); Sendable(ABRIDGED, p) && Encode(ABRIDGED, p) == s[..n]
  {
    if s[0] == 0x7F || s[0] == 0xFF {
      PutLe24Le24(s[1], s[2], s[3]);
      assert |s[4..n]| / 4 == Le24(s[1], s[2], s[3]);
      assert s[..n] == [s[0]] + [s[1], s[2], s[3]] + s[4..n];
    } else {
      TopBit(s[0]);
      assert s[..n] == [s[0]] + s[1..n];
    }
  }

  lemma IntermediateFields(proto: int, s: seq<byte>, n: nat)
    requires proto != ABRIDGED && NextPacketLen(proto, s) == n > 0
    ensures proto == INTERMEDIATE || proto == PADDED
    ensures 4 < n <= MAX_PACKET && n <= |s| && n - 4 == Le24(s[0], s[1], s[2])
    ensures s[3] == if s[3] >= 0x80 then 0x80 else 0
  {
    SmallLe32(s[0], s[1], s[2], s[3] as int % 0x80);
    TopBit(s[3]);
  }

  lemma IntermediateIs(proto: int, s: seq<byte>, n: nat)
    requires proto != ABRIDGED && NextPacketLen(proto, s) == n > 0
    ensures var p := PacketOf(proto, s, n); Sendable(proto, p) && Encode(proto, p) == s[..n]
  {
    var p := PacketOf(proto, s, n);
    IntermediateFields(proto, s, n);
    MadeOf(proto, p, s[0], s[1], s[2], s[3]);
    assert s[..n] == [s[0], s[1], s[2], s[3]] + s[4..n];
  }

  lemma MadeOf(proto: int, p: Packet, a: byte, b: byte, c: byte, d: byte)
    requires (proto == INTERMEDIATE || proto == PADDED) && 0 < |p.payload| == Le24(a, b, c) <= MAX_PACKET - 4
    requires d == if p.ack then 0x80 else 0
    ensures Sendable(proto, p) && Encode(proto, p) == [a, b, c, d] + p.payload
  {
    PutLe24Le24(a, b, c);
    assert |p.payload| / 0x1000000 == 0;
    assert Header(proto, p) == [a, b, c] + [d];
  }

  /** `s` starts with an encoded packet of `n` bytes. */
  ghost predicate StartsWith(proto: int, s: seq<byte>, n: nat) {
    exists p :: Sendable(proto, p) && |Encode(proto, p)| == n && Encode(proto, p) <= s
  }

  /** What is taken for a packet of `n` bytes is an encoded packet of `n` bytes, with a payload; and every such one is
      taken for it. */
  lemma PacketExact(proto: int, s: seq<byte>, n: nat)
    requires n > 0
    ensures NextPacketLen(proto, s) == n <==> StartsWith(proto, s, n)
  {
    if NextPacketLen(proto, s) == n {
      NextBounds(proto, s);
      if proto == ABRIDGED {
        AbridgedIs(s, n);
      } else {
        IntermediateIs(proto, s, n);
      }
      assert Sendable(proto, PacketOf(proto, s, n)) && Encode(proto, PacketOf(proto, s, n)) == s[..n];
    }
    if StartsWith(proto, s, n) {
      var p :| Sendable(proto, p) && |Encode(proto, p)| == n && Encode(proto, p) <= s;
      assert s == Encode(proto, p) + s[n..];
      EncodedLen(proto, p, s[n..]);
    }
  }

  /** Nothing that could follow an impossible header makes a packet of it. */
  lemma NeverAPacket(proto: int, s: seq<byte>, more: seq<byte>, n: nat)
    requires NextPacketLen(proto, s) == 0
    ensures !StartsWith(proto, s + more, n)
  {
    NextStable(proto, s, more);
    if StartsWith(proto, s + more, n) {
      var p :| Sendable(proto, p) && |Encode(proto, p)| == n && Encode(proto, p) <= s + more;
      PacketExact(proto, s + more, n);
    }
  }

  predicate HeaderComplete(proto: int, s: seq<byte>) {
    |s| >= 4 || (proto == ABRIDGED && |s| >= 1 && s[0] != 0x7F && s[0] != 0xFF)
  }

  /** While a complete header is waited on, there is something that would make a packet of it. */
  lemma Unfinished(proto: int, s: seq<byte>) returns (more: seq<byte>)
    requires NextPacketLen(proto, s) < 0 && HeaderComplete(proto, s)
    ensures StartsWith(proto, s + more, |s + more|)
  {
    var length :=
      if proto != ABRIDGED then 4 + Le32(s[0], s[1], s[2], s[3] as int % 0x80)
      else if s[0] == 0x7F || s[0] == 0xFF then 4 + Le24(s[1], s[2], s[3]) * 4
      else 1 + s[0] as int % 0x80 * 4;
    more := seq(length - |s|, _ => 0);
    PacketExact(proto, s + more, length);
  }

  function EncodeAll(proto: int, ps: seq<Packet>): (out: seq<seq<byte>>)
    ensures |out| == |ps|
  {
    if ps == [] then [] else [Encode(proto, ps[0])] + EncodeAll(proto, ps[1..])
  }

  /** The reference parse of any packets in a row gives these packets back, and goes on with what follows. */
  lemma {:induction false} ParseEncoded(proto: int, ps: seq<Packet>, tail: seq<byte>)
    requires forall i :: 0 <= i < |ps| ==> Sendable(proto, ps[i])
    ensures Parse(proto, Concat(EncodeAll(proto, ps)) + tail) == Prepend(EncodeAll(proto, ps), Parse(proto, tail))
  {
    if ps == [] {
      NoFront(tail);
      NoFront(Parse(proto, tail).packets);
    } else {
      var first, rest := Encode(proto, ps[0]), ps[1..];
      var more := Concat(EncodeAll(proto, rest)) + tail;
      assert forall i :: 0 <= i < |rest| ==> rest[i] == ps[i + 1];
      ParseEncoded(proto, rest, tail);
      EncodedLen(proto, ps[0], more);
      ConcatCons(first, EncodeAll(proto, rest));
      Assoc(first, Concat(EncodeAll(proto, rest)), tail);
      ParseStep(proto, first + more, |first|);
      assert (first + more)[..|first|] == first && (first + more)[|first|..] == more;
      Assoc([first], EncodeAll(proto, rest), Parse(proto, tail).packets);
    }
  }

  // ---------------------------------------------------------------------------------------------------------------
  // The splitter on values
  // ---------------------------------------------------------------------------------------------------------------

  datatype State = State(proto: int, buf: seq<byte>, disabled: bool)

  function Fresh(proto: int): State {
    State(proto, [], false)
  }

  function NonEmpty(s: seq<byte>): seq<seq<byte>> {
    if s == [] then [] else [s]
  }

  /** The 8 MiB guard. */
  predicate Overflows(s: State, chunk: seq<byte>) {
    !s.disabled && |s.buf| + |chunk| > MAX_PACKET
  }

  function Split(s: State, chunk: seq<byte>): (seq<seq<byte>>, State) {
    if chunk == [] then ([], s)
    else if s.disabled then ([chunk], s)
    else if Overflows(s, chunk) then (NonEmpty(s.buf) + [chunk], s.(buf := [], disabled := true))
    else
      var p := Parse(s.proto, s.buf + chunk);
      if p.bad then (p.packets + [p.rest], s.(buf := [], disabled := true))
      else (p.packets, s.(buf := p.rest))
  }

  function Feed(s: State, chunks: seq<seq<byte>>): (seq<seq<byte>>, State)
    decreases |chunks|
  {
    if chunks == [] then ([], s) else
    var (parts, s1) := Split(s, chunks[0]);
    var (more, s2) := Feed(s1, chunks[1..]);
    (parts + more, s2)
  }

  /** What a splitter carries between calls. */
  predicate Waiting(s: State) {
    |s.buf| <= MAX_PACKET && if s.disabled then s.buf == [] else NextPacketLen(s.proto, s.buf) < 0
  }

  /** One call neither loses, invents nor reorders a byte, guard or no guard, and the buffer stays within 8 MiB. */
  lemma SplitConserves(s: State, chunk: seq<byte>)
    requires Waiting(s)
    ensures var (parts, s') := Split(s, chunk);
      Waiting(s') && Concat(parts) + s'.buf == s.buf + chunk
  {
    var (parts, s') := Split(s, chunk);
    ConcatOne(chunk);
    if chunk != [] && !s.disabled {
      if Overflows(s, chunk) {
        ConcatOne(s.buf);
        ConcatAppend(NonEmpty(s.buf), [chunk]);
      } else {
        var p := Parse(s.proto, s.buf + chunk);
        ParseConserves(s.proto, s.buf + chunk);
        ConcatOne(p.rest);
        ConcatAppend(p.packets, [p.rest]);
        assert |p.rest| <= |s.buf + chunk|;
      }
    }
  }

  /** The same over any number of calls. */
  lemma {:induction false} FeedConserves(s: State, chunks: seq<seq<byte>>)
    requires Waiting(s)
    ensures var (parts, s') := Feed(s, chunks);
      Waiting(s') && Concat(parts) + s'.buf == s.buf + Concat(chunks)
    decreases |chunks|
  {
    if chunks == [] {
    } else {
      var (parts, s1) := Split(s, chunks[0]);
      SplitConserves(s, chunks[0]);
      FeedConserves(s1, chunks[1..]);
      var (more, s2) := Feed(s1, chunks[1..]);
      ConcatAppend(parts, more);
      Assoc(Concat(parts), Concat(more), s2.buf);
      Assoc(Concat(parts), s1.buf, Concat(chunks[1..]));
      Assoc(s.buf, chunks[0], Concat(chunks[1..]));
    }
  }

  lemma {:induction false} FeedAppend(s: State, a: seq<seq<byte>>, b: seq<seq<byte>>)
    ensures var (p, s1) := Feed(s, a);
      var (q, s2) := Feed(s1, b);
      Feed(s, a + b) == (p + q, s2)
    decreases |a|
  {
    if a == [] {
      NoFront(b);
      NoFront(Feed(s, b).0);
    } else {
      var (parts, s0) := Split(s, a[0]);
      FeedAppend(s0, a[1..], b);
      assert (a + b)[1..] == a[1..] + b;
      var (p, s1) := Feed(s0, a[1..]);
      Assoc(parts, p, Feed(s1, b).0);
    }
  }

  // ---------------------------------------------------------------------------------------------------------------
  // Chunk independence
  // ---------------------------------------------------------------------------------------------------------------

  /** The output is what the reference parse prescribes: its packets one by one, and after an impossible header the
      remaining bytes in whatever pieces. */
  ghost predicate Matches(parts: seq<seq<byte>>, s: State, p: Parsed) {
    if p.bad then
      s.disabled && s.buf == [] && p.packets <= parts && Concat(parts[|p.packets|..]) == p.rest
    else
      !s.disabled && parts == p.packets && s.buf == p.rest
  }

  /** Once `before` has arrived, `chunk` does not make the guard cut into a packet: the stream has gone bad already,
      what is unfinished and `chunk` are within 8 MiB, or the header at hand is impossible anyway. */
  ghost predicate Uncut(proto: int, before: seq<byte>, chunk: seq<byte>) {
    var p := Parse(proto, before);
    p.bad || |p.rest| + |chunk| <= MAX_PACKET || NextPacketLen(proto, p.rest + chunk) == 0
  }

  /** The guard cuts into no packet. This is about the stream and its chunks alone; a splitter does not occur in it. */
  ghost predicate Clean(proto: int, buffered: seq<byte>, chunks: seq<seq<byte>>) {
    forall i :: 0 <= i < |chunks| ==> Uncut(proto, buffered + Concat(chunks[..i]), chunks[i])
  }

  lemma UncutAfter(proto: int, head: seq<byte>, t: seq<byte>, chunk: seq<byte>)
    ensures Uncut(proto, head + t, chunk) <==>
        Parse(proto, head).bad || Uncut(proto, Parse(proto, head).rest + t, chunk)
  {
    ParseAppend(proto, head, t);
  }

  lemma ConcatFrom(buffered: seq<byte>, chunks: seq<seq<byte>>, i: nat)
    requires 0 < i <= |chunks|
    ensures buffered + Concat(chunks[..i]) == (buffered + chunks[0]) + Concat(chunks[1..][..i - 1])
  {
    assert chunks[..i][1..] == chunks[1..][..i - 1];
    Assoc(buffered, chunks[0], Concat(chunks[1..][..i - 1]));
  }

  /** What the first chunk leaves buffered decides about the others. */
  lemma CleanTail(proto: int, buffered: seq<byte>, chunks: seq<seq<byte>>)
    requires chunks != []
    ensures var p := Parse(proto, buffered + chunks[0]);
      Clean(proto, buffered, chunks)
      <==> Uncut(proto, buffered, chunks[0]) && (p.bad || Clean(proto, p.rest, chunks[1..]))
  {
    var head := buffered + chunks[0];
    var p, rest := Parse(proto, head), chunks[1..];
    assert buffered + Concat(chunks[..0]) == buffered;
    forall i | 0 < i < |chunks|
      ensures Uncut(proto, buffered + Concat(chunks[..i]), chunks[i])
         <==> p.bad || Uncut(proto, p.rest + Concat(rest[..i - 1]), rest[i - 1])
    {
      ConcatFrom(buffered, chunks, i);
      UncutAfter(proto, head, Concat(rest[..i - 1]), chunks[i]);
    }
    if !p.bad && Clean(proto, buffered, chunks) {
      forall j | 0 <= j < |rest| ensures Uncut(proto, p.rest + Concat(rest[..j]), rest[j]) {
        assert Uncut(proto, buffered + Concat(chunks[..j + 1]), chunks[j + 1]);
      }
    }
  }

  /** The verdict about a header is in long before 8 MiB have arrived. */
  lemma LargeIsDecided(proto: int, s: seq<byte>)
    requires |s| > MAX_PACKET
    ensures NextPacketLen(proto, s) >= 0
  {
  }

  lemma WaitingParse(proto: int, buffered: seq<byte>)
    requires NextPacketLen(proto, buffered) < 0
    ensures Parse(proto, buffered) == Parsed([], buffered, false)
  {
  }

  /** As long as the guard does not fire, the splitter's buffer stands for the stream so far. */
  lemma CleanStep(s: State, chunks: seq<seq<byte>>)
    requires Waiting(s) && !s.disabled && chunks != [] && !Overflows(s, chunks[0])
    ensures var s1 := Split(s, chunks[0]).1;
      Clean(s.proto, s.buf, chunks) <==> s1.disabled || Clean(s.proto, s1.buf, chunks[1..])
  {
    CleanTail(s.proto, s.buf, chunks);
    WaitingParse(s.proto, s.buf);
    if chunks[0] == [] {
      assert s.buf + chunks[0] == s.buf;
    }
  }

  /** When the guard fires, all depends on whether a packet was due. */
  lemma CleanOverflow(s: State, chunks: seq<seq<byte>>)
    requires Waiting(s) && chunks != [] && Overflows(s, chunks[0])
    ensures Clean(s.proto, s.buf, chunks) <==> NextPacketLen(s.proto, s.buf + Concat(chunks)) == 0
  {
    var head := s.buf + chunks[0];
    CleanTail(s.proto, s.buf, chunks);
    WaitingParse(s.proto, s.buf);
    LargeIsDecided(s.proto, head);
    NextStable(s.proto, head, Concat(chunks[1..]));
    Assoc(s.buf, chunks[0], Concat(chunks[1..]));
  }

  /** Once disabled, everything is passed through. */
  lemma {:induction false} FeedDisabled(s: State, chunks: seq<seq<byte>>)
    requires s.disabled && s.buf == []
    ensures var (parts, s') := Feed(s, chunks); s' == s && Concat(parts) == Concat(chunks)
    decreases |chunks|
  {
    if chunks == [] {
    } else {
      FeedDisabled(s, chunks[1..]);
      var parts := Split(s, chunks[0]).0;
      ConcatOne(chunks[0]);
      ConcatAppend(parts, Feed(s, chunks[1..]).0);
    }
  }

  lemma MatchesAfter(parts: seq<seq<byte>>, more: seq<seq<byte>>, s: State, p: Parsed)
    ensures Matches(parts + more, s, Prepend(parts, p)) <==> Matches(more, s, p)
  {
    var all := parts + more;
    assert all[..|parts|] == parts && all[|parts|..] == more;
    if p.bad {
      if p.packets <= more {
        assert parts + p.packets <= all;
      }
      if parts + p.packets <= all {
        assert forall i :: 0 <= i < |p.packets| ==> more[i] == all[|parts| + i] == (parts + p.packets)[|parts| + i];
        assert all[|parts + p.packets|..] == more[|p.packets|..];
      }
    } else if all == parts + p.packets {
      assert more == p.packets;
    }
  }

  /** Chunk independence, exactly: whatever the chunking, the splitter emits what the reference parse of the whole
      stream prescribes if and only if the guard does not cut into a packet. */
  lemma {:induction false} FeedMatches(s: State, chunks: seq<seq<byte>>)
    requires Waiting(s) && !s.disabled
    ensures var (parts, s') := Feed(s, chunks);
      Matches(parts, s', Parse(s.proto, s.buf + Concat(chunks))) <==> Clean(s.proto, s.buf, chunks)
    decreases |chunks|
  {
    if chunks == [] {
      assert s.buf + Concat(chunks) == s.buf;
    } else if Overflows(s, chunks[0]) {
      GuardFires(s, chunks);
      CleanOverflow(s, chunks);
    } else if chunks[0] == [] {
      CleanStep(s, chunks);
      FeedMatches(s, chunks[1..]);
      assert [] + Concat(chunks[1..]) == Concat(chunks[1..]);
      assert [] + Feed(s, chunks[1..]).0 == Feed(s, chunks[1..]).0;
    } else {
      var tail := Concat(chunks[1..]);
      var p := Parse(s.proto, s.buf + chunks[0]);
      var (parts, s1) := Split(s, chunks[0]);
      var (more, s2) := Feed(s1, chunks[1..]);
      CleanStep(s, chunks);
      SplitConserves(s, chunks[0]);
      ParseAppend(s.proto, s.buf + chunks[0], tail);
      Assoc(s.buf, chunks[0], tail);
      if p.bad {
        FeedDisabled(s1, chunks[1..]);
        ConcatOne(p.rest);
        ConcatAppend([p.rest], more);
        Assoc(p.packets, [p.rest], more);
        assert (parts + more)[|p.packets|..] == [p.rest] + more;
      } else {
        FeedMatches(s1, chunks[1..]);
        MatchesAfter(p.packets, more, s2, Parse(s.proto, p.rest + tail));
      }
    }
  }

  /** When the guard fires, its first piece is no packet, so the output is right only if no packet was due. */
  lemma GuardFires(s: State, chunks: seq<seq<byte>>)
    requires Waiting(s) && chunks != [] && Overflows(s, chunks[0])
    ensures var (parts, s') := Feed(s, chunks);
      var whole := s.buf + Concat(chunks);
      Matches(parts, s', Parse(s.proto, whole)) <==> NextPacketLen(s.proto, whole) == 0
  {
    var whole := s.buf + Concat(chunks);
    var (parts, s1) := Split(s, chunks[0]);
    var (more, s2) := Feed(s1, chunks[1..]);
    var all := parts + more;
    SplitConserves(s, chunks[0]);
    FeedDisabled(s1, chunks[1..]);
    ConcatAppend(parts, more);
    assert Concat(all) == whole by {
      assert Concat(parts) == s.buf + chunks[0];
    }
    var n := NextPacketLen(s.proto, whole);
    if n == 0 {
      assert all[0..] == all;
    } else if n > 0 {
      NextBounds(s.proto, whole);
      NextPending(s.proto, s.buf, Concat(chunks));
      assert |all[0]| != n;
      assert Parse(s.proto, whole).packets[0] == whole[..n];
    }
  }

  /** Two ways of cutting the same stream give the same packets up to the first impossible header, and the same
      bytes. */
  lemma ChunkIndependence(proto: int, a: seq<seq<byte>>, b: seq<seq<byte>>)
    requires Concat(a) == Concat(b) && Clean(proto, [], a) && Clean(proto, [], b)
    ensures var (p, s) := Feed(Fresh(proto), a);
      var (q, t) := Feed(Fresh(proto), b);
      var n := |Parse(proto, Concat(a)).packets|;
      && s == t
      && n <= |p| && n <= |q| && p[..n] == q[..n]
      && (!s.disabled ==> p == q)
      && Concat(p) == Concat(q)
  {
    var s0 := Fresh(proto);
    FeedMatches(s0, a);
    FeedMatches(s0, b);
    FeedConserves(s0, a);
    FeedConserves(s0, b);
    assert s0.buf + Concat(a) == Concat(a);
    FeedProto(s0, a);
    FeedProto(s0, b);
    var (p, s) := Feed(s0, a);
    var (q, t) := Feed(s0, b);
    SameFront(Concat(p), Concat(q), s.buf);
  }

  lemma SameFront(a: seq<byte>, b: seq<byte>, tail: seq<byte>)
    requires a + tail == b + tail
    ensures a == b
  {
    assert a == (a + tail)[..|a|] && b == (b + tail)[..|b|];
  }

  /** End to end: packets sent in a row and cut into any chunks come out one by one, unless the guard cuts into one. */
  lemma PacketsComeOut(proto: int, ps: seq<Packet>, chunks: seq<seq<byte>>)
    requires forall i :: 0 <= i < |ps| ==> Sendable(proto, ps[i])
    requires Concat(chunks) == Concat(EncodeAll(proto, ps))
    ensures Feed(Fresh(proto), chunks) == (EncodeAll(proto, ps), Fresh(proto)) <==> Clean(proto, [], chunks)
  {
    var s, all := Fresh(proto), EncodeAll(proto, ps);
    FeedMatches(s, chunks);
    FeedProto(s, chunks);
    ParseEncoded(proto, ps, []);
    assert Concat(all) + [] == Concat(all) == s.buf + Concat(chunks);
    assert all + [] == all;
  }

  lemma {:induction false} FeedProto(s: State, chunks: seq<seq<byte>>)
    ensures Feed(s, chunks).1.proto == s.proto
    decreases |chunks|
  {
    if chunks == [] {
    } else {
      FeedProto(Split(s, chunks[0]).1, chunks[1..]);
    }
  }

  // ---------------------------------------------------------------------------------------------------------------
  // When the guard cannot fire
  // ---------------------------------------------------------------------------------------------------------------

  const MAX_CHUNK: nat := 64 * 1024

  /** The packet length that a complete, possible header at the front of `s` announces, whether or not the packet is all
      there. */
  function Announced(proto: int, s: seq<byte>): nat {
    if s == [] then 0
    else if proto == ABRIDGED then
      if s[0] != 0x7F && s[0] != 0xFF then 1 + s[0] as int % 0x80 * 4
      else if |s| < 4 then 0
      else 4 + Le24(s[1], s[2], s[3]) * 4
    else if |s| < 4 then 0
    else 4 + Le32(s[0], s[1], s[2], s[3] as int % 0x80)
  }

  /** No packet of the stream, including the one it ends in, is announced as longer than `limit`. */
  ghost predicate PacketsWithin(proto: int, s: seq<byte>, limit: nat)
    decreases |s|
  {
    var n := NextPacketLen(proto, s);
    if s == [] || n == 0 then true
    else if n < 0 then Announced(proto, s) <= limit
    else (NextBounds(proto, s); n <= limit && PacketsWithin(proto, s[n..], limit))
  }

  lemma {:induction false} WithinAfter(proto: int, s: seq<byte>, t: seq<byte>, limit: nat)
    requires PacketsWithin(proto, s + t, limit) && !Parse(proto, s).bad
    ensures PacketsWithin(proto, Parse(proto, s).rest + t, limit)
    decreases |s|
  {
    var n := NextPacketLen(proto, s);
    if n <= 0 {
    } else {
      ParseStep(proto, s, n);
      NextStable(proto, s, t);
      CutFront(s, t, n);
      WithinAfter(proto, s[n..], t, limit);
    }
  }

  lemma PendingIsShort(proto: int, buf: seq<byte>, more: seq<byte>, limit: nat)
    requires NextPacketLen(proto, buf) < 0 && PacketsWithin(proto, buf + more, limit) && limit >= 4
    ensures |buf| < limit
  {
    if |buf| >= 4 {
      NextPending(proto, buf, more);
      assert Announced(proto, buf + more) == Announced(proto, buf) > |buf|;
      assert NextPacketLen(proto, buf + more) != 0;
    }
  }

  /** With chunks of at most 64 KiB and packets of at most 8 MiB - 64 KiB the guard never fires, so the splitter agrees
      with the reference parse. */
  lemma GuardNeverFires(proto: int, buffered: seq<byte>, chunks: seq<seq<byte>>)
    requires forall c :: c in chunks ==> |c| <= MAX_CHUNK
    requires PacketsWithin(proto, buffered + Concat(chunks), MAX_PACKET - MAX_CHUNK)
    ensures Clean(proto, buffered, chunks)
  {
    var limit := MAX_PACKET - MAX_CHUNK;
    forall i | 0 <= i < |chunks| ensures Uncut(proto, buffered + Concat(chunks[..i]), chunks[i]) {
      var before, after := buffered + Concat(chunks[..i]), Concat(chunks[i..]);
      assert chunks[i] in chunks;
      assert chunks == chunks[..i] + chunks[i..];
      ConcatAppend(chunks[..i], chunks[i..]);
      Assoc(buffered, Concat(chunks[..i]), after);
      var p := Parse(proto, before);
      if !p.bad {
        WithinAfter(proto, before, after, limit);
        ParseConserves(proto, before);
        PendingIsShort(proto, p.rest, after, limit);
      }
    }
  }

  /** The packet length alone does not protect a stream, however small the chunks: once all but one byte of a packet
      of 8 MiB have arrived, in whatever chunks, a chunk that brings that byte and one more makes the guard cut the
      packet in two. */
  lemma GuardCanCut(head: seq<byte>, chunks: seq<seq<byte>>, chunk: seq<byte>)
    requires |head| == MAX_PACKET - 1 && head[..4] == [0xFC, 0xFF, 0x7F, 0] && |chunk| == 2 && Concat(chunks) == head
    ensures !Clean(INTERMEDIATE, [], chunks + [chunk])
  {
    var all, n := chunks + [chunk], |chunks|;
    assert head[0] == head[..4][0] && head[1] == head[..4][1] && head[2] == head[..4][2] && head[3] == head[..4][3];
    assert NextPacketLen(INTERMEDIATE, head) == -1;
    assert NextPacketLen(INTERMEDIATE, head + chunk) == MAX_PACKET;
    assert all[..n] == chunks && all[n] == chunk;
    assert [] + Concat(all[..n]) == head;
    assert !Uncut(INTERMEDIATE, head, chunk);
  }
}
