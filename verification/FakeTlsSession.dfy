/** A session behind Fake TLS, from the client's first byte to its last: the hello, the flight that answers it, and
    everything after that in application data records. */
module FakeTlsSession {
  import opened Units
  import opened Bytes
  import opened Bridge
  import opened Crypto
  import opened Routing
  import Splitter
  import Records
  import ClientHello
  import ServerHello

  // ---------------------------------------------------------------------------------------------------------------
  // Reading
  // ---------------------------------------------------------------------------------------------------------------

  /** io.ReadFull: exactly `n` bytes, or all there are. */
  method ReadExactly(conn: Records.FakeTlsConn, n: nat) returns (got: seq<byte>, ok: bool)
    modifies conn
    ensures conn.written == old(conn.written)
    ensures ok <==> |old(conn.Pending())| >= n
    ensures ok ==> |got| == n && got + conn.Pending() == old(conn.Pending())
  {
    got := [];
    NoFront(conn.Pending());
    while |got| < n
      invariant |got| <= n && got + conn.Pending() == old(conn.Pending()) && conn.written == old(conn.written)
      decreases n - |got|
    {
      var buf := new byte[n - |got|];
      ghost var due := conn.Pending();
      var k, err := conn.Read(buf);
      if err.Some? {
        return got, false;
      }
      Assoc(got, buf[..k], conn.Pending());
      got := got + buf[..k];
    }
    ok := true;
  }

  /** The reads that a copying loop makes on the connection, up to the one that fails. */
  method ReadsOf(conn: Records.FakeTlsConn, size: nat) returns (script: seq<seq<byte>>)
    requires size > 0
    modifies conn
    ensures conn.written == old(conn.written)
    ensures Concat(script) == old(conn.Pending()) && forall c :: c in script ==> 0 < |c| <= size
  {
    script := [];
    NoFront(conn.Pending());
    while true
      invariant Concat(script) + conn.Pending() == old(conn.Pending()) && conn.written == old(conn.written)
      invariant forall c :: c in script ==> 0 < |c| <= size
      decreases |conn.Pending()|
    {
      var buf := new byte[size];
      var n, err := conn.Read(buf);
      if err.Some? {
        assert Concat(script) + [] == Concat(script);
        return;
      }
      ConcatAppend(script, [buf[..n]]);
      ConcatOne(buf[..n]);
      Assoc(Concat(script), buf[..n], conn.Pending());
      script := script + [buf[..n]];
    }
  }

  // ---------------------------------------------------------------------------------------------------------------
  // Writing
  // ---------------------------------------------------------------------------------------------------------------

  /** The framed form of several writes. */
  function Framed(messages: seq<seq<byte>>): seq<byte> {
    if messages == [] then [] else Framed(messages[..|messages| - 1]) + Records.Wrapped(messages[|messages| - 1])
  }

  /** What a receipt leaves on the raw connection when `reached` bytes of the refused write get through. */
  function OnTheWire(r: Receipt, reached: nat): seq<byte> {
    Framed(r.sent) + if r.all then [] else FirstOf(Records.Wrapped(r.refused), reached)
  }

  /** The writes of a copying loop on the connection: those that succeed, and the one that fails, if any. */
  method WriteAll(conn: Records.FakeTlsConn, r: Receipt, reached: nat)
    modifies conn
    ensures conn.written == old(conn.written) + OnTheWire(r, reached)
  {
    assert old(conn.written) + [] == old(conn.written);
    for i := 0 to |r.sent|
      invariant conn.written == old(conn.written) + Framed(r.sent[..i])
    {
      var _ := conn.Write(r.sent[i], true, 0);
      assert r.sent[..i + 1][..i] == r.sent[..i];
      Assoc(old(conn.written), Framed(r.sent[..i]), Records.Wrapped(r.sent[i]));
    }
    assert r.sent[..|r.sent|] == r.sent;
    if !r.all {
      var _ := conn.Write(r.refused, false, reached);
      Assoc(old(conn.written), Framed(r.sent), FirstOf(Records.Wrapped(r.refused), reached));
    } else {
      assert Framed(r.sent) + [] == Framed(r.sent);
    }
  }

  /** The bytes that a peer reads off a raw stream. */
  function Seen(wire: seq<byte>): seq<byte> {
    Concat(Records.Scan(wire).payloads)
  }

  lemma {:induction false} SeenFramed(messages: seq<seq<byte>>, tail: seq<byte>)
    ensures Seen(Framed(messages) + tail) == Concat(messages) + Seen(tail)
  {
    if messages == [] {
      NoFront(tail);
      NoFront(Seen(tail));
    } else {
      var front, last := messages[..|messages| - 1], messages[|messages| - 1];
      SeenFramed(front, Records.Wrapped(last) + tail);
      SeenLast(Framed(front), last, tail);
      Records.ScanWrapped(last, tail);
      SplitLast(messages);
      Assoc(Concat(front), last, Seen(tail));
    }
  }

  lemma SeenLast(framed: seq<byte>, last: seq<byte>, tail: seq<byte>)
    ensures Seen(framed + Records.Wrapped(last) + tail) == Seen(framed + (Records.Wrapped(last) + tail))
  {
    Assoc(framed, Records.Wrapped(last), tail);
  }

  lemma SplitLast(messages: seq<seq<byte>>)
    requires messages != []
    ensures Concat(messages) == Concat(messages[..|messages| - 1]) + messages[|messages| - 1]
  {
    var front, last := messages[..|messages| - 1], messages[|messages| - 1];
    assert messages == front + [last];
    ConcatAppend(front, [last]);
    ConcatOne(last);
  }

  /** A framed write that breaks off anywhere delivers a first part of the data, and nothing else. */
  lemma {:induction false} SeenBroken(data: seq<byte>, reached: nat)
    ensures Seen(FirstOf(Records.Wrapped(data), reached)) <= data
    decreases |data|
  {
    var wire := FirstOf(Records.Wrapped(data), reached);
    if data == [] {
    } else {
      var n := Min(|data|, Records.RECORD_MAX);
      var r, rest := Records.Frame(data[..n]), data[n..];
      Records.WrapStep(data, n);
      var head := r.Encode();
      if |wire| < |head| {
        SeenCut(r, wire);
      } else {
        var tail := FirstOf(Records.Wrapped(rest), reached - |head|);
        assert wire == head + tail;
        SeenBroken(rest, reached - |head|);
        Records.ScanOne(r, tail);
        ConcatCons(data[..n], Records.Scan(tail).payloads);
        assert data == data[..n] + rest;
      }
    }
  }

  /** An incomplete record delivers nothing. */
  lemma SeenCut(r: Records.Record, wire: seq<byte>)
    requires r.Fits() && r.kind == Records.APP_DATA && r.body != [] && wire < r.Encode()
    ensures Seen(wire) == []
  {
    if |wire| >= 5 {
      Records.EncodeParts(r, []);
      assert r.Encode() + [] == r.Encode();
      assert wire[0] == r.Encode()[0] && wire[3] == r.Encode()[3] && wire[4] == r.Encode()[4];
    }
  }

  /** Whatever a receipt leaves on the wire, its reader sees the messages accepted and a first part of the one
      refused. */
  lemma SeenOnTheWire(due: seq<seq<byte>>, line: Line, r: Receipt, reached: nat)
    requires Outcome([], due, line, 0, r)
    ensures var seen := Seen(OnTheWire(r, reached)); seen <= Concat(due) && (r.all ==> seen == Concat(due))
  {
    if r.all {
      SeenFramed(r.sent, []);
      assert r.sent == due;
    } else {
      var n := |r.sent|;
      SeenFramed(r.sent, FirstOf(Records.Wrapped(r.refused), reached));
      SeenBroken(r.refused, reached);
      assert r.sent == due[..n];
      PartBytes(due, n, |Seen(FirstOf(Records.Wrapped(r.refused), reached))|);
    }
  }

  /** The client reads off the raw stream what Telegram wrote: a first part of it, and the whole if no write failed. */
  lemma ClientReads(frames: seq<Frame>, near: Keystream, far: Keystream, line: Line, r: Receipt, reached: nat)
    requires DownRelayed(frames, near, far, line, r)
    ensures Relayed(Seen(OnTheWire(r, reached)), far, 0, Concat(Body(frames)), near, 0, r.all)
  {
    SeenOnTheWire(ClientDue(frames, near, far), line, r, reached);
    TranscodedBytes(Body(frames), near, 0, far, 0);
    FarEndReads(Seen(OnTheWire(r, reached)), Concat(Body(frames)), near, 0, far, 0, r.all);
  }

  // ---------------------------------------------------------------------------------------------------------------
  // Getting in
  // ---------------------------------------------------------------------------------------------------------------

  /** What a hello is judged and answered by: the HMAC, the clock, the size of the domain's own flight, the random
      draws, and whether the answer can be written. */
  datatype Desk = Desk(hmac: ServerHello.Hmac, now: int, appDataLen: int, random: ServerHello.Random, answers: bool) {
    ghost predicate Valid() {
      random.Valid() && forall k, d :: |hmac(k, d)| == 32
    }
  }

  /** The first record of a raw stream, if it is a complete and non-empty handshake record. */
  function HelloOf(wire: seq<byte>): Option<seq<byte>> {
    if |wire| < 5 || wire[0] != 0x16 then None else
    var n := Be16(wire[3], wire[4]);
    if n == 0 || |wire| < 5 + n then None else Some(wire[..5 + n])
  }

  /** The client presents itself with a hello that is let in. */
  ghost predicate Presents(desk: Desk, secret: seq<byte>, wire: seq<byte>)
    requires desk.Valid()
  {
    HelloOf(wire).Some? && ServerHello.LetIn(desk.hmac, secret, HelloOf(wire).value, desk.now)
  }

  /** What the application data records behind the hello carry. */
  function Behind(wire: seq<byte>): seq<byte>
    requires HelloOf(wire).Some?
  {
    Seen(wire[|HelloOf(wire).value|..])
  }

  function SessionOf(hello: seq<byte>): seq<byte> {
    if |hello| >= 76 && hello[43] == 0x20 then hello[44..76] else ServerHello.Zeros(32)
  }

  /** What a hello offers: nothing, unless it is well-formed. */
  ghost function OfferOf(hello: seq<byte>): ClientHello.Info {
    var h := ClientHello.DecodeHello(hello);
    if h.Some? then ClientHello.Summary(h.value) else ClientHello.EMPTY
  }

  /** The flight `f`, written as `flight`, is the one due to the hello, and the client decodes it. */
  ghost predicate Answers(desk: Desk, secret: seq<byte>, hello: seq<byte>, flight: seq<byte>, f: ServerHello.Flight)
    requires desk.Valid() && |hello| >= 43 && |flight| >= 43
  {
    && ServerHello.DecodeFlight(flight) == Some(f)
    && ServerHello.Due(f, flight, desk.hmac, secret, hello[11..43], SessionOf(hello), OfferOf(hello), desk.appDataLen,
                       desk.random)
  }

  /** Judges a hello and makes the flight that answers it. */
  method AnswerHello(desk: Desk, secret: seq<byte>, hello: seq<byte>)
    returns (ok: bool, flight: seq<byte>, ghost f: ServerHello.Flight)
    requires desk.Valid()
    ensures ok <==> ServerHello.LetIn(desk.hmac, secret, hello, desk.now)
    ensures ok ==> |flight| >= 43 && Answers(desk, secret, hello, flight, f)
  {
    flight, f := [], ServerHello.Flight([], [], 0, 0, [], []);
    var verified := ServerHello.VerifyClientHello(desk.hmac, secret, hello, desk.now);
    ok := verified.Some?;
    if ok {
      var Verified(random, session) := verified.value;
      var info := ClientHello.ParseClientHello(hello);
      flight, f := ServerHello.BuildServerHello(desk.hmac, secret, random, session, info, desk.appDataLen, desk.random);
    }
  }

  /** acceptFakeTLSClient: in come exactly the clients that present a hello that is let in, take the answer, and send
      a handshake's worth of data; they are answered with the flight that is due. */
  method AcceptClient(desk: Desk, secret: seq<byte>, wire: seq<byte>)
    returns (conn: Records.FakeTlsConn?, hs: seq<byte>, flight: seq<byte>, ghost f: ServerHello.Flight)
    requires desk.Valid()
    ensures conn != null <==> Presents(desk, secret, wire) && desk.answers && |Behind(wire)| >= HANDSHAKE
    ensures conn != null ==>
      && fresh(conn) && conn.written == []
      && |hs| == HANDSHAKE && hs + conn.Pending() == Behind(wire)
      && |flight| >= 43 && Answers(desk, secret, HelloOf(wire).value, flight, f)
  {
    conn, hs, flight := null, [], [];
    f := ServerHello.Flight([], [], 0, 0, [], []);
    var hello := HelloOf(wire);
    if hello.None? {
      return;
    }
    var ok;
    ok, flight, f := AnswerHello(desk, secret, hello.value);
    if ok && desk.answers {
      conn, hs := FirstData(wire[|hello.value|..]);
    }
  }

  /** Wraps the raw connection and reads a handshake's worth of data. */
  method FirstData(rest: seq<byte>) returns (conn: Records.FakeTlsConn?, hs: seq<byte>)
    ensures conn != null <==> |Seen(rest)| >= HANDSHAKE
    ensures conn != null ==>
      && fresh(conn) && conn.written == []
      && |hs| == HANDSHAKE && hs + conn.Pending() == Seen(rest)
  {
    conn := null;
    var wrapped := new Records.FakeTlsConn(rest);
    NoFront(Seen(rest));
    var ok;
    hs, ok := ReadExactly(wrapped, HANDSHAKE);
    if ok {
      conn := wrapped;
    }
  }

  // ---------------------------------------------------------------------------------------------------------------
  // The whole session
  // ---------------------------------------------------------------------------------------------------------------

  /** A client is served if it gets in and its data begins with a known handshake. */
  ghost predicate Enters(desk: Desk, p: Primitives, secret: seq<byte>, wire: seq<byte>)
    requires desk.Valid()
  {
    && Presents(desk, secret, wire) && desk.answers
    && |Behind(wire)| >= HANDSHAKE && Known(p, Behind(wire)[..HANDSHAKE], secret)
  }

  /** A failed write of the connection reports that nothing was written. */
  function Told(line: Line): Line {
    line.(reaches := _ => 0)
  }

  /** What the two ends of a session that was served read: the upstream, behind the init, what the client wrote behind
      its handshake; the client, in the records behind the flight, what the upstream wrote. */
  ghost predicate BothRead(p: Primitives, secret: seq<byte>, said: seq<byte>, init: seq<byte>, e: Ending,
                           written: seq<byte>)
    requires |said| >= HANDSHAKE && |init| == HANDSHAKE && e.up.sent != []
  {
    var near, far := said[8..56], init[8..56];
    && e.up.sent[0] == init
    && Relayed(e.up.Bytes(1), Forth(p, far, None), HANDSHAKE,
               said[HANDSHAKE..], Forth(p, near, Some(secret)), HANDSHAKE, e.up.all)
    && Relayed(Seen(written), Back(p, near, Some(secret)), 0,
               Concat(Body(e.wire.frames)), Back(p, far, None), 0, e.down.all)
  }

  /** What follows the handshake is a session in the keystreams that the handshake and the init define. */
  ghost predicate Runs(p: Primitives, secret: seq<byte>, said: seq<byte>, open: Opening, setup: Setup, env: Env,
                       script: seq<seq<byte>>, line: Line, end: Option<Ending>)
    requires |said| >= HANDSHAKE && |open.init| == HANDSHAKE
  {
    var near, far := said[8..56], open.init[8..56];
    && Concat(script) == said[HANDSHAKE..]
    && Ends(setup, env, ProtoFromTag(open.hi.protoTag), open.init, script, line,
            Forth(p, near, Some(secret)), Forth(p, far, None), Back(p, near, Some(secret)), Back(p, far, None), end)
  }

  lemma BothDo(p: Primitives, secret: seq<byte>, said: seq<byte>, open: Opening, setup: Setup, env: Env,
               script: seq<seq<byte>>, line: Line, e: Ending, reached: nat)
    requires |said| >= HANDSHAKE && |open.init| == HANDSHAKE
    requires Runs(p, secret, said, open, setup, env, script, line, Some(e))
    ensures e.up.sent != [] && BothRead(p, secret, said, open.init, e, OnTheWire(e.down, reached))
  {
    var near, far := said[8..56], open.init[8..56];
    ClientReads(e.wire.frames, Back(p, far, None), Back(p, near, Some(secret)), line, e.down, reached);
    assert [open.init] <= e.up.sent;
  }

  /** What happens on a connection that has got in, `said` being all it says. */
  method ServeBehind(conn: Records.FakeTlsConn, hs: seq<byte>, ghost said: seq<byte>, p: Primitives, secret: seq<byte>,
                     draws: nat -> seq<byte>, ghost some: nat, pad: seq<byte>, setup: Setup, env: Env, line: Line)
    returns (open: Option<Opening>, log: seq<Event>, end: Option<Ending>, ghost script: seq<seq<byte>>)
    requires |hs| == HANDSHAKE && hs + conn.Pending() == said && conn.written == [] && env.Fits()
    requires |pad| == 2 && (forall i :: |draws(i)| == HANDSHAKE) && Acceptable(draws(some))
    modifies conn
    ensures open.Some? <==> Known(p, said[..HANDSHAKE], secret)
    ensures open.None? ==> log == [] && end.None?
    ensures open.Some? ==> Echoes(p, said[..HANDSHAKE], secret, open.value)
    ensures open.Some? ==> Runs(p, secret, said, open.value, setup, env, script, Told(line), end)
    ensures Tidy(setup.cfFirst, log, end.Some?)
    ensures conn.written ==
      if end.Some? then OnTheWire(end.value.down, line.reaches(|end.value.down.sent|)) else []
  {
    HandshakeFirst(said, hs, conn.Pending());
    var chunks := ReadsOf(conn, Splitter.MAX_CHUNK);
    var clientIn := new Source(chunks, false);
    var clientOut := new Sink(Told(line));
    script := chunks;
    open, log, end := ServeClient(p, hs, secret, draws, some, pad, setup, env, clientIn, clientOut);
    if end.Some? {
      var down := end.value.down;
      WriteAll(conn, down, line.reaches(|down.sent|));
    }
  }

  /** A client's whole raw stream `wire`, and what it gets back: the flight and then the records `written`; `line` is
      the fate of the raw writes. Exactly the clients that present a hello let in and a known handshake are served, by
      the first route that carries them. */
  method ServeFakeTls(desk: Desk, p: Primitives, secret: seq<byte>, draws: nat -> seq<byte>, ghost some: nat,
                      pad: seq<byte>, setup: Setup, env: Env, wire: seq<byte>, line: Line)
    returns (open: Option<Opening>, log: seq<Event>, end: Option<Ending>, flight: seq<byte>, written: seq<byte>,
             ghost f: ServerHello.Flight, ghost script: seq<seq<byte>>)
    requires desk.Valid() && env.Fits()
    requires |pad| == 2 && (forall i :: |draws(i)| == HANDSHAKE) && Acceptable(draws(some))
    ensures open.Some? <==> Enters(desk, p, secret, wire)
    ensures open.None? ==> log == [] && end.None?
    ensures end.None? ==> written == []
    ensures Tidy(setup.cfFirst, log, end.Some?)
    ensures open.Some? ==>
      && |flight| >= 43 && Answers(desk, secret, HelloOf(wire).value, flight, f)
      && Echoes(p, Behind(wire)[..HANDSHAKE], secret, open.value)
      && Runs(p, secret, Behind(wire), open.value, setup, env, script, Told(line), end)
    ensures end.Some? ==>
      end.value.up.sent != [] && BothRead(p, secret, Behind(wire), open.value.init, end.value, written)
  {
    open, log, end, written, script := None, [], None, [], [];
    var conn, hs;
    conn, hs, flight, f := AcceptClient(desk, secret, wire);
    if conn == null {
      AllTidy(setup.cfFirst, [], START);
      return;
    }
    ghost var said := Behind(wire);
    open, log, end, script := ServeBehind(conn, hs, said, p, secret, draws, some, pad, setup, env, line);
    written := conn.written;
    if end.Some? {
      var down := end.value.down;
      BothDo(p, secret, said, open.value, setup, env, script, Told(line), end.value, line.reaches(|down.sent|));
    }
  }

  lemma HandshakeFirst(said: seq<byte>, hs: seq<byte>, rest: seq<byte>)
    requires |hs| == HANDSHAKE && said == hs + rest
    ensures hs == said[..HANDSHAKE] && rest == said[HANDSHAKE..] && hs[8..56] == said[8..56]
  {
  }
}
