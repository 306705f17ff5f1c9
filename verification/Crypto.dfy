/** The obfuscated handshake: accepting a client's, making the relay's own, and the ciphers that follow from both. */
module Crypto {
  import opened Units
  import opened Bytes
  import opened Bridge
  import Splitter
  import opened SplitterBuffer

  /** SHA-256, and AES in counter mode as a keystream for every key and IV. */
  datatype Primitives = Primitives(hash: seq<byte> -> seq<byte>, ctr: (seq<byte>, seq<byte>) -> Keystream)

  const HANDSHAKE: nat := 64
  const TAG_ABRIDGED: seq<byte> := [0xEF, 0xEF, 0xEF, 0xEF]
  const TAG_INTERMEDIATE: seq<byte> := [0xEE, 0xEE, 0xEE, 0xEE]
  const TAG_SECURE: seq<byte> := [0xDD, 0xDD, 0xDD, 0xDD]

  /** HEAD, POST, "GET ", OPTI, the two padded transports and the start of a TLS hello. */
  const RESERVED_START: seq<seq<byte>> := [
    [0x48, 0x45, 0x41, 0x44], [0x50, 0x4F, 0x53, 0x54], [0x47, 0x45, 0x54, 0x20], [0x4F, 0x50, 0x54, 0x49],
    [0xEE, 0xEE, 0xEE, 0xEE], [0xDD, 0xDD, 0xDD, 0xDD], [0x16, 0x03, 0x01, 0x02]]

  // ---------------------------------------------------------------------------------------------------------------
  // Sixteen-bit integers
  // ---------------------------------------------------------------------------------------------------------------

  type int16 = x: int | -0x8000 <= x < 0x8000

  /** Sixteen bits read as two's complement. */
  function Signed(u: nat): int16
    requires u < 0x10000
  {
    if u < 0x8000 then u else u - 0x10000
  }

  /** The conversion to int16 keeps the low sixteen bits. */
  function ToInt16(x: int): int16 {
    Signed(x % 0x10000)
  }

  function Le16(a: byte, b: byte): nat {
    (a as int) + (b as int) * 0x100
  }

  function PutLe16(x: int): (out: seq<byte>)
    ensures |out| == 2 && out[0] as int + 0x100 * (out[1] as int) == x % 0x10000
  {
    [x % 0x100, x / 0x100 % 0x100]
  }

  lemma SignedIs(x: int16)
    ensures Signed(x % 0x10000) == x
  {
    assert x % 0x10000 == if x >= 0 then x else x + 0x10000;
  }

  lemma Int16RoundTrip(x: int16)
    ensures Signed(Le16(PutLe16(x)[0], PutLe16(x)[1])) == x
  {
    SignedIs(x);
  }

  function SignedDC(dc: int, media: bool): int16 {
    if media then ToInt16(-dc) else ToInt16(dc)
  }

  function Abs(x: int): nat {
    if x < 0 then -x else x
  }

  /** The sign and the magnitude carry a DC index through, the most negative one included. */
  lemma SignedDCRestores(idx: int16)
    ensures SignedDC(Abs(idx), idx < 0) == idx
  {
    SignedIs(idx);
  }

  // ---------------------------------------------------------------------------------------------------------------
  // Accepting a handshake
  // ---------------------------------------------------------------------------------------------------------------

  /** The greatest magnitude of an index. */
  const MAX_DC: nat := 0x8000

  datatype HandshakeInfo = HandshakeInfo(dc: nat, isMedia: bool, protoTag: seq<byte>, clientDecI: seq<byte>)

  predicate KnownTag(tag: seq<byte>) {
    tag == TAG_ABRIDGED || tag == TAG_INTERMEDIATE || tag == TAG_SECURE
  }

  function ProtoFromTag(tag: seq<byte>): int {
    if tag == TAG_ABRIDGED then Splitter.ABRIDGED
    else if tag == TAG_INTERMEDIATE then Splitter.INTERMEDIATE
    else Splitter.PADDED
  }

  /** The protocol number repeats the tag's byte. */
  lemma ProtoMatchesTag(tag: seq<byte>)
    requires KnownTag(tag)
    ensures ProtoFromTag(tag) == Le32(tag[0], tag[1], tag[2], tag[3])
  {
  }

  /** What 64 bytes say once decrypted: the protocol tag and the DC index. */
  datatype Header = Header(tag: seq<byte>, dcIdx: int16)

  function Fields(plain: seq<byte>): Header
    requires |plain| == HANDSHAKE
  {
    Header(plain[56..60], Signed(Le16(plain[60], plain[61])))
  }

  function ClientHeader(p: Primitives, handshake: seq<byte>, secret: seq<byte>): Header
    requires |handshake| == HANDSHAKE
  {
    Fields(Crypt(handshake, p.ctr(p.hash(handshake[8..40] + secret), handshake[40..56]), 0))
  }

  /** A handshake of the right length that says a known tag. */
  predicate Known(p: Primitives, handshake: seq<byte>, secret: seq<byte>) {
    |handshake| == HANDSHAKE && KnownTag(ClientHeader(p, handshake, secret).tag)
  }

  function TryHandshake(p: Primitives, handshake: seq<byte>, secret: seq<byte>): (r: Option<HandshakeInfo>)
    ensures r.Some? <==> Known(p, handshake, secret)
    ensures r.Some? ==>
      var hi := r.value;
      && Header(hi.protoTag, SignedDC(hi.dc, hi.isMedia)) == ClientHeader(p, handshake, secret)
      && hi.clientDecI == handshake[8..56]
    ensures r.Some? ==> r.value.dc <= MAX_DC
    ensures r.Some? ==>
      var plain := Crypt(handshake, p.ctr(p.hash(handshake[8..40] + secret), handshake[40..56]), 0);
      && r.value.protoTag == plain[56..60]
      && plain[60] as int + 0x100 * (plain[61] as int) == if r.value.isMedia then 0x10000 - r.value.dc else r.value.dc
  {
    if |handshake| != HANDSHAKE then None else
    var prekeyAndIV := handshake[8..56];
    var ks := p.ctr(p.hash(prekeyAndIV[..32] + secret), prekeyAndIV[32..]);
    assert prekeyAndIV[..32] == handshake[8..40] && prekeyAndIV[32..] == handshake[40..56];
    var decrypted := Crypt(handshake, ks, 0);
    var tag := decrypted[56..60];
    if !KnownTag(tag) then None else
    var dcIdx := Signed(Le16(decrypted[60], decrypted[61]));
    SignedDCRestores(dcIdx);
    Some(HandshakeInfo(Abs(dcIdx), dcIdx < 0, tag, prekeyAndIV))
  }

  // ---------------------------------------------------------------------------------------------------------------
  // The relay's own handshake
  // ---------------------------------------------------------------------------------------------------------------

  /** What an obfuscated stream must not begin with, lest it be taken for another protocol. */
  predicate Acceptable(init: seq<byte>) {
    && |init| == HANDSHAKE
    && init[0] != 0xEF
    && init[..4] !in RESERVED_START
    && init[4..8] != [0, 0, 0, 0]
  }

  /** How the receiver of an init reads it: with the key and the IV that the init itself carries. */
  function RelayHeader(p: Primitives, init: seq<byte>): Header
    requires |init| == HANDSHAKE
  {
    Fields(Crypt(init, p.ctr(init[8..40], init[40..56]), 0))
  }

  method ReservedStart(rnd: seq<byte>) returns (bad: bool)
    requires |rnd| >= 4
    ensures bad <==> rnd[..4] in RESERVED_START
  {
    bad := false;
    for i := 0 to |RESERVED_START|
      invariant !bad && rnd[..4] !in RESERVED_START[..i]
    {
      if rnd[..4] == RESERVED_START[i] {
        return true;
      }
      assert RESERVED_START[..i + 1] == RESERVED_START[..i] + [RESERVED_START[i]];
    }
    assert RESERVED_START[..|RESERVED_START|] == RESERVED_START;
  }

  /** Draws until an acceptable one comes up: the first one. */
  method DrawInit(draws: nat -> seq<byte>, ghost some: nat) returns (rnd: seq<byte>, k: nat)
    requires forall i :: |draws(i)| == HANDSHAKE
    requires Acceptable(draws(some))
    ensures rnd == draws(k) && Acceptable(rnd) && forall i :: 0 <= i < k ==> !Acceptable(draws(i))
  {
    k := 0;
    while true
      invariant k <= some && forall i :: 0 <= i < k ==> !Acceptable(draws(i))
      decreases some - k
    {
      rnd := draws(k);
      if rnd[0] != 0xEF {
        var bad := ReservedStart(rnd);
        if !bad && rnd[4..8] != [0, 0, 0, 0] {
          return;
        }
      }
      k := k + 1;
    }
  }

  /** The tail loop: the last eight bytes become `tail` under the keystream that `full` reveals. */
  method PatchTail(rnd: seq<byte>, full: seq<byte>, tail: seq<byte>, ghost ks: Keystream) returns (result: array<byte>)
    requires |rnd| == HANDSHAKE && full == Crypt(rnd, ks, 0) && |tail| == 8
    ensures fresh(result) && result.Length == HANDSHAKE
    ensures result[..56] == rnd[..56]
    ensures forall i :: 0 <= i < 8 ==> result[56 + i] == Xor(tail[i], ks(56 + i))
  {
    result := new byte[HANDSHAKE](i requires 0 <= i < HANDSHAKE => rnd[i]);
    for i := 0 to 8
      invariant result[..56] == rnd[..56]
      invariant forall j :: 0 <= j < i ==> result[56 + j] == Xor(tail[j], ks(56 + j))
    {
      var keystream := Xor(full[56 + i], rnd[56 + i]);
      XorCancel(rnd[56 + i], ks(56 + i));
      result[56 + i] := Xor(tail[i], keystream);
    }
  }

  /** generateRelayInit: read with its own key and IV the result says what it was asked to say, and its first 56
      bytes are the accepted draw, so the patched tail brings no excluded beginning back. */
  method GenerateRelayInit(p: Primitives, protoTag: seq<byte>, dcIdx: int16, draws: nat -> seq<byte>, ghost some: nat,
                           pad: seq<byte>)
    returns (init: seq<byte>, k: nat)
    requires |protoTag| == 4 && |pad| == 2
    requires forall i :: |draws(i)| == HANDSHAKE
    requires Acceptable(draws(some))
    ensures |init| == HANDSHAKE && init[..56] == draws(k)[..56]
    ensures forall i :: 0 <= i < k ==> !Acceptable(draws(i))
    ensures Acceptable(init)
    ensures RelayHeader(p, init) == Header(protoTag, dcIdx)
    ensures var plain := Crypt(init, p.ctr(init[8..40], init[40..56]), 0);
      && plain[56..60] == protoTag && plain[62..64] == pad
      && plain[60] == dcIdx % 0x100 && plain[61] == dcIdx % 0x10000 / 0x100
  {
    var rnd;
    rnd, k := DrawInit(draws, some);
    var ks := p.ctr(rnd[8..40], rnd[40..56]);
    var tail := protoTag + PutLe16(dcIdx) + pad;
    var result := PatchTail(rnd, Crypt(rnd, ks, 0), tail, ks);
    init := result[..];
    SameHead(init, rnd);
    TailReads(p, init, ks, tail);
    Int16RoundTrip(dcIdx);
    var plain := Crypt(init, ks, 0);
    assert plain[56..60] == plain[56..64][..4] == protoTag;
    assert plain[60] == plain[56..64][4] && plain[61] == plain[56..64][5];
    assert plain[62..64] == plain[56..64][6..] == pad;
  }

  lemma SameHead(a: seq<byte>, b: seq<byte>)
    requires |a| == |b| == HANDSHAKE && a[..56] == b[..56]
    ensures Acceptable(a) == Acceptable(b) && a[8..40] == b[8..40] && a[40..56] == b[40..56]
  {
    assert a[0] == a[..56][0] && b[0] == b[..56][0];
    assert a[..4] == a[..56][..4] && b[..4] == b[..56][..4];
    assert a[4..8] == a[..56][4..8] && b[4..8] == b[..56][4..8];
    assert a[8..40] == a[..56][8..40] && b[8..40] == b[..56][8..40];
    assert a[40..56] == a[..56][40..56] && b[40..56] == b[..56][40..56];
  }

  lemma TailReads(p: Primitives, init: seq<byte>, ks: Keystream, tail: seq<byte>)
    requires |init| == HANDSHAKE && |tail| == 8
    requires forall i :: 0 <= i < 8 ==> init[56 + i] == Xor(tail[i], ks(56 + i))
    ensures Crypt(init, ks, 0)[56..64] == tail
  {
    var plain := Crypt(init, ks, 0);
    forall i | 0 <= i < 8 ensures plain[56..64][i] == tail[i] {
      XorCancel(tail[i], ks(56 + i));
    }
  }

  /** A client can bring about any index: with these last eight bytes behind any first 56. */
  lemma HeaderFor(p: Primitives, secret: seq<byte>, head: seq<byte>, tag: seq<byte>, idx: int16)
    returns (handshake: seq<byte>)
    requires |head| == 56 && |tag| == 4
    ensures |handshake| == HANDSHAKE && handshake[..56] == head
    ensures ClientHeader(p, handshake, secret) == Header(tag, idx)
  {
    var ks := p.ctr(p.hash(head[8..40] + secret), head[40..56]);
    var tail := tag + PutLe16(idx) + [0, 0];
    handshake := head + Crypt(tail, ks, 56);
    assert handshake[8..40] == head[8..40] && handshake[40..56] == head[40..56];
    TailReads(p, handshake, ks, tail);
    Int16RoundTrip(idx);
    var plain := Crypt(handshake, ks, 0);
    assert plain[56..60] == plain[56..64][..4] == tag;
    assert plain[60] == plain[56..64][4] && plain[61] == plain[56..64][5];
  }

  lemma MagnitudeKept(dc: nat, media: bool)
    requires dc <= MAX_DC
    ensures Abs(SignedDC(dc, media)) == dc
  {
    var x: int := if media then 0 - dc as int else dc;
    if x < 0x8000 {
      SignedIs(x);
    }
  }

  ghost predicate Names(p: Primitives, secret: seq<byte>, handshake: seq<byte>, dc: int) {
    var r := TryHandshake(p, handshake, secret);
    r.Some? && r.value.dc == dc
  }

  lemma NamedBy(p: Primitives, secret: seq<byte>, dc: int)
    requires 0 <= dc <= MAX_DC
    ensures exists handshake :: Names(p, secret, handshake, dc)
  {
    var handshake := HeaderFor(p, secret, seq(56, _ => 0), TAG_ABRIDGED, -dc);
    var hi := TryHandshake(p, handshake, secret).value;
    MagnitudeKept(hi.dc, hi.isMedia);
    assert Names(p, secret, handshake, dc);
  }

  /** The data centres that handshakes name are exactly those from 0 to 32768. */
  lemma NamedExactly(p: Primitives, secret: seq<byte>, dc: int)
    ensures (exists handshake :: Names(p, secret, handshake, dc)) <==> 0 <= dc <= MAX_DC
  {
    if 0 <= dc <= MAX_DC {
      NamedBy(p, secret, dc);
    }
  }

  // ---------------------------------------------------------------------------------------------------------------
  // The four ciphers
  // ---------------------------------------------------------------------------------------------------------------

  function Reversed(s: seq<byte>): (r: seq<byte>)
    ensures |r| == |s|
  {
    seq(|s|, i requires 0 <= i < |s| => s[|s| - 1 - i])
  }

  method ReverseBytes(s: seq<byte>) returns (r: seq<byte>)
    ensures r == Reversed(s)
  {
    var out := new byte[|s|];
    for i := 0 to |s|
      invariant forall j :: |s| - i <= j < |s| ==> out[j] == s[|s| - 1 - j]
    {
      out[|s| - 1 - i] := s[i];
    }
    r := out[..];
  }

  function Key(p: Primitives, prekey: seq<byte>, secret: Option<seq<byte>>): seq<byte> {
    if secret.Some? then p.hash(prekey + secret.value) else prekey
  }

  /** The keystream in which the sender of an init writes, given bytes 8 to 56 of that init. Only a client that talks
      to a proxy mixes a secret in. */
  function Forth(p: Primitives, material: seq<byte>, secret: Option<seq<byte>>): Keystream
    requires |material| == 48
  {
    p.ctr(Key(p, material[..32], secret), material[32..])
  }

  /** The keystream in which its receiver answers: the same bytes backwards. */
  function Back(p: Primitives, material: seq<byte>, secret: Option<seq<byte>>): Keystream
    requires |material| == 48
  {
    Forth(p, Reversed(material), secret)
  }

  /** buildCiphers: what is read from a peer is read in the keystream that peer writes in, and the other way round.
      The two streams that carry an init have its 64 bytes behind them. */
  method BuildCiphers(p: Primitives, clientDecI: seq<byte>, relayInit: seq<byte>, secret: seq<byte>)
    returns (cltDec: CipherStream, cltEnc: CipherStream, tgEnc: CipherStream, tgDec: CipherStream)
    requires |clientDecI| == 48 && |relayInit| == HANDSHAKE
    ensures fresh(cltDec) && fresh(cltEnc) && fresh(tgEnc) && fresh(tgDec)
    ensures cltDec != tgEnc && tgDec != cltEnc && {cltDec, tgEnc} !! {cltEnc, tgDec}
    ensures cltDec.ks == Forth(p, clientDecI, Some(secret)) && cltDec.pos == HANDSHAKE
    ensures cltEnc.ks == Back(p, clientDecI, Some(secret)) && cltEnc.pos == 0
    ensures tgEnc.ks == Forth(p, relayInit[8..56], None) && tgEnc.pos == HANDSHAKE
    ensures tgDec.ks == Back(p, relayInit[8..56], None) && tgDec.pos == 0
  {
    cltDec := new CipherStream(p.ctr(p.hash(clientDecI[..32] + secret), clientDecI[32..]), 0);
    var rev := ReverseBytes(clientDecI);
    cltEnc := new CipherStream(p.ctr(p.hash(rev[..32] + secret), rev[32..]), 0);
    tgEnc := new CipherStream(p.ctr(relayInit[8..40], relayInit[40..56]), 0);
    assert relayInit[8..56][..32] == relayInit[8..40] && relayInit[8..56][32..] == relayInit[40..56];
    var relayDecPI := ReverseBytes(relayInit[8..56]);
    tgDec := new CipherStream(p.ctr(relayDecPI[..32], relayDecPI[32..]), 0);
    var tmp := new byte[HANDSHAKE](_ => 0);
    cltDec.XorInPlace(tmp, 0, HANDSHAKE);
    tgEnc.XorInPlace(tmp, 0, HANDSHAKE);
  }

  // ---------------------------------------------------------------------------------------------------------------
  // A whole session
  // ---------------------------------------------------------------------------------------------------------------

  lemma CryptPrefix(a: seq<byte>, b: seq<byte>, ks: Keystream, pos: nat)
    requires a <= b
    ensures Crypt(a, ks, pos) <= Crypt(b, ks, pos)
  {
  }

  /** What the far end reads of what was relayed. */
  lemma FarEndReads(relayed: seq<byte>, source: seq<byte>, near: Keystream, nearPos: nat, far: Keystream, farPos: nat,
                    all: bool)
    requires var bytes := Crypt(Crypt(source, near, nearPos), far, farPos);
      relayed <= bytes && (all ==> relayed == bytes)
    ensures Crypt(relayed, far, farPos) <= Crypt(source, near, nearPos)
    ensures all ==> Crypt(relayed, far, farPos) == Crypt(source, near, nearPos)
  {
    var plain := Crypt(source, near, nearPos);
    CryptTwice(plain, far, farPos);
    CryptPrefix(relayed, Crypt(plain, far, farPos), far, farPos);
  }

  /** `far` reads what `near` wrote: a first part of it, and the whole if `all`. */
  ghost predicate Relayed(relayed: seq<byte>, far: Keystream, farPos: nat, written: seq<byte>, near: Keystream,
                          nearPos: nat, all: bool) {
    && Crypt(relayed, far, farPos) <= Crypt(written, near, nearPos)
    && (all ==> Crypt(relayed, far, farPos) == Crypt(written, near, nearPos))
  }

  /** What a session without a splitter starts with is a disabled one. */
  function StartOf(proto: Option<int>): Splitter.State {
    if proto.Some? then Splitter.Fresh(proto.value) else Splitter.State(0, [], true)
  }

  /** The messages due upstream after the init, and those due to the client. */
  ghost function UpstreamDue(proto: Option<int>, script: seq<seq<byte>>, near: Keystream,
                             far: Keystream): seq<seq<byte>> {
    CryptEach(UpMessages(StartOf(proto), CryptEach(script, near, HANDSHAKE)), far, HANDSHAKE)
  }

  /** With a splitter that the guard leaves alone, and no impossible header, each message due is one packet of the
      reference parse, but for the unfinished rest. */
  lemma DueInPackets(proto: int, script: seq<seq<byte>>, near: Keystream, far: Keystream)
    requires Splitter.Clean(proto, [], CryptEach(script, near, HANDSHAKE))
    requires !Splitter.Parse(proto, Crypt(Concat(script), near, HANDSHAKE)).bad
    ensures var p := Splitter.Parse(proto, Crypt(Concat(script), near, HANDSHAKE));
      UpstreamDue(Some(proto), script, near, far) == CryptEach(p.packets + Splitter.NonEmpty(p.rest), far, HANDSHAKE)
  {
    UpMessagesArePackets(Job(script, near, far, Snapshot(Splitter.Fresh(proto), HANDSHAKE, HANDSHAKE, [])), proto);
  }

  /** Without one, each message due is one read. */
  lemma DueInReads(script: seq<seq<byte>>, near: Keystream, far: Keystream)
    ensures UpstreamDue(None, script, near, far)
         == CryptEach(NonEmptyOnes(CryptEach(script, near, HANDSHAKE)), far, HANDSHAKE)
  {
    var plain := CryptEach(script, near, HANDSHAKE);
    FeedKeeps(StartOf(None), plain);
    assert NonEmptyOnes(plain) + [] == NonEmptyOnes(plain);
  }

  ghost function ClientDue(frames: seq<Frame>, near: Keystream, far: Keystream): seq<seq<byte>> {
    Transcoded(Body(frames), near, 0, far, 0)
  }

  /** Behind the init, the upstream has got the messages due up to the first one it refused, and reads what the client
      wrote. */
  ghost predicate UpRelayed(proto: Option<int>, script: seq<seq<byte>>, near: Keystream, far: Keystream,
                            init: seq<byte>, line: Line, r: Receipt)
  {
    && Outcome([init], UpstreamDue(proto, script, near, far), line, 1, r)
    && Relayed(r.Bytes(1), far, HANDSHAKE, Concat(script), near, HANDSHAKE, r.all)
  }

  /** The client has got the chunks due up to the first one it refused, and reads what Telegram wrote. */
  ghost predicate DownRelayed(frames: seq<Frame>, near: Keystream, far: Keystream, line: Line, r: Receipt)
  {
    && Outcome([], ClientDue(frames, near, far), line, 0, r)
    && Relayed(r.Bytes(0), far, 0, Concat(Body(frames)), near, 0, r.all)
  }

  const NOTHING: Receipt := Receipt([], [], [], false)

  /** An accepted client and the init made for it. */
  datatype Opening = Opening(hi: HandshakeInfo, init: seq<byte>)

  /** The init says what the client's handshake said. */
  ghost predicate Echoes(p: Primitives, handshake: seq<byte>, secret: seq<byte>, o: Opening) {
    && |handshake| == |o.init| == HANDSHAKE
    && o.hi.clientDecI == handshake[8..56]
    && o.hi.protoTag == ClientHeader(p, handshake, secret).tag
    && Acceptable(o.init)
    && RelayHeader(p, o.init) == ClientHeader(p, handshake, secret)
  }

  method OpenSession(p: Primitives, handshake: seq<byte>, secret: seq<byte>, draws: nat -> seq<byte>, ghost some: nat,
                     pad: seq<byte>)
    returns (open: Option<Opening>)
    requires |pad| == 2 && (forall i :: |draws(i)| == HANDSHAKE) && Acceptable(draws(some))
    ensures open.Some? <==> Known(p, handshake, secret)
    ensures open.Some? ==> Echoes(p, handshake, secret, open.value)
  {
    var r := TryHandshake(p, handshake, secret);
    if r.None? {
      return None;
    }
    var hi := r.value;
    var init, _ := GenerateRelayInit(p, hi.protoTag, SignedDC(hi.dc, hi.isMedia), draws, some, pad);
    open := Some(Opening(hi, init));
  }

  /** From a client's handshake to the end of its session over one upstream, with or without a splitter. A known
      handshake is the only way in. The upstream's first message is an init that says what the client's said; read in
      the keystreams that the two inits define, Telegram receives what the client wrote and the client what Telegram
      wrote, as far as either side accepts it. */
  method RelaySession(p: Primitives, handshake: seq<byte>, secret: seq<byte>, draws: nat -> seq<byte>, ghost some: nat,
                      pad: seq<byte>, splits: bool, clientIn: Source, ws: Sink, wsIn: Upstream, clientOut: Sink,
                      upBuf: array<byte>, downBuf: array<byte>, slack: nat)
    returns (accepted: bool, initOk: bool, up: Receipt, down: Receipt)
    requires |pad| == 2 && (forall i :: |draws(i)| == HANDSHAKE) && Acceptable(draws(some))
    requires clientIn.next == 0 && forall c :: c in clientIn.script ==> |c| <= upBuf.Length
    requires wsIn.next == 0 && forall f, c :: f in wsIn.frames && c in f.chunks ==> |c| <= downBuf.Length
    requires ws != clientOut && ws.Unused() && clientOut.Unused()
    modifies clientIn, ws, wsIn, clientOut, upBuf, downBuf
    ensures accepted <==> Known(p, handshake, secret)
    ensures initOk <==> accepted && ws.line.accepts(0)
    ensures up.sent == ws.sent && down.sent == clientOut.sent
    ensures !initOk ==> ws.sent == [] && clientOut.sent == []
    ensures initOk ==> (
      && ws.sent != [] && Acceptable(ws.sent[0])
      && RelayHeader(p, ws.sent[0]) == ClientHeader(p, handshake, secret)
      && var proto := if splits then Some(ProtoFromTag(ClientHeader(p, handshake, secret).tag)) else None;
         var near, far := Some(secret), ws.sent[0][8..56];
         && UpRelayed(proto, clientIn.script, Forth(p, handshake[8..56], near), Forth(p, far, None),
                      ws.sent[0], ws.line, up)
         && DownRelayed(wsIn.frames, Back(p, far, None), Back(p, handshake[8..56], near),
                        clientOut.line, down))
  {
    initOk, up, down := false, NOTHING, NOTHING;
    var open := OpenSession(p, handshake, secret, draws, some, pad);
    accepted := open.Some?;
    if open.None? {
      return;
    }
    var Opening(hi, init) := open.value;
    initOk := WriteInit(ws, init);
    if !initOk {
      return;
    }
    var cltDec, cltEnc, tgEnc, tgDec := BuildCiphers(p, hi.clientDecI, init, secret);
    var proto := if splits then Some(ProtoFromTag(hi.protoTag)) else None;
    up := SessionUp(proto, clientIn, cltDec, tgEnc, ws, upBuf, slack, init);
    down := SessionDown(wsIn, tgDec, cltEnc, clientOut, downBuf);
  }

  method WriteInit(ws: Sink, init: seq<byte>) returns (ok: bool)
    requires ws.Unused()
    modifies ws
    ensures ok == ws.line.accepts(0) && ws.tries == 1 && ws.Valid() && ws.sent == if ok then [init] else []
  {
    var a := new byte[|init|](i requires 0 <= i < |init| => init[i]);
    assert a[0..|init|] == init;
    ok := ws.Write(a, 0, |init|);
  }

  /** The client-to-Telegram half of a session. */
  method SessionUp(proto: Option<int>, clientIn: Source, cltDec: CipherStream, tgEnc: CipherStream, ws: Sink,
                   buf: array<byte>, slack: nat, ghost init: seq<byte>)
    returns (r: Receipt)
    requires clientIn.next == 0 && forall c :: c in clientIn.script ==> |c| <= buf.Length
    requires cltDec != tgEnc && cltDec.pos == tgEnc.pos == HANDSHAKE
    requires ws.sent == [init] && ws.tries == 1 && ws.Valid()
    modifies clientIn, cltDec, tgEnc, ws, buf
    ensures UpRelayed(proto, clientIn.script, cltDec.ks, tgEnc.ks, init, ws.line, r) && r.sent == ws.sent
  {
    var splitter: MsgSplitter? := null;
    if proto.Some? {
      splitter := new MsgSplitter(proto.value);
    }
    r := BridgeUp(clientIn, splitter, cltDec, tgEnc, ws, buf, slack);
    FarEndReads(r.Bytes(1), Concat(clientIn.script), cltDec.ks, HANDSHAKE, tgEnc.ks, HANDSHAKE, r.all);
  }

  /** The Telegram-to-client half. */
  method SessionDown(wsIn: Upstream, tgDec: CipherStream, cltEnc: CipherStream, clientOut: Sink, buf: array<byte>)
    returns (r: Receipt)
    requires wsIn.next == 0 && forall f, c :: f in wsIn.frames && c in f.chunks ==> |c| <= buf.Length
    requires tgDec != cltEnc && tgDec.pos == cltEnc.pos == 0 && clientOut.Unused()
    modifies wsIn, tgDec, cltEnc, clientOut, buf
    ensures DownRelayed(wsIn.frames, tgDec.ks, cltEnc.ks, clientOut.line, r) && r.sent == clientOut.sent
  {
    r := BridgeDown(wsIn, tgDec, cltEnc, clientOut, buf);
    FarEndReads(r.Bytes(0), Concat(Body(wsIn.frames)), tgDec.ks, 0, cltEnc.ks, 0, r.all);
  }
}
