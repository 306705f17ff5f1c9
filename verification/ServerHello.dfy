/** The ServerHello flight: its grammar, the builder, and the probe that measures another server's flight. */
module ServerHello {
  import opened Units
  import opened Bytes
  import opened Records
  import opened ClientHello

  const HANDSHAKE_RECORD: byte := 0x16
  const X25519: nat := 0x001D
  const X25519_MLKEM768: nat := 0x11EC

  // ---------------------------------------------------------------------------------------------------------------
  // The flight as a client decodes it
  // ---------------------------------------------------------------------------------------------------------------

  datatype Flight = Flight(random: seq<byte>, session: seq<byte>, suite: nat, group: nat, keyShare: seq<byte>,
                           appData: seq<byte>) {
    ghost predicate WellFormed() {
      && |random| == 32 && |session| < 0x100 && suite < 0x10000 && group < 0x10000
      && |keyShare| < 0x8000 && |appData| < 0x10000
    }

    function Extensions(): seq<Entry> {
      [Entry(0x2B, [0x03, 0x04]), Entry(KEY_SHARE, PutBe16(group) + Vec16(keyShare))]
    }

    /** From the session id on. */
    function Tail(): seq<byte> {
      Vec8(session) + (PutBe16(suite) + [0x00] + Vec16(EncodeEntries(Extensions())))
    }

    function Handshake(): seq<byte> {
      [0x02, 0x00] + PutBe16(34 + |Tail()|) + [0x03, 0x03] + random + Tail()
    }

    function ToRecords(): seq<Record> {
      [Record(HANDSHAKE_RECORD, 3, 3, Handshake()), Record(CCS, 3, 3, [0x01]), Record(APP_DATA, 3, 3, appData)]
    }
  }

  /** Any record off the front of a stream. */
  function CutRecord(wire: seq<byte>): Option<(Record, seq<byte>)> {
    if |wire| < 5 || |wire| < 5 + Be16(wire[3], wire[4]) then None
    else Some((Record(wire[0], wire[1], wire[2], wire[5..][..Be16(wire[3], wire[4])]),
               wire[5..][Be16(wire[3], wire[4])..]))
  }

  function DecodeRecords(wire: seq<byte>): Option<seq<Record>>
    decreases |wire|
  {
    if wire == [] then Some([]) else
    var c := CutRecord(wire);
    if c.None? then None else Join([c.value.0], DecodeRecords(c.value.1))
  }

  lemma {:induction false} DecodeEncodedRecords(records: seq<Record>)
    requires forall i :: 0 <= i < |records| ==> records[i].Fits()
    ensures DecodeRecords(EncodeAll(records)) == Some(records)
  {
    if records == [] {
    } else {
      var rest := records[1..];
      assert forall i :: 0 <= i < |rest| ==> rest[i] == records[i + 1];
      DecodeEncodedRecords(rest);
      EncodeParts(records[0], EncodeAll(rest));
      RecordIs(records[0], EncodeAll(rest));
      assert records == [records[0]] + rest;
    }
  }

  lemma RecordIs(r: Record, tail: seq<byte>)
    requires r.Fits()
    ensures CutRecord(r.Encode() + tail) == Some((r, tail))
  {
    EncodeParts(r, tail);
  }

  function DecodeKeyShare(b: seq<byte>): Option<(nat, seq<byte>)> {
    if |b| < 2 then None else
    var c := Cut16(b[2..]);
    if c.None? || c.value.rest != [] then None else Some((Be16(b[0], b[1]), c.value.content))
  }

  /** The handshake message; `appData` comes from the record after next. */
  function DecodeHandshake(b: seq<byte>, appData: seq<byte>): Option<Flight> {
    if |b| < 38 || b[0] != 0x02 || Be24(b[1], b[2], b[3]) != |b| - 4 || b[4] != 3 || b[5] != 3 then None else
    var c := Cut8(b[38..]);
    if c.None? || |c.value.rest| < 3 || c.value.rest[2] != 0 then None else
    var d := Cut16(c.value.rest[3..]);
    if d.None? || d.value.rest != [] then None else
    var es := DecodeEntries(d.value.content);
    if es.None? || |es.value| != 2 || es.value[0] != Entry(0x2B, [0x03, 0x04]) || es.value[1].tag != KEY_SHARE
    then None else
    var ks := DecodeKeyShare(es.value[1].body);
    if ks.None? then None
    else Some(Flight(b[6..38], c.value.content, Be16(c.value.rest[0], c.value.rest[1]), ks.value.0, ks.value.1,
                     appData))
  }

  /** Exactly three records, each of version 3.3, and every nested length as it must be. */
  function DecodeFlight(wire: seq<byte>): Option<Flight> {
    var rs := DecodeRecords(wire);
    if rs.None? || |rs.value| != 3 then None else
    var r := rs.value;
    if r[0].kind != HANDSHAKE_RECORD || r[1] != Record(CCS, 3, 3, [0x01]) || r[2].kind != APP_DATA
      || (r[0].major, r[0].minor) != (3, 3) || (r[2].major, r[2].minor) != (3, 3) then None
    else DecodeHandshake(r[0].body, r[2].body)
  }

  lemma KeyShareIs(group: nat, key: seq<byte>)
    requires group < 0x10000 && |key| < 0x10000
    ensures DecodeKeyShare(PutBe16(group) + Vec16(key)) == Some((group, key))
  {
    var b := PutBe16(group) + Vec16(key);
    assert b[2..] == Vec16(key);
    assert Vec16(key) == Vec16(key) + [];
    Cut16Exact(b[2..], key, []);
  }

  lemma ExtensionsSize(f: Flight)
    ensures |EncodeEntries(f.Extensions())| == 14 + |f.keyShare|
    ensures |f.Tail()| == 20 + |f.session| + |f.keyShare|
    ensures |f.random| == 32 ==> |f.Handshake()| == 38 + |f.Tail()|
  {
    var es := f.Extensions();
    TwoEntries(es[0], es[1]);
  }

  lemma TwoEntries(e: Entry, f: Entry)
    ensures EncodeEntries([e, f]) == e.Encode() + f.Encode()
  {
    assert [e, f][1..] == [f] && [f][1..] == [];
    assert EncodeEntries([f]) == f.Encode() + EncodeEntries([]);
  }

  lemma ExtensionsDecode(f: Flight)
    requires f.WellFormed()
    ensures DecodeEntries(EncodeEntries(f.Extensions())) == Some(f.Extensions())
  {
    EntriesExact(EncodeEntries(f.Extensions()), f.Extensions());
  }

  lemma HandshakeDecodes(f: Flight)
    requires f.WellFormed()
    ensures DecodeHandshake(f.Handshake(), f.appData) == Some(f)
  {
    var b, tail := f.Handshake(), f.Tail();
    var es := EncodeEntries(f.Extensions());
    ExtensionsSize(f);
    ExtensionsDecode(f);
    HandshakeParts(f.random, tail);
    var rest := PutBe16(f.suite) + [0x00] + Vec16(es);
    Cut8Exact(b[38..], f.session, rest);
    OfferParts(f.suite, es);
    KeyShareIs(f.group, f.keyShare);
  }

  lemma OfferParts(suite: nat, es: seq<byte>)
    requires suite < 0x10000 && |es| < 0x10000
    ensures var rest := PutBe16(suite) + [0x00] + Vec16(es);
      |rest| >= 3 && Be16(rest[0], rest[1]) == suite && rest[2] == 0 && Cut16(rest[3..]) == Some(Cut(es, []))
  {
    var put := PutBe16(suite);
    var rest := put + [0x00] + Vec16(es);
    assert rest[0] == put[0] && rest[1] == put[1];
    assert rest[3..] == Vec16(es) == Vec16(es) + [];
    Cut16Exact(rest[3..], es, []);
  }

  lemma HandshakeParts(random: seq<byte>, tail: seq<byte>)
    requires |random| == 32 && 34 + |tail| < 0x10000
    ensures var b := [0x02, 0x00] + PutBe16(34 + |tail|) + [0x03, 0x03] + random + tail;
      && |b| == 38 + |tail| && b[0] == 2 && Be24(b[1], b[2], b[3]) == |b| - 4 && b[4] == 3 && b[5] == 3
      && b[6..38] == random && b[38..] == tail
  {
    var len := PutBe16(34 + |tail|);
    var b := [0x02, 0x00] + len + [0x03, 0x03] + random + tail;
    assert b[2] == len[0] && b[3] == len[1];
  }

  /** A flight decodes to what it was made of. */
  lemma FlightDecodes(f: Flight)
    requires f.WellFormed()
    ensures DecodeFlight(EncodeAll(f.ToRecords())) == Some(f)
  {
    ExtensionsSize(f);
    DecodeEncodedRecords(f.ToRecords());
    HandshakeDecodes(f);
  }

  // ---------------------------------------------------------------------------------------------------------------
  // The builder
  // ---------------------------------------------------------------------------------------------------------------

  type Hmac = (seq<byte>, seq<byte>) -> seq<byte>

  const PREFERRED: seq<nat> := [0x1301, 0x1303, 0x1302]

  /** What the builder draws at random: an X25519 public key, an ML-KEM ciphertext, a size, and filler. */
  datatype Random = Random(publicKey: seq<byte>, ciphertext: seq<byte>, size: nat, filler: nat -> byte) {
    predicate Valid() {
      |publicKey| == 32 && |ciphertext| == 1088 && 64 <= size <= 160
    }
  }

  /** The suite: the most preferred of those offered, or the default when none is. */
  method SelectSuite(offered: seq<nat>) returns (suite: nat)
    ensures suite in PREFERRED && suite < 0x10000
    ensures exists i :: 0 <= i < |PREFERRED| && suite == PREFERRED[i] && (suite in offered || i == 0)
              && forall j :: 0 <= j < i ==> PREFERRED[j] !in offered
    ensures suite !in offered ==> forall p :: p in PREFERRED ==> p !in offered
  {
    for i := 0 to |PREFERRED|
      invariant forall j :: 0 <= j < i ==> PREFERRED[j] !in offered
    {
      for k := 0 to |offered|
        invariant PREFERRED[i] !in offered[..k]
      {
        if offered[k] == PREFERRED[i] {
          return PREFERRED[i];
        }
        assert offered[..k + 1] == offered[..k] + [offered[k]];
      }
      assert offered[..|offered|] == offered;
    }
    suite := 0x1301;
    assert suite == PREFERRED[0];
  }

  function Zeros(n: nat): (z: seq<byte>)
    ensures |z| == n
  {
    seq(n, _ => 0)
  }

  /** The first 43 bytes of the flight. */
  function Head(recordLen: seq<byte>, bodyLen: seq<byte>, random: seq<byte>): seq<byte> {
    [HANDSHAKE_RECORD, 3, 3] + recordLen + [0x02, 0x00] + bodyLen + [3, 3] + random
  }

  lemma HeadPatches(tail: seq<byte>, a: seq<byte>, b: seq<byte>)
    requires |a| == |b| == 2
    ensures var sh := Head([0, 0], [0, 0], Zeros(32)) + tail;
      |sh| == 43 + |tail| && sh[3 := a[0]][4 := a[1]][7 := b[0]][8 := b[1]] == Head(a, b, Zeros(32)) + tail
  {
  }

  /** sh before anything is appended to it. */
  method BlankHello(sessionLen: byte) returns (sh: seq<byte>)
    ensures sh == Head([0, 0], [0, 0], Zeros(32)) + [sessionLen]
  {
    sh := Zeros(44);
    sh := sh[0 := HANDSHAKE_RECORD][1 := 3][2 := 3][5 := 2][9 := 3][10 := 3];
    sh := sh[43 := sessionLen];
  }

  lemma HelloIs(f: Flight)
    requires |f.random| == 32
    ensures 5 + |f.Handshake()| == 43 + |f.Tail()|
    ensures Record(HANDSHAKE_RECORD, 3, 3, f.Handshake()).Encode()
         == Head(PutBe16(38 + |f.Tail()|), PutBe16(34 + |f.Tail()|), f.random) + f.Tail()
  {
  }

  /** The handshake record, its random still zero: appended piece by piece, with both lengths patched in at the end. */
  method BuildHello(session: seq<byte>, suite: nat, group: nat, keyShare: seq<byte>,
                    ghost f: Flight) returns (sh: seq<byte>)
    requires f.random == Zeros(32) && (f.session, f.suite, f.group, f.keyShare) == (session, suite, group, keyShare)
    ensures sh == Record(HANDSHAKE_RECORD, 3, 3, f.Handshake()).Encode()
  {
    sh := BlankHello(|session| % 0x100);
    ghost var head, tail := Head([0, 0], [0, 0], Zeros(32)), [|session| % 0x100];
    sh, tail := Grow(sh, session, head, tail);
    sh, tail := Grow(sh, PutBe16(suite), head, tail);
    sh, tail := Grow(sh, [0x00], head, tail);
    sh, tail := Grow(sh, PutBe16(14 + |keyShare|), head, tail);
    sh, tail := Grow(sh, [0x00, 0x2B, 0x00, 0x02, 0x03, 0x04, 0x00, 0x33], head, tail);
    sh, tail := Grow(sh, PutBe16(4 + |keyShare|), head, tail);
    sh, tail := Grow(sh, PutBe16(group), head, tail);
    sh, tail := Grow(sh, PutBe16(|keyShare|), head, tail);
    sh, tail := Grow(sh, keyShare, head, tail);
    TailIs(f);
    sh := PatchLengths(sh, f);
  }

  /** append, and the same step on what follows `head`. */
  method Grow(sh: seq<byte>, more: seq<byte>, ghost head: seq<byte>, ghost tail: seq<byte>)
    returns (grown: seq<byte>, ghost grownTail: seq<byte>)
    requires sh == head + tail
    ensures grownTail == tail + more && grown == head + grownTail
  {
    grown, grownTail := sh + more, tail + more;
    Assoc(head, tail, more);
  }

  method PatchLengths(blank: seq<byte>, ghost f: Flight) returns (sh: seq<byte>)
    requires f.random == Zeros(32) && blank == Head([0, 0], [0, 0], Zeros(32)) + f.Tail()
    ensures sh == Record(HANDSHAKE_RECORD, 3, 3, f.Handshake()).Encode()
  {
    HeadPatches(f.Tail(), [0, 0], [0, 0]);
    HelloIs(f);
    var recordLen, bodyLen := PutBe16(|blank| - 5), PutBe16(|blank| - 9);
    HeadPatches(f.Tail(), recordLen, bodyLen);
    sh := blank[3 := recordLen[0]][4 := recordLen[1]];
    sh := sh[7 := bodyLen[0]][8 := bodyLen[1]];
  }

  /** The bytes of the two extensions, in the order in which they are appended. */
  lemma ExtensionBytes(f: Flight)
    ensures EncodeEntries(f.Extensions())
         == [0x00, 0x2B, 0x00, 0x02, 0x03, 0x04, 0x00, 0x33] + PutBe16(4 + |f.keyShare|) + PutBe16(f.group)
            + PutBe16(|f.keyShare|) + f.keyShare
  {
    var es := f.Extensions();
    var a, b, c, d := [0x00, 0x33], PutBe16(4 + |f.keyShare|), PutBe16(f.group), PutBe16(|f.keyShare|);
    TwoEntries(es[0], es[1]);
    VersionBytes();
    assert PutBe16(0x33) == a;
    Flatten(es[0].Encode(), a, b, c, d, f.keyShare);
  }

  lemma VersionBytes()
    ensures Entry(0x2B, [0x03, 0x04]).Encode() + [0x00, 0x33] == [0x00, 0x2B, 0x00, 0x02, 0x03, 0x04, 0x00, 0x33]
  {
    assert PutBe16(0x2B) == [0x00, 0x2B] && PutBe16(2) == [0x00, 0x02];
  }

  lemma Flatten<T>(x: seq<T>, a: seq<T>, b: seq<T>, c: seq<T>, d: seq<T>, e: seq<T>)
    ensures x + (a + (b + (c + (d + e)))) == x + a + b + c + d + e
  {
    Assoc(x, a, b + (c + (d + e)));
    Assoc(x + a, b, c + (d + e));
    Assoc(x + a + b, c, d + e);
    Assoc(x + a + b + c, d, e);
  }

  lemma Unnest<T>(x: seq<T>, a: seq<T>, b: seq<T>, c: seq<T>, d: seq<T>, e: seq<T>)
    ensures x + (a + b + c + d + e) == x + a + b + c + d + e
  {
    Assoc(x, a + b + c + d, e);
    Assoc(x, a + b + c, d);
    Assoc(x, a + b, c);
    Assoc(x, a, b);
  }

  lemma TailIs(f: Flight)
    ensures f.Tail() == [|f.session| % 0x100] + f.session + PutBe16(f.suite) + [0x00] + PutBe16(14 + |f.keyShare|)
      + [0x00, 0x2B, 0x00, 0x02, 0x03, 0x04, 0x00, 0x33] + PutBe16(4 + |f.keyShare|)
      + PutBe16(f.group) + PutBe16(|f.keyShare|) + f.keyShare
  {
    ExtensionsSize(f);
    ExtensionBytes(f);
    var es := EncodeEntries(f.Extensions());
    var session, suite, n := Vec8(f.session), PutBe16(f.suite), PutBe16(14 + |f.keyShare|);
    Assoc(session, suite + [0x00], n + es);
    Assoc(session, suite, [0x00]);
    Assoc(session + suite + [0x00], n, es);
    Unnest(session + suite + [0x00] + n, [0x00, 0x2B, 0x00, 0x02, 0x03, 0x04, 0x00, 0x33], PutBe16(4 + |f.keyShare|),
           PutBe16(f.group), PutBe16(|f.keyShare|), f.keyShare);
  }

  /** The flight with its random field blank. */
  function Blanked(response: seq<byte>): seq<byte>
    requires |response| >= 43
  {
    response[..11] + Zeros(32) + response[43..]
  }

  /** The flight that is due: the session id echoed, an offered suite if any supported one is, a hybrid key share
      answered by a hybrid one, application data of the profile's size within 64 to 16384, and as random the HMAC of
      the client's random and the flight without it. */
  ghost predicate Due(f: Flight, response: seq<byte>, hmac: Hmac, secret: seq<byte>, clientRandom: seq<byte>,
                      session: seq<byte>, info: Info, appDataLen: int, r: Random)
    requires |response| >= 43
  {
    var hybrid := X25519_MLKEM768 in info.shares && info.shares[X25519_MLKEM768] == 1216;
    && response == EncodeAll(f.ToRecords())
    && f.session == session
    && f.suite in PREFERRED && (f.suite in info.suites || forall p :: p in PREFERRED ==> p !in info.suites)
    && (f.group, f.keyShare)
       == (if hybrid then (X25519_MLKEM768, r.ciphertext + r.publicKey) else (X25519, r.publicKey))
    && |f.appData| == (if appDataLen > 0 then Max(64, Min(appDataLen, RECORD_MAX)) else r.size)
    && f.random == hmac(secret, clientRandom + Blanked(response))
  }

  /** A session id longer than its one-byte length can say is never what a client decodes. */
  lemma DecodedSession(wire: seq<byte>)
    requires DecodeFlight(wire).Some?
    ensures |DecodeFlight(wire).value.session| < 0x100
  {
  }

  /** buildFakeTLSServerHello: for every session id the three records of the flight that is due. A client decodes
      that very flight, with every nested length right, exactly when the session id's length fits its byte. */
  method BuildServerHello(hmac: Hmac, secret: seq<byte>, clientRandom: seq<byte>, session: seq<byte>, info: Info,
                          appDataLen: int, r: Random)
    returns (response: seq<byte>, ghost f: Flight)
    requires r.Valid() && forall k, d :: |hmac(k, d)| == 32
    ensures |response| >= 43 && Due(f, response, hmac, secret, clientRandom, session, info, appDataLen, r)
    ensures DecodeFlight(response) == Some(f) <==> |session| < 0x100
  {
    var suite := SelectSuite(info.suites);
    var group, keyShare, encData := ChooseParts(info, appDataLen, r);
    ghost var blank := Flight(Zeros(32), session, suite, group, keyShare, encData);
    var sh := BuildHello(session, suite, group, keyShare, blank);
    response, f := Assemble(hmac, secret, clientRandom, sh, encData, blank);
    WhenDecoded(f);
  }

  /** The key share that answers the client's, and the application data. */
  method ChooseParts(info: Info, appDataLen: int, r: Random) returns (group: nat, keyShare: seq<byte>,
                                                                      encData: seq<byte>)
    requires r.Valid()
    ensures var hybrid := X25519_MLKEM768 in info.shares && info.shares[X25519_MLKEM768] == 1216;
      (group, keyShare) == if hybrid then (X25519_MLKEM768, r.ciphertext + r.publicKey) else (X25519, r.publicKey)
    ensures |encData| == if appDataLen > 0 then Max(64, Min(appDataLen, RECORD_MAX)) else r.size
    ensures group < 0x10000 && |keyShare| <= 1120 && 64 <= |encData| <= RECORD_MAX
  {
    group, keyShare := X25519, r.publicKey;
    if X25519_MLKEM768 in info.shares && info.shares[X25519_MLKEM768] == 1216 {
      group, keyShare := X25519_MLKEM768, r.ciphertext + r.publicKey;
    }
    var encSize := if appDataLen <= 0 then r.size else Max(64, Min(appDataLen, RECORD_MAX));
    encData := seq(encSize, i requires 0 <= i < encSize => r.filler(i));
  }

  lemma WhenDecoded(f: Flight)
    requires |f.random| == 32 && f.suite < 0x10000 && f.group < 0x10000 && |f.keyShare| < 0x8000
    requires |f.appData| < 0x10000
    ensures DecodeFlight(EncodeAll(f.ToRecords())) == Some(f) <==> |f.session| < 0x100
  {
    if f.WellFormed() {
      FlightDecodes(f);
    } else if DecodeFlight(EncodeAll(f.ToRecords())) == Some(f) {
      DecodedSession(EncodeAll(f.ToRecords()));
      assert false;
    }
  }

  /** Puts the three records together and the random in. */
  method Assemble(hmac: Hmac, secret: seq<byte>, clientRandom: seq<byte>, sh: seq<byte>, encData: seq<byte>,
                  ghost blank: Flight)
    returns (response: seq<byte>, ghost f: Flight)
    requires blank.random == Zeros(32) && blank.appData == encData && forall k, d :: |hmac(k, d)| == 32
    requires sh == Record(HANDSHAKE_RECORD, 3, 3, blank.Handshake()).Encode()
    ensures |response| >= 43 && f == blank.(random := hmac(secret, clientRandom + Blanked(response)))
    ensures response == EncodeAll(f.ToRecords())
  {
    var appRecord := [APP_DATA, 0x03, 0x03] + PutBe16(|encData|) + encData;
    response := sh + [0x14, 0x03, 0x03, 0x00, 0x01, 0x01] + appRecord;
    var serverRandom := hmac(secret, clientRandom + response);
    f := blank.(random := serverRandom);
    FlightIs(blank);
    FlightIs(f);
    PatchRandom(Before(blank), Zeros(32), Behind(blank));
    PatchRandom(Before(f), serverRandom, Behind(f));
    SameAround(blank, f);
    response := response[..11] + serverRandom + response[43..];
  }

  /** What comes before and after the random field. */
  ghost function Before(f: Flight): seq<byte> {
    [HANDSHAKE_RECORD, 3, 3] + PutBe16(38 + |f.Tail()|) + [0x02, 0x00] + PutBe16(34 + |f.Tail()|) + [3, 3]
  }

  ghost function Behind(f: Flight): seq<byte> {
    f.Tail() + ([0x14, 0x03, 0x03, 0x00, 0x01, 0x01] + ([APP_DATA, 0x03, 0x03] + PutBe16(|f.appData|) + f.appData))
  }

  lemma SameAround(f: Flight, g: Flight)
    requires g == f.(random := g.random)
    ensures Before(f) == Before(g) && Behind(f) == Behind(g)
  {
    assert f.Tail() == g.Tail();
  }

  lemma PatchRandom(before: seq<byte>, random: seq<byte>, behind: seq<byte>)
    requires |before| == 11 && |random| == 32
    ensures var w := before + random + behind; |w| >= 43 && w[..11] == before && w[43..] == behind
  {
  }

  /** The flight's bytes, record by record as they are put together, and around the random. */
  lemma FlightIs(f: Flight)
    requires |f.random| == 32
    ensures EncodeAll(f.ToRecords())
         == Record(HANDSHAKE_RECORD, 3, 3, f.Handshake()).Encode() + [0x14, 0x03, 0x03, 0x00, 0x01, 0x01]
            + ([APP_DATA, 0x03, 0x03] + PutBe16(|f.appData|) + f.appData)
         == Before(f) + f.random + Behind(f)
  {
    var rs := f.ToRecords();
    var more := [APP_DATA, 0x03, 0x03] + PutBe16(|f.appData|) + f.appData;
    ThreeRecords(rs[0], rs[1], rs[2]);
    CcsBytes();
    HelloIs(f);
    Assoc(Before(f) + f.random, f.Tail(), rs[1].Encode() + more);
    Assoc(Before(f) + f.random + f.Tail(), rs[1].Encode(), more);
  }

  lemma CcsBytes()
    ensures Record(CCS, 3, 3, [0x01]).Encode() == [0x14, 0x03, 0x03, 0x00, 0x01, 0x01]
  {
    assert PutBe16(1) == [0x00, 0x01];
  }

  lemma ThreeRecords(a: Record, b: Record, c: Record)
    ensures EncodeAll([a, b, c]) == EncodeAll([a, b]) + c.Encode() == a.Encode() + b.Encode() + c.Encode()
  {
    assert [a, b, c][1..] == [b, c] && [b, c][1..] == [c] && [c][1..] == [];
    assert [a, b][1..] == [b] && [b][1..] == [];
    assert EncodeAll([c]) == c.Encode() + EncodeAll([]) == c.Encode();
    assert EncodeAll([b]) == b.Encode() + EncodeAll([]) == b.Encode();
    assert EncodeAll([b, c]) == b.Encode() + EncodeAll([c]);
    Assoc(a.Encode(), b.Encode(), c.Encode());
  }

  // ---------------------------------------------------------------------------------------------------------------
  // The probe
  // ---------------------------------------------------------------------------------------------------------------

  predicate ProbeLength(n: nat) {
    0 < n <= RECORD_MAX + 256
  }

  /** A record the probe passes over. */
  predicate Skipped(r: Record) {
    (r.kind == HANDSHAKE_RECORD || r.kind == CCS) && r.major == 3 && r.minor == 3 && ProbeLength(|r.body|)
  }

  function Probed(wire: seq<byte>): Option<nat>
    decreases |wire|
  {
    if |wire| < 5 then None else
    var n := Be16(wire[3], wire[4]);
    if wire[1] != 3 || wire[2] != 3 || !ProbeLength(n) then None
    else if wire[0] == APP_DATA then Some(n)
    else if wire[0] != HANDSHAKE_RECORD && wire[0] != CCS then None
    else if |wire| < 5 + n then None
    else Probed(wire[5..][n..])
  }

  /** The probe's loop over the stream: a header, and the body unless it is the application data's. */
  method Probe(stream: seq<byte>) returns (r: Option<nat>)
    ensures r == Probed(stream)
  {
    var wire := stream;
    while true
      invariant Probed(wire) == Probed(stream)
      decreases |wire|
    {
      if |wire| < 5 {
        return None;
      }
      var header := wire[..5];
      wire := wire[5..];
      var n := Be16(header[3], header[4]);
      if header[1] != 0x03 || header[2] != 0x03 || n == 0 || n > RECORD_MAX + 256 {
        return None;
      }
      if header[0] == APP_DATA {
        return Some(n);
      } else if header[0] == HANDSHAKE_RECORD || header[0] == CCS {
        if |wire| < n {
          return None;
        }
        wire := wire[n..];
      } else {
        return None;
      }
    }
  }

  /** Records to pass over, then the header of application data of `n` bytes, then anything. */
  ghost predicate ProbeShape(wire: seq<byte>, records: seq<Record>, n: nat, tail: seq<byte>) {
    && (forall i :: 0 <= i < |records| ==> Skipped(records[i]))
    && ProbeLength(n)
    && wire == EncodeAll(records) + ([APP_DATA, 3, 3] + PutBe16(n) + tail)
  }

  lemma {:induction false} ProbeFinds(wire: seq<byte>, records: seq<Record>, n: nat, tail: seq<byte>)
    requires ProbeShape(wire, records, n, tail)
    ensures Probed(wire) == Some(n)
    decreases |records|
  {
    if records == [] {
      assert wire == [APP_DATA, 3, 3] + PutBe16(n) + tail;
    } else {
      var r, rest := records[0], records[1..];
      var after := EncodeAll(rest) + ([APP_DATA, 3, 3] + PutBe16(n) + tail);
      Assoc(r.Encode(), EncodeAll(rest), [APP_DATA, 3, 3] + PutBe16(n) + tail);
      EncodeParts(r, after);
      assert wire[1] == r.major && wire[2] == r.minor;
      assert forall i :: 0 <= i < |rest| ==> rest[i] == records[i + 1];
      ProbeFinds(after, rest, n, tail);
    }
  }

  lemma {:induction false} ProbeFound(wire: seq<byte>) returns (records: seq<Record>, tail: seq<byte>)
    requires Probed(wire).Some?
    ensures ProbeShape(wire, records, Probed(wire).value, tail)
    decreases |wire|
  {
    var n := Be16(wire[3], wire[4]);
    PutBe16Be16(wire[3], wire[4]);
    if wire[0] == APP_DATA {
      records, tail := [], wire[5..];
      assert wire == [APP_DATA, 3, 3] + [wire[3], wire[4]] + tail;
      NoFront(wire);
    } else {
      var more;
      more, tail := ProbeFound(wire[5..][n..]);
      var r := Record(wire[0], 3, 3, wire[5..][..n]);
      records := [r] + more;
      EncodeHeader(wire, n);
      assert records[1..] == more;
      Assoc(r.Encode(), EncodeAll(more), [APP_DATA, 3, 3] + PutBe16(Probed(wire).value) + tail);
    }
  }

  /** The probe answers `n` exactly for streams of that shape. */
  lemma ProbeExact(wire: seq<byte>, n: nat)
    ensures Probed(wire) == Some(n) <==> exists records, tail :: ProbeShape(wire, records, n, tail)
  {
    if Probed(wire) == Some(n) {
      var records, tail := ProbeFound(wire);
    }
    forall records, tail | ProbeShape(wire, records, n, tail) ensures Probed(wire) == Some(n) {
      ProbeFinds(wire, records, n, tail);
    }
  }

  lemma FlightProbes(f: Flight)
    requires |f.random| == 32 && ProbeLength(|f.appData|) && |f.Handshake()| < 0x10000
    ensures Probed(EncodeAll(f.ToRecords())) == if ProbeLength(|f.Handshake()|) then Some(|f.appData|) else None
  {
    var rs := f.ToRecords();
    ThreeRecords(rs[0], rs[1], rs[2]);
    ExtensionsSize(f);
    if ProbeLength(|f.Handshake()|) {
      ProbeFinds(EncodeAll(rs), [rs[0], rs[1]], |f.appData|, f.appData);
    } else {
      Assoc(rs[0].Encode(), rs[1].Encode(), rs[2].Encode());
      EncodeParts(rs[0], rs[1].Encode() + rs[2].Encode());
    }
  }

  /** Probing one's own flight gives the profile back, brought within 64 to 16384, as long as the flight's first
      record has a length the probe accepts; with a longer one, for session ids of kilobytes, the probe fails. */
  method ProbeOwnFlight(hmac: Hmac, secret: seq<byte>, clientRandom: seq<byte>, session: seq<byte>, info: Info,
                        appDataLen: int, r: Random)
    returns (n: Option<nat>)
    requires r.Valid() && forall k, d :: |hmac(k, d)| == 32
    ensures var hybrid := X25519_MLKEM768 in info.shares && info.shares[X25519_MLKEM768] == 1216;
      var length := 58 + |session| + if hybrid then 1120 else 32;
      var size := if appDataLen > 0 then Max(64, Min(appDataLen, RECORD_MAX)) else r.size;
      length < 0x10000 ==> n == if length <= RECORD_MAX + 256 then Some(size) else None
  {
    var response, f := BuildServerHello(hmac, secret, clientRandom, session, info, appDataLen, r);
    ExtensionsSize(f);
    if |f.Handshake()| < 0x10000 {
      FlightProbes(f);
    }
    n := Probe(response);
  }

  // ---------------------------------------------------------------------------------------------------------------
  // Recognizing a client
  // ---------------------------------------------------------------------------------------------------------------

  const TOLERANCE: int := 120

  function PutLe32(x: nat): (out: seq<byte>)
    ensures |out| == 4
  {
    var y := x / 0x100;
    var z := y / 0x100;
    [x % 0x100, y % 0x100, z % 0x100, z / 0x100 % 0x100]
  }

  lemma LowByte(a: byte, rest: nat)
    ensures ((a as int) + 0x100 * rest) % 0x100 == a && ((a as int) + 0x100 * rest) / 0x100 == rest
  {
  }

  lemma PutLe32Le32(a: byte, b: byte, c: byte, d: byte)
    ensures PutLe32(Le32(a, b, c, d)) == [a, b, c, d]
  {
    var z := (c as int) + 0x100 * (d as int);
    var y := (b as int) + 0x100 * z;
    assert Le32(a, b, c, d) == (a as int) + 0x100 * y;
    LowByte(a, y);
    LowByte(b, z);
    LowByte(c, d as int);
    LowByte(d, 0);
  }

  lemma Le32PutLe32(x: nat)
    requires x < 0x100000000
    ensures var p := PutLe32(x);
      && p[0] as int + 0x100 * (p[1] as int) + 0x10000 * (p[2] as int) + 0x1000000 * (p[3] as int) == x
      && Le32(p[0], p[1], p[2], p[3]) == x
  {
    var y := x / 0x100;
    var z := y / 0x100;
    var w := z / 0x100;
    assert w < 0x100;
    assert x == x % 0x100 + 0x100 * y && y == y % 0x100 + 0x100 * z && z == z % 0x100 + 0x100 * w;
  }

  /** The random of a client that knows the secret: the HMAC of its hello without the random, the last four bytes
      combined with its clock. */
  function ClientRandom(hmac: Hmac, secret: seq<byte>, data: seq<byte>, timestamp: nat): seq<byte>
    requires |data| >= 43 && forall k, d :: |hmac(k, d)| == 32
  {
    var expected, ts := hmac(secret, Blanked(data)), PutLe32(timestamp);
    expected[..28]
    + [Xor(ts[0], expected[28]), Xor(ts[1], expected[29]), Xor(ts[2], expected[30]), Xor(ts[3], expected[31])]
  }

  ghost predicate Signed(hmac: Hmac, secret: seq<byte>, data: seq<byte>, timestamp: nat)
    requires |data| >= 43 && forall k, d :: |hmac(k, d)| == 32
  {
    timestamp < 0x100000000 && data[11..43] == ClientRandom(hmac, secret, data, timestamp)
  }

  method ZeroRandom(data: seq<byte>) returns (zeroed: seq<byte>)
    requires |data| >= 43
    ensures zeroed == Blanked(data)
  {
    zeroed := data;
    for i := 0 to 32
      invariant |zeroed| == |data| && zeroed[..11] == data[..11] && zeroed[11 + i..] == data[11 + i..]
      invariant forall j :: 11 <= j < 11 + i ==> zeroed[j] == 0
    {
      zeroed := zeroed[11 + i := 0];
    }
  }

  /** A hello whose random is keyed with the secret, by a clock within two minutes. */
  ghost predicate LetIn(hmac: Hmac, secret: seq<byte>, data: seq<byte>, now: int)
    requires forall k, d :: |hmac(k, d)| == 32
  {
    && |data| >= 43 && data[0] == 0x16 && data[5] == 0x01
    && exists ts: nat :: Signed(hmac, secret, data, ts) && -120 <= now - ts <= 120
  }

  datatype Verified = Verified(clientRandom: seq<byte>, sessionID: seq<byte>)

  /** verifyFakeTLSClientHello: a client is let in exactly when it knows the secret and its clock is within two
      minutes. */
  method VerifyClientHello(hmac: Hmac, secret: seq<byte>, data: seq<byte>, now: int) returns (r: Option<Verified>)
    requires forall k, d :: |hmac(k, d)| == 32
    ensures r.Some? <==> LetIn(hmac, secret, data, now)
    ensures r.Some? ==>
      && r.value.clientRandom == data[11..43]
      && r.value.sessionID == if |data| >= 76 && data[43] == 0x20 then data[44..76] else Zeros(32)
  {
    if |data| < 43 {
      return None;
    }
    if data[0] != 0x16 || data[5] != 0x01 {
      return None;
    }
    var clientRandom := data[11..43];
    var zeroed := ZeroRandom(data);
    var expected := hmac(secret, zeroed);
    if expected[..28] != clientRandom[..28] {
      SignedStarts(hmac, secret, data);
      return None;
    }
    var timestamp := ReadClock(clientRandom, expected);
    ClockExact(hmac, secret, data, timestamp);
    assert Signed(hmac, secret, data, timestamp);
    if now - timestamp > TOLERANCE || timestamp - now > TOLERANCE {
      return None;
    }
    var sessionID := Zeros(32);
    if |data| >= 76 && data[43] == 0x20 {
      sessionID := data[44..76];
    }
    return Some(Verified(clientRandom, sessionID));
  }

  function ReadClock(random: seq<byte>, expected: seq<byte>): (ts: nat)
    requires |random| == |expected| == 32
    ensures ts < 0x100000000
  {
    Le32(Xor(random[28], expected[28]), Xor(random[29], expected[29]), Xor(random[30], expected[30]),
         Xor(random[31], expected[31]))
  }

  lemma SignedStarts(hmac: Hmac, secret: seq<byte>, data: seq<byte>)
    requires |data| >= 43 && forall k, d :: |hmac(k, d)| == 32
    ensures forall t: nat :: Signed(hmac, secret, data, t) ==> data[11..43][..28] == hmac(secret, Blanked(data))[..28]
  {
    forall t: nat | Signed(hmac, secret, data, t) ensures data[11..43][..28] == hmac(secret, Blanked(data))[..28] {
      assert ClientRandom(hmac, secret, data, t)[..28] == hmac(secret, Blanked(data))[..28];
    }
  }

  /** Only the clock that is read out can have been put in. */
  lemma ClockExact(hmac: Hmac, secret: seq<byte>, data: seq<byte>, ts: nat)
    requires |data| >= 43 && forall k, d :: |hmac(k, d)| == 32
    requires data[11..43][..28] == hmac(secret, Blanked(data))[..28]
    requires ts == ReadClock(data[11..43], hmac(secret, Blanked(data)))
    ensures forall t: nat :: Signed(hmac, secret, data, t) <==> t == ts
  {
    var random, e := data[11..43], hmac(secret, Blanked(data));
    var a, b, c, d := Xor(random[28], e[28]), Xor(random[29], e[29]), Xor(random[30], e[30]), Xor(random[31], e[31]);
    PutLe32Le32(a, b, c, d);
    XorCancel(random[28], e[28]);
    XorCancel(random[29], e[29]);
    XorCancel(random[30], e[30]);
    XorCancel(random[31], e[31]);
    assert random == random[..28] + [random[28], random[29], random[30], random[31]];
    forall t: nat | Signed(hmac, secret, data, t) ensures t == ts {
      var p := PutLe32(t);
      XorCancel(p[0], e[28]);
      XorCancel(p[1], e[29]);
      XorCancel(p[2], e[30]);
      XorCancel(p[3], e[31]);
      Le32PutLe32(t);
    }
  }
}
