/** The ClientHello: its nested-length grammar, and the parser that keeps the offered suites and key shares. */
module ClientHello {
  import opened Units
  import opened Bytes

  // ---------------------------------------------------------------------------------------------------------------
  // Length-prefixed vectors
  // ---------------------------------------------------------------------------------------------------------------

  datatype Cut = Cut(content: seq<byte>, rest: seq<byte>)

  /** A vector behind a one-byte length. */
  function Vec8(content: seq<byte>): seq<byte> {
    [|content| % 0x100] + content
  }

  function Cut8(b: seq<byte>): Option<Cut> {
    if |b| < 1 || |b| < 1 + b[0] as int then None else Some(Cut(b[1..1 + b[0] as int], b[1 + b[0] as int..]))
  }

  /** A vector behind a two-byte length. */
  function Vec16(content: seq<byte>): seq<byte> {
    PutBe16(|content|) + content
  }

  function Cut16(b: seq<byte>): Option<Cut> {
    if |b| < 2 || |b| < 2 + Be16(b[0], b[1]) then None
    else Some(Cut(b[2..2 + Be16(b[0], b[1])], b[2 + Be16(b[0], b[1])..]))
  }

  lemma Cut8Exact(b: seq<byte>, content: seq<byte>, rest: seq<byte>)
    ensures Cut8(b) == Some(Cut(content, rest)) <==> |content| < 0x100 && b == Vec8(content) + rest
  {
    if |content| < 0x100 && b == Vec8(content) + rest {
      assert b[1..] == content + rest;
      assert b[1..1 + |content|] == b[1..][..|content|] == content;
      assert b[1 + |content|..] == b[1..][|content|..] == rest;
    }
    if Cut8(b) == Some(Cut(content, rest)) {
      assert b == [b[0]] + b[1..1 + b[0] as int] + b[1 + b[0] as int..];
    }
  }

  lemma Cut16Exact(b: seq<byte>, content: seq<byte>, rest: seq<byte>)
    ensures Cut16(b) == Some(Cut(content, rest)) <==> |content| < 0x10000 && b == Vec16(content) + rest
  {
    if |content| < 0x10000 && b == Vec16(content) + rest {
      assert b[2..] == content + rest;
      assert b[2..2 + |content|] == b[2..][..|content|] == content;
      assert b[2 + |content|..] == b[2..][|content|..] == rest;
    }
    if Cut16(b) == Some(Cut(content, rest)) {
      PutBe16Be16(b[0], b[1]);
      assert b == [b[0], b[1]] + b[2..2 + Be16(b[0], b[1])] + b[2 + Be16(b[0], b[1])..];
    }
  }

  // ---------------------------------------------------------------------------------------------------------------
  // Lists of tagged entries: extensions, and key shares inside one of them
  // ---------------------------------------------------------------------------------------------------------------

  datatype Entry = Entry(tag: nat, body: seq<byte>) {
    predicate Fits() {
      tag < 0x10000 && |body| < 0x10000
    }

    function Encode(): seq<byte> {
      PutBe16(tag) + Vec16(body)
    }
  }

  function EncodeEntries(es: seq<Entry>): seq<byte> {
    if es == [] then [] else es[0].Encode() + EncodeEntries(es[1..])
  }

  /** One entry off the front. */
  datatype Front = Front(entry: Entry, rest: seq<byte>)

  function CutEntry(b: seq<byte>): (r: Option<Front>)
    ensures r.Some? ==> |r.value.rest| < |b|
  {
    if |b| < 4 then None else
    var c := Cut16(b[2..]);
    if c.None? then None else Some(Front(Entry(Be16(b[0], b[1]), c.value.content), c.value.rest))
  }

  lemma CutEntryExact(b: seq<byte>, e: Entry, rest: seq<byte>)
    ensures CutEntry(b) == Some(Front(e, rest)) <==> e.Fits() && b == e.Encode() + rest
  {
    if e.Fits() && b == e.Encode() + rest {
      Assoc(PutBe16(e.tag), Vec16(e.body), rest);
      assert b[2..] == Vec16(e.body) + rest;
      Cut16Exact(b[2..], e.body, rest);
    }
    if CutEntry(b) == Some(Front(e, rest)) {
      Cut16Exact(b[2..], e.body, rest);
      PutBe16Be16(b[0], b[1]);
      assert b == [b[0], b[1]] + b[2..];
      Assoc([b[0], b[1]], Vec16(e.body), rest);
    }
  }

  function DecodeEntries(b: seq<byte>): Option<seq<Entry>>
    decreases |b|
  {
    if b == [] then Some([]) else
    var f := CutEntry(b);
    if f.None? then None else
    var more := DecodeEntries(f.value.rest);
    if more.None? then None else Some([f.value.entry] + more.value)
  }

  ghost predicate AllFit(es: seq<Entry>) {
    forall i :: 0 <= i < |es| ==> es[i].Fits()
  }

  lemma AllFitSplit(es: seq<Entry>)
    requires es != []
    ensures AllFit(es) <==> es[0].Fits() && AllFit(es[1..])
  {
    assert forall i :: 0 <= i < |es[1..]| ==> es[1..][i] == es[i + 1];
    assert forall i :: 0 < i < |es| ==> es[i] == es[1..][i - 1];
  }

  /** Bytes decode to exactly the one list that encodes to them. */
  lemma {:induction false} EntriesExact(b: seq<byte>, es: seq<Entry>)
    ensures DecodeEntries(b) == Some(es) <==> AllFit(es) && b == EncodeEntries(es)
    decreases |b|
  {
    if b == [] {
      if es != [] {
        assert |EncodeEntries(es)| > 0;
      }
    } else if es != [] {
      var rest := EncodeEntries(es[1..]);
      CutEntryExact(b, es[0], rest);
      var f := CutEntry(b);
      if f.Some? {
        CutEntryExact(b, f.value.entry, f.value.rest);
        EntriesExact(f.value.rest, es[1..]);
      }
      AllFitSplit(es);
      assert DecodeEntries(b) == Some(es) ==> f.value.entry == es[0] && DecodeEntries(f.value.rest) == Some(es[1..]);
      assert es == [es[0]] + es[1..];
    }
  }

  // ---------------------------------------------------------------------------------------------------------------
  // Extensions
  // ---------------------------------------------------------------------------------------------------------------

  const KEY_SHARE: nat := 0x0033

  datatype Extension = Other(tag: nat, body: seq<byte>) | KeyShare(shares: seq<Entry>) {
    ghost predicate WellFormed() {
      match this
      case Other(tag, body) => tag != KEY_SHARE && Entry(tag, body).Fits()
      case KeyShare(shares) => AllFit(shares) && 2 + |EncodeEntries(shares)| < 0x10000
    }

    function ToEntry(): Entry {
      match this
      case Other(tag, body) => Entry(tag, body)
      case KeyShare(shares) => Entry(KEY_SHARE, Vec16(EncodeEntries(shares)))
    }
  }

  function FromEntry(e: Entry): Option<Extension> {
    if e.tag != KEY_SHARE then Some(Other(e.tag, e.body)) else
    var c := Cut16(e.body);
    if c.None? || c.value.rest != [] then None else
    var shares := DecodeEntries(c.value.content);
    if shares.None? then None else Some(KeyShare(shares.value))
  }

  lemma FromEntryExact(e: Entry, x: Extension)
    ensures e.Fits() && FromEntry(e) == Some(x) <==> x.WellFormed() && e == x.ToEntry()
  {
    if x.KeyShare? {
      var content := EncodeEntries(x.shares);
      Cut16Exact(e.body, content, []);
      assert Vec16(content) + [] == Vec16(content);
      EntriesExact(content, x.shares);
      var c := Cut16(e.body);
      if c.Some? {
        Cut16Exact(e.body, c.value.content, c.value.rest);
        EntriesExact(c.value.content, x.shares);
      }
    }
  }

  function EncodeExts(xs: seq<Extension>): seq<byte> {
    if xs == [] then [] else xs[0].ToEntry().Encode() + EncodeExts(xs[1..])
  }

  function DecodeExts(b: seq<byte>): Option<seq<Extension>>
    decreases |b|
  {
    if b == [] then Some([]) else
    var f := CutEntry(b);
    if f.None? then None else
    var x := FromEntry(f.value.entry);
    if x.None? then None else
    var more := DecodeExts(f.value.rest);
    if more.None? then None else Some([x.value] + more.value)
  }

  ghost predicate AllWellFormed(xs: seq<Extension>) {
    forall i :: 0 <= i < |xs| ==> xs[i].WellFormed()
  }

  lemma AllWellFormedSplit(xs: seq<Extension>)
    requires xs != []
    ensures AllWellFormed(xs) <==> xs[0].WellFormed() && AllWellFormed(xs[1..])
  {
    assert forall i :: 0 <= i < |xs[1..]| ==> xs[1..][i] == xs[i + 1];
    assert forall i :: 0 < i < |xs| ==> xs[i] == xs[1..][i - 1];
  }

  lemma {:induction false} ExtsExact(b: seq<byte>, xs: seq<Extension>)
    ensures DecodeExts(b) == Some(xs) <==> AllWellFormed(xs) && b == EncodeExts(xs)
    decreases |b|
  {
    if b == [] {
      if xs != [] {
        assert |EncodeExts(xs)| > 0;
      }
    } else if xs != [] {
      var rest := EncodeExts(xs[1..]);
      AllWellFormedSplit(xs);
      CutEntryExact(b, xs[0].ToEntry(), rest);
      FromEntryExact(xs[0].ToEntry(), xs[0]);
      var f := CutEntry(b);
      if f.Some? {
        CutEntryExact(b, f.value.entry, f.value.rest);
        FromEntryExact(f.value.entry, xs[0]);
        ExtsExact(f.value.rest, xs[1..]);
      }
      assert DecodeExts(b) == Some(xs) ==>
          FromEntry(f.value.entry) == Some(xs[0]) && DecodeExts(f.value.rest) == Some(xs[1..]);
      assert xs == [xs[0]] + xs[1..];
    }
  }

  // ---------------------------------------------------------------------------------------------------------------
  // Cipher suites
  // ---------------------------------------------------------------------------------------------------------------

  function EncodeSuites(suites: seq<nat>): (b: seq<byte>)
    ensures |b| == 2 * |suites|
  {
    if suites == [] then [] else PutBe16(suites[0]) + EncodeSuites(suites[1..])
  }

  function DecodeSuites(b: seq<byte>): seq<nat> {
    if |b| < 2 then [] else [Be16(b[0], b[1])] + DecodeSuites(b[2..])
  }

  ghost predicate SuitesFit(suites: seq<nat>) {
    forall i :: 0 <= i < |suites| ==> suites[i] < 0x10000
  }

  lemma {:induction false} SuitesDecode(suites: seq<nat>)
    requires SuitesFit(suites)
    ensures DecodeSuites(EncodeSuites(suites)) == suites
  {
    if suites == [] {
    } else {
      SuitesDecode(suites[1..]);
      var put := PutBe16(suites[0]);
      assert Be16(put[0], put[1]) == suites[0];
      assert EncodeSuites(suites)[2..] == EncodeSuites(suites[1..]);
    }
  }

  lemma {:induction false} SuitesEncode(b: seq<byte>)
    requires |b| % 2 == 0
    ensures SuitesFit(DecodeSuites(b)) && EncodeSuites(DecodeSuites(b)) == b
  {
    if b == [] {
    } else {
      SuitesEncode(b[2..]);
      PutBe16Be16(b[0], b[1]);
      assert DecodeSuites(b)[1..] == DecodeSuites(b[2..]);
      assert b == [b[0], b[1]] + b[2..];
    }
  }

  lemma SuitesExact(b: seq<byte>, suites: seq<nat>)
    ensures |b| % 2 == 0 && DecodeSuites(b) == suites <==> SuitesFit(suites) && b == EncodeSuites(suites)
  {
    if SuitesFit(suites) && b == EncodeSuites(suites) {
      SuitesDecode(suites);
    }
    if |b| % 2 == 0 {
      SuitesEncode(b);
    }
  }

  // ---------------------------------------------------------------------------------------------------------------
  // The whole message
  // ---------------------------------------------------------------------------------------------------------------

  /** From the session id on. */
  datatype Body = Body(session: seq<byte>, suites: seq<nat>, compression: seq<byte>, exts: seq<Extension>) {
    ghost predicate WellFormed() {
      && |session| <= 32
      && suites != [] && SuitesFit(suites) && 2 * |suites| < 0x10000
      && 0 < |compression| < 0x100
      && AllWellFormed(exts) && |EncodeExts(exts)| < 0x10000
    }

    function Encode(): seq<byte> {
      Vec8(session) + (Vec16(EncodeSuites(suites)) + (Vec8(compression) + Vec16(EncodeExts(exts))))
    }
  }

  /** From the compression methods on. */
  function DecodeTail(b: seq<byte>): Option<(seq<byte>, seq<Extension>)> {
    var c := Cut8(b);
    if c.None? || c.value.content == [] then None else
    var d := Cut16(c.value.rest);
    if d.None? || d.value.rest != [] then None else
    var xs := DecodeExts(d.value.content);
    if xs.None? then None else Some((c.value.content, xs.value))
  }

  /** From the cipher suites on, for a given session id. */
  function DecodeOffer(session: seq<byte>, b: seq<byte>): Option<Body> {
    var c := Cut16(b);
    if c.None? || c.value.content == [] || |c.value.content| % 2 != 0 then None else
    var tail := DecodeTail(c.value.rest);
    if tail.None? then None else Some(Body(session, DecodeSuites(c.value.content), tail.value.0, tail.value.1))
  }

  function DecodeBody(b: seq<byte>): Option<Body> {
    var c := Cut8(b);
    if c.None? || |c.value.content| > 32 then None else DecodeOffer(c.value.content, c.value.rest)
  }

  lemma DecodeEncodedTail(compression: seq<byte>, exts: seq<Extension>)
    requires 0 < |compression| < 0x100 && AllWellFormed(exts) && |EncodeExts(exts)| < 0x10000
    ensures DecodeTail(Vec8(compression) + Vec16(EncodeExts(exts))) == Some((compression, exts))
  {
    var b := EncodeExts(exts);
    Cut8Exact(Vec8(compression) + Vec16(b), compression, Vec16(b));
    assert Vec16(b) == Vec16(b) + [];
    Cut16Exact(Vec16(b), b, []);
    ExtsExact(b, exts);
  }

  lemma DecodeEncoded(x: Body)
    requires x.WellFormed()
    ensures DecodeBody(x.Encode()) == Some(x)
  {
    var suites := EncodeSuites(x.suites);
    var tail := Vec8(x.compression) + Vec16(EncodeExts(x.exts));
    Cut8Exact(x.Encode(), x.session, Vec16(suites) + tail);
    Cut16Exact(Vec16(suites) + tail, suites, tail);
    DecodeEncodedTail(x.compression, x.exts);
    SuitesExact(suites, x.suites);
  }

  lemma EncodeDecoded(b: seq<byte>, x: Body)
    requires DecodeBody(b) == Some(x)
    ensures x.WellFormed() && x.Encode() == b
  {
    var c1 := Cut8(b).value;
    var c2 := Cut16(c1.rest).value;
    var c3 := Cut8(c2.rest).value;
    var c4 := Cut16(c3.rest).value;
    Cut8Exact(b, c1.content, c1.rest);
    Cut16Exact(c1.rest, c2.content, c2.rest);
    Cut8Exact(c2.rest, c3.content, c3.rest);
    Cut16Exact(c3.rest, c4.content, []);
    assert Vec16(c4.content) + [] == Vec16(c4.content);
    ExtsExact(c4.content, x.exts);
    SuitesExact(c2.content, x.suites);
  }

  function Be24(a: byte, b: byte, c: byte): nat {
    (a as int) * 0x10000 + Be16(b, c)
  }

  /** A handshake record that holds one ClientHello; `prefix` is the client version and random. */
  datatype Hello = Hello(major: byte, minor: byte, prefix: seq<byte>, body: Body) {
    ghost predicate WellFormed() {
      |prefix| == 34 && body.WellFormed() && 38 + |body.Encode()| < 0x10000
    }

    function Encode(): seq<byte> {
      Header(major, minor, 43 + |body.Encode()|) + prefix + body.Encode()
    }
  }

  /** The first nine bytes of a record of `n` bytes in all; the handshake length has three bytes and never needs the
      first. */
  function Header(major: byte, minor: byte, n: nat): seq<byte>
    requires n >= 9
  {
    [0x16, major, minor] + PutBe16(n - 5) + [0x01, 0x00] + PutBe16(n - 9)
  }

  predicate Headed(data: seq<byte>) {
    && |data| >= 44 && data[0] == 0x16 && data[5] == 0x01
    && Be16(data[3], data[4]) == |data| - 5
    && Be24(data[6], data[7], data[8]) == |data| - 9
  }

  function DecodeHello(data: seq<byte>): Option<Hello> {
    if !Headed(data) then None else
    var b := DecodeBody(data[43..]);
    if b.None? then None else Some(Hello(data[1], data[2], data[9..43], b.value))
  }

  lemma HeaderReads(data: seq<byte>)
    requires |data| >= 44 && |data| - 5 < 0x10000 && data[..9] == Header(data[1], data[2], |data|)
    ensures Headed(data)
  {
    NineBytes(data, data[1], data[2], PutBe16(|data| - 5), PutBe16(|data| - 9));
  }

  lemma NineBytes(data: seq<byte>, major: byte, minor: byte, len: seq<byte>, long: seq<byte>)
    requires |data| >= 9 && |len| == |long| == 2 && data[..9] == [0x16, major, minor] + len + [0x01, 0x00] + long
    ensures data[0] == 0x16 && data[5] == 0x01 && data[6] == 0
    ensures data[3] == len[0] && data[4] == len[1]
    ensures data[7] == long[0] && data[8] == long[1]
  {
    var head := data[..9];
    assert data[0] == head[0] && data[3] == head[3] && data[4] == head[4] && data[5] == head[5];
    assert data[6] == head[6] && data[7] == head[7] && data[8] == head[8];
  }

  lemma HeaderWrites(data: seq<byte>)
    requires Headed(data)
    ensures |data| - 5 < 0x10000 && data[..9] == Header(data[1], data[2], |data|)
  {
    assert data[6] == 0;
    PutBe16Be16(data[3], data[4]);
    PutBe16Be16(data[7], data[8]);
    assert data[..9] == [data[0], data[1], data[2]] + [data[3], data[4]] + [data[5], data[6]] + [data[7], data[8]];
  }

  lemma DecodeEncodedHello(h: Hello)
    requires h.WellFormed()
    ensures DecodeHello(h.Encode()) == Some(h)
  {
    var data, body := h.Encode(), h.body.Encode();
    var head := Header(h.major, h.minor, 43 + |body|);
    assert |body| >= 1;
    assert data[..9] == head && data[9..43] == h.prefix && data[43..] == body;
    assert data[1] == head[1] && data[2] == head[2];
    HeaderReads(data);
    DecodeEncoded(h.body);
  }

  lemma EncodeDecodedHello(data: seq<byte>, h: Hello)
    requires DecodeHello(data) == Some(h)
    ensures h.WellFormed() && data == h.Encode()
  {
    EncodeDecoded(data[43..], h.body);
    HeaderWrites(data);
    ThreeParts(data, 9, 43);
  }

  lemma ThreeParts<T>(s: seq<T>, i: nat, j: nat)
    requires i <= j <= |s|
    ensures s == s[..i] + s[i..j] + s[j..]
  {
  }

  /** The decoder and the grammar agree: a byte string decodes to `h` exactly when it is the encoding of a
      well-formed `h`. */
  lemma HelloExact(data: seq<byte>, h: Hello)
    ensures DecodeHello(data) == Some(h) <==> h.WellFormed() && data == h.Encode()
  {
    if h.WellFormed() && data == h.Encode() {
      DecodeEncodedHello(h);
    }
    if DecodeHello(data) == Some(h) {
      EncodeDecodedHello(data, h);
    }
  }

  // ---------------------------------------------------------------------------------------------------------------
  // What the parser keeps
  // ---------------------------------------------------------------------------------------------------------------

  datatype Info = Info(suites: seq<nat>, shares: map<nat, nat>)

  const EMPTY: Info := Info([], map[])

  /** Of several entries with one tag, the first one's length stays. */
  function Note(m: map<nat, nat>, e: Entry): map<nat, nat> {
    if e.tag in m then m else m[e.tag := |e.body|]
  }

  function NoteAll(m: map<nat, nat>, es: seq<Entry>): map<nat, nat>
    decreases |es|
  {
    if es == [] then m else NoteAll(Note(m, es[0]), es[1..])
  }

  function SharesOf(xs: seq<Extension>): seq<Entry> {
    if xs == [] then [] else (if xs[0].KeyShare? then xs[0].shares else []) + SharesOf(xs[1..])
  }

  function Summary(h: Hello): Info {
    Info(h.body.suites, NoteAll(map[], SharesOf(h.body.exts)))
  }

  predicate FirstOf(es: seq<Entry>, i: nat) {
    i < |es| && forall j :: 0 <= j < i ==> es[j].tag != es[i].tag
  }

  /** A group is noted with the length of its first share, and no other group is. */
  lemma {:induction false} NotesFirst(m: map<nat, nat>, es: seq<Entry>, g: nat)
    ensures g in m ==> g in NoteAll(m, es) && NoteAll(m, es)[g] == m[g]
    ensures g !in m && g in NoteAll(m, es) ==> exists i: nat :: FirstOf(es, i) && es[i].tag == g
    ensures forall i: nat :: FirstOf(es, i) && es[i].tag == g && g !in m ==>
        g in NoteAll(m, es) && NoteAll(m, es)[g] == |es[i].body|
    decreases |es|
  {
    if es == [] {
    } else {
      var m1, rest := Note(m, es[0]), es[1..];
      NotesFirst(m1, rest, g);
      if es[0].tag == g {
        assert FirstOf(es, 0);
      } else {
        if g !in m && g in NoteAll(m, es) {
          var i: nat :| FirstOf(rest, i) && rest[i].tag == g;
          FirstShift(es, i);
        }
        forall i: nat | FirstOf(es, i) && es[i].tag == g && g !in m
          ensures g in NoteAll(m, es) && NoteAll(m, es)[g] == |es[i].body|
        {
          assert i > 0;
          FirstShift(es, i - 1);
          assert rest[i - 1] == es[i];
        }
      }
    }
  }

  lemma FirstShift(es: seq<Entry>, i: nat)
    requires i + 1 < |es| && es[0].tag != es[i + 1].tag
    ensures FirstOf(es[1..], i) <==> FirstOf(es, i + 1)
  {
    var rest := es[1..];
    assert forall j :: 0 <= j < |rest| ==> rest[j] == es[j + 1];
    assert forall j :: 0 < j < |es| ==> es[j] == rest[j - 1];
  }

  lemma {:induction false} NoteAllAppend(m: map<nat, nat>, a: seq<Entry>, b: seq<Entry>)
    ensures NoteAll(m, a + b) == NoteAll(NoteAll(m, a), b)
    decreases |a|
  {
    if a == [] {
      NoFront(b);
    } else {
      NoteAllAppend(Note(m, a[0]), a[1..], b);
      assert (a + b)[1..] == a[1..] + b;
    }
  }

  lemma NoteOne(m: map<nat, nat>, es: seq<Entry>, e: Entry)
    ensures NoteAll(m, es + [e]) == Note(NoteAll(m, es), e)
  {
    NoteAllAppend(m, es, [e]);
    assert [e][1..] == [];
  }

  lemma {:induction false} SharesOfAppend(a: seq<Extension>, x: Extension)
    ensures SharesOf(a + [x]) == if x.KeyShare? then SharesOf(a) + x.shares else SharesOf(a)
  {
    if a == [] {
      assert [x][1..] == [];
    } else {
      SharesOfAppend(a[1..], x);
      assert (a + [x])[1..] == a[1..] + [x];
      if x.KeyShare? {
        Assoc(if a[0].KeyShare? then a[0].shares else [], SharesOf(a[1..]), x.shares);
      }
    }
  }

  // ---------------------------------------------------------------------------------------------------------------
  // The parser
  // ---------------------------------------------------------------------------------------------------------------

  function Join<T>(done: seq<T>, more: Option<seq<T>>): Option<seq<T>> {
    if more.None? then None else Some(done + more.value)
  }

  lemma JoinNothing<T>(more: Option<seq<T>>)
    ensures Join([], more) == more
  {
    if more.Some? {
      NoFront(more.value);
    }
  }

  lemma JoinMore<T>(done: seq<T>, x: T, more: Option<seq<T>>)
    ensures Join(done, Join([x], more)) == Join(done + [x], more)
  {
    if more.Some? {
      Assoc(done, [x], more.value);
    }
  }

  /** The inner loop: the entries of one key-share extension, noted behind what is noted already. */
  method ParseShares(ext: seq<byte>, noted: map<nat, nat>) returns (ok: bool, keyShares: map<nat, nat>)
    ensures ok <==> FromEntry(Entry(KEY_SHARE, ext)).Some?
    ensures ok ==> FromEntry(Entry(KEY_SHARE, ext)).value.KeyShare?
    ensures ok ==> keyShares == NoteAll(noted, FromEntry(Entry(KEY_SHARE, ext)).value.shares)
  {
    keyShares := noted;
    if |ext| < 2 || Be16(ext[0], ext[1]) != |ext| - 2 {
      return false, noted;
    }
    var shares := ext[2..];
    ghost var done: seq<Entry> := [];
    assert Cut16(ext) == Some(Cut(shares, [])) by {
      assert ext[2..2 + Be16(ext[0], ext[1])] == shares;
      assert ext[|ext|..] == [];
    }
    JoinNothing(DecodeEntries(shares));
    while |shares| > 0
      invariant DecodeEntries(ext[2..]) == Join(done, DecodeEntries(shares))
      invariant keyShares == NoteAll(noted, done)
      decreases |shares|
    {
      if |shares| < 4 {
        return false, noted;
      }
      ghost var b := shares;
      var group, keyLen := Be16(shares[0], shares[1]), Be16(shares[2], shares[3]);
      shares := shares[4..];
      if keyLen > |shares| {
        assert CutEntry(b).None?;
        return false, noted;
      }
      ghost var e := Entry(group, shares[..keyLen]);
      NoteOne(noted, done, e);
      if group !in keyShares {
        keyShares := keyShares[group := keyLen];
      }
      shares := shares[keyLen..];
      CutIs(b, keyLen);
      JoinMore(done, e, DecodeEntries(shares));
      done := done + [e];
    }
    assert done + [] == done;
    return true, keyShares;
  }

  lemma CutIs(b: seq<byte>, n: nat)
    requires |b| >= 4 && Be16(b[2], b[3]) == n <= |b| - 4
    ensures CutEntry(b) == Some(Front(Entry(Be16(b[0], b[1]), b[4..][..n]), b[4..][n..]))
  {
    var c := b[2..];
    assert c[2..2 + n] == b[4..][..n] && c[2 + n..] == b[4..][n..];
  }

  /** The extension loop. */
  method ParseExtensions(input: seq<byte>) returns (ok: bool, keyShares: map<nat, nat>)
    ensures ok <==> DecodeExts(input).Some?
    ensures ok ==> keyShares == NoteAll(map[], SharesOf(DecodeExts(input).value))
  {
    var data := input;
    keyShares := map[];
    ghost var done: seq<Extension> := [];
    JoinNothing(DecodeExts(data));
    while |data| > 0
      invariant DecodeExts(input) == Join(done, DecodeExts(data))
      invariant keyShares == NoteAll(map[], SharesOf(done))
      decreases |data|
    {
      if |data| < 4 {
        return false, map[];
      }
      ghost var b := data;
      var extType, extLen := Be16(data[0], data[1]), Be16(data[2], data[3]);
      data := data[4..];
      if extLen > |data| {
        assert CutEntry(b).None?;
        return false, map[];
      }
      var ext := data[..extLen];
      data := data[extLen..];
      CutIs(b, extLen);
      ghost var x := FromEntry(Entry(extType, ext));
      if extType == KEY_SHARE {
        ghost var noted := keyShares;
        ok, keyShares := ParseShares(ext, keyShares);
        if !ok {
          return false, map[];
        }
        NoteAllAppend(map[], SharesOf(done), x.value.shares);
      }
      SharesOfAppend(done, x.value);
      JoinMore(done, x.value, DecodeExts(data));
      done := done + [x.value];
    }
    assert done + [] == done;
    return true, keyShares;
  }

  method ParseSuites(data: seq<byte>, suitesLen: nat) returns (suites: seq<nat>)
    requires suitesLen % 2 == 0 && suitesLen <= |data|
    ensures suites == DecodeSuites(data[..suitesLen])
  {
    suites := [];
    var off := 0;
    NoFront(DecodeSuites(data[..suitesLen]));
    while off < suitesLen
      invariant off % 2 == 0 && off <= suitesLen
      invariant suites + DecodeSuites(data[off..suitesLen]) == DecodeSuites(data[..suitesLen])
    {
      var suite := Be16(data[off], data[off + 1]);
      assert data[off..suitesLen][2..] == data[off + 2..suitesLen];
      Assoc(suites, [suite], DecodeSuites(data[off + 2..suitesLen]));
      suites := suites + [suite];
      off := off + 2;
    }
    assert suites + [] == suites;
  }

  /** parseFakeTLSClientHello: safe on every byte string. It returns the offered suites and the first key-share
      length per group of the one well-formed hello that `input` encodes, and the wholly empty result when there is
      none. */
  method ParseClientHello(input: seq<byte>) returns (info: Info)
    ensures DecodeHello(input).Some? ==> info == Summary(DecodeHello(input).value)
    ensures DecodeHello(input).None? ==> info == EMPTY
  {
    var data := input;
    if |data| < 44 || data[0] != 0x16 || data[5] != 0x01
      || Be16(data[3], data[4]) != |data| - 5
      || (data[6] as int) * 0x10000 + (data[7] as int) * 0x100 + data[8] as int != |data| - 9 {
      return EMPTY;
    }
    data := data[43..];
    var sessionLen := data[0] as int;
    BodyIs(data, sessionLen);
    if sessionLen > 32 || 1 + sessionLen + 2 > |data| {
      return EMPTY;
    }
    info := ParseOffer(data[1 + sessionLen..], data[1..1 + sessionLen]);
  }

  ghost predicate Reports(info: Info, b: Option<Body>) {
    if b.None? then info == EMPTY else info == Info(b.value.suites, NoteAll(map[], SharesOf(b.value.exts)))
  }

  lemma BodyIs(b: seq<byte>, n: nat)
    requires |b| >= 1 && n == b[0] as int
    ensures n > 32 || 1 + n + 2 > |b| ==> DecodeBody(b).None?
    ensures n <= 32 && 1 + n + 2 <= |b| ==> DecodeBody(b) == DecodeOffer(b[1..1 + n], b[1 + n..])
  {
  }

  lemma Cut16Is(b: seq<byte>, n: nat)
    requires |b| >= 2 + n && n == Be16(b[0], b[1])
    ensures Cut16(b) == Some(Cut(b[2..][..n], b[2..][n..]))
  {
    assert b[2..2 + n] == b[2..][..n] && b[2 + n..] == b[2..][n..];
  }

  method ParseOffer(input: seq<byte>, ghost session: seq<byte>) returns (info: Info)
    requires |input| >= 2
    ensures Reports(info, DecodeOffer(session, input))
  {
    var suitesLen := Be16(input[0], input[1]);
    var data := input[2..];
    if suitesLen == 0 || suitesLen % 2 != 0 || suitesLen >= |data| {
      return EMPTY;
    }
    var suites := ParseSuites(data, suitesLen);
    Cut16Is(input, suitesLen);
    var ok, keyShares := ParseTail(data[suitesLen..]);
    if !ok {
      return EMPTY;
    }
    info := Info(suites, keyShares);
  }

  method ParseTail(input: seq<byte>) returns (ok: bool, keyShares: map<nat, nat>)
    requires |input| >= 1
    ensures ok <==> DecodeTail(input).Some?
    ensures ok ==> keyShares == NoteAll(map[], SharesOf(DecodeTail(input).value.1))
  {
    var compressionLen := input[0] as int;
    if compressionLen == 0 || 1 + compressionLen + 2 > |input| {
      return false, map[];
    }
    var data := input[1 + compressionLen..];
    assert Cut8(input) == Some(Cut(input[1..1 + compressionLen], data));
    if Be16(data[0], data[1]) != |data| - 2 {
      return false, map[];
    }
    assert Cut16(data) == Some(Cut(data[2..], [])) by {
      Cut16Is(data, |data| - 2);
      assert data[2..][..|data| - 2] == data[2..] && data[2..][|data| - 2..] == [];
    }
    ok, keyShares := ParseExtensions(data[2..]);
  }

  /** The parser's verdict against the grammar, for every byte string. */
  lemma ParsedExactly(input: seq<byte>)
    ensures DecodeHello(input).Some? <==> exists h: Hello :: h.WellFormed() && h.Encode() == input
    ensures forall h: Hello :: h.WellFormed() && h.Encode() == input ==>
        DecodeHello(input) == Some(h) && Summary(h) != EMPTY
  {
    if DecodeHello(input).Some? {
      HelloExact(input, DecodeHello(input).value);
    }
    forall h: Hello | h.WellFormed() && h.Encode() == input
      ensures DecodeHello(input) == Some(h) && Summary(h) != EMPTY
    {
      HelloExact(input, h);
    }
  }
}
