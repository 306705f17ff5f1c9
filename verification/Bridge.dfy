/** The splitter over its byte buffer. Emitted packets are windows into the buffer, not copies. */
module SplitterBuffer {
  import opened Bytes
  import opened Splitter

  /** A window into an array: the source's slices. */
  datatype Slice = Slice(arr: array<byte>, lo: nat, hi: nat) {
    predicate InBounds() {
      lo <= hi <= arr.Length
    }

    function Get(): seq<byte>
      requires InBounds()
      reads arr
    {
      arr[lo..hi]
    }

    /** No index of `a` is in both windows. */
    predicate Misses(a: array<byte>, from: nat, to: nat) {
      arr != a || hi <= from || to <= lo || from == to
    }
  }

  ghost predicate Apart(parts: seq<Slice>) {
    forall i, j :: 0 <= i < j < |parts| ==> parts[i].Misses(parts[j].arr, parts[j].lo, parts[j].hi)
  }

  /** The windows hold these contents, one for one. */
  ghost predicate Holds(parts: seq<Slice>, contents: seq<seq<byte>>)
    reads set p | p in parts :: p.arr
  {
    && |parts| == |contents|
    && forall i :: 0 <= i < |parts| ==> parts[i].InBounds() && parts[i].Get() == contents[i]
  }

  lemma HoldsMore(parts: seq<Slice>, contents: seq<seq<byte>>, p: Slice, content: seq<byte>)
    requires Holds(parts, contents) && p.InBounds() && p.Get() == content
    ensures Holds(parts + [p], contents + [content])
  {
  }

  lemma Whole<T>(s: seq<T>)
    ensures s[..|s|] == s && s + [] == s
  {
  }

  lemma Rewindow<T>(s: seq<T>, lo: nat, mid: nat, hi: nat)
    requires lo <= mid <= hi <= |s|
    ensures s[lo..hi][..mid - lo] == s[lo..mid] && s[lo..hi][mid - lo..] == s[mid..hi]
    ensures s[lo..hi] == s[lo..mid] + s[mid..hi]
  {
  }

  /** What the verdict about the packet at hand means for the reference parse. */
  lemma Verdict(proto: int, rest: seq<byte>)
    requires rest != []
    ensures var n := NextPacketLen(proto, rest);
      && (n <= 0 ==> Parse(proto, rest) == Parsed([], rest, n == 0))
      && (n > 0 ==> n <= |rest| && Parse(proto, rest) == Prepend([rest[..n]], Parse(proto, rest[n..])))
  {
    NextBounds(proto, rest);
  }

  lemma PrependOne(done: seq<seq<byte>>, packet: seq<byte>, p: Parsed)
    ensures Prepend(done, Prepend([packet], p)) == Prepend(done + [packet], p)
  {
    Assoc(done, [packet], p.packets);
  }

  /** Windows cut one after the other from the front of an array, none beyond `end`. */
  ghost predicate Row(parts: seq<Slice>, contents: seq<seq<byte>>, arr: array<byte>, end: nat)
    reads set p | p in parts :: p.arr
  {
    && Holds(parts, contents)
    && Apart(parts)
    && forall p :: p in parts ==> p.arr == arr && p.hi <= end
  }

  lemma RowMore(parts: seq<Slice>, contents: seq<seq<byte>>, arr: array<byte>, lo: nat, hi: nat)
    requires Row(parts, contents, arr, lo) && lo <= hi <= arr.Length
    ensures Row(parts + [Slice(arr, lo, hi)], contents + [arr[lo..hi]], arr, hi)
  {
    HoldsMore(parts, contents, Slice(arr, lo, hi), arr[lo..hi]);
  }

  method CopyBytes(src: array<byte>, lo: nat, hi: nat, dst: array<byte>, at: nat)
    requires lo <= hi <= src.Length && at + (hi - lo) <= dst.Length && src != dst
    modifies dst
    ensures dst[at..at + (hi - lo)] == src[lo..hi]
    ensures dst[..at] == old(dst[..at])
  {
    for i := lo to hi
      invariant dst[at..at + (i - lo)] == src[lo..i]
      invariant dst[..at] == old(dst[..at])
    {
      dst[at + (i - lo)] := src[i];
      assert dst[at..at + (i - lo) + 1] == src[lo..i] + [src[i]];
    }
  }

  class MsgSplitter {
    const proto: int
    var arr: array<byte>
    var lo: nat
    var hi: nat
    var disabled: bool
    /** What is buffered. */
    ghost var plain: seq<byte>

    ghost predicate Valid()
      reads this, arr
    {
      lo <= hi <= arr.Length && arr[lo..hi] == plain
    }

    ghost function View(): State
      reads this
    {
      State(proto, plain, disabled)
    }

    constructor (proto: int)
      ensures this.proto == proto && Valid() && fresh(arr)
      ensures View() == Fresh(proto)
    {
      this.proto := proto;
      arr := new byte[0];
      lo, hi, disabled, plain := 0, 0, false, [];
    }

    method AppendHere(src: array<byte>, n: nat)
      requires Valid() && n <= src.Length && src != arr && hi + n <= arr.Length
      modifies this`hi, this`plain, arr
      ensures Valid() && plain == old(plain) + src[..n]
    {
      Rewindow(arr[..], 0, lo, hi);
      CopyBytes(src, 0, n, arr, hi);
      assert arr[lo..hi] == arr[..hi][lo..];
      Rewindow(arr[..], lo, hi, hi + n);
      hi, plain := hi + n, plain + src[..n];
    }

    /** append: in place while the capacity lasts, else into a new array with `slack` bytes to spare. */
    method Append(src: array<byte>, n: nat, slack: nat)
      requires Valid() && n <= src.Length && src != arr
      modifies this`arr, this`lo, this`hi, this`plain, arr
      ensures Valid() && (arr == old(arr) || fresh(arr))
      ensures plain == old(plain) + src[..n]
      ensures src[..] == old(src[..])
    {
      if hi + n > arr.Length {
        var grown := new byte[hi - lo + n + slack];
        CopyBytes(arr, lo, hi, grown, 0);
        arr, lo, hi := grown, 0, hi - lo;
      }
      AppendHere(src, n);
    }

    /** Emits the window of the first `n` buffered bytes, which leave the buffer. */
    method Emit(parts: seq<Slice>, ghost done: seq<seq<byte>>, n: nat) returns (more: seq<Slice>)
      requires Valid() && n <= |plain| && Row(parts, done, arr, lo)
      modifies this`lo, this`plain
      ensures Valid() && plain == old(plain[n..]) && lo == old(lo) + n
      ensures Row(more, done + [old(plain[..n])], arr, lo)
    {
      Rewindow(arr[..], lo, lo + n, hi);
      RowMore(parts, done, arr, lo, lo + n);
      more := parts + [Slice(arr, lo, lo + n)];
      lo, plain := lo + n, plain[n..];
    }

    /** split's loop: cuts packets off the front of the buffer until one is incomplete or impossible. The emitted
        windows hold what the reference parse prescribes, and they overlap neither each other nor what stays
        buffered. */
    method CutPackets() returns (parts: seq<Slice>)
      requires Valid() && !disabled
      modifies this`lo, this`disabled, this`plain
      ensures Valid()
      ensures var p := Parse(proto, old(plain));
        && Row(parts, if p.bad then p.packets + [p.rest] else p.packets, arr, lo)
        && View() == State(proto, if p.bad then [] else p.rest, p.bad)
    {
      parts := [];
      ghost var whole := Parse(proto, plain);
      ghost var done: seq<seq<byte>>, due := [], whole;
      NoFront(whole.packets);
      while lo < hi
        invariant Valid() && !disabled
        invariant due == Parse(proto, plain) && whole == Prepend(done, due)
        invariant Row(parts, done, arr, lo)
        decreases hi - lo
      {
        var next := NextPacketLen(proto, arr[lo..hi]);
        Verdict(proto, plain);
        if next < 0 {
          break;
        }
        if next == 0 {
          Whole(done);
          Whole(plain);
          parts := Emit(parts, done, hi - lo);
          disabled := true;
          return;
        }
        ghost var packet, rest := plain[..next], Parse(proto, plain[next..]);
        PrependOne(done, packet, rest);
        parts := Emit(parts, done, next);
        done, due := done + [packet], rest;
      }
      Whole(done);
    }

    /** The 8 MiB guard's branch of split. */
    method GiveUp(src: array<byte>, n: nat) returns (parts: seq<Slice>)
      requires Valid() && n <= src.Length && src != arr
      modifies this`arr, this`lo, this`hi, this`disabled, this`plain
      ensures Valid() && fresh(arr) && View() == State(proto, [], true)
      ensures Holds(parts, NonEmpty(old(plain)) + [src[..n]])
      ensures forall p :: p in parts ==> p.arr == src || p.arr == old(arr)
      ensures Apart(parts)
    {
      parts := [];
      if hi - lo > 0 {
        HoldsMore([], [], Slice(arr, lo, hi), plain);
        parts := [Slice(arr, lo, hi)];
      }
      HoldsMore(parts, NonEmpty(plain), Slice(src, 0, n), src[..n]);
      parts := parts + [Slice(src, 0, n)];
      arr := new byte[0];
      lo, hi, disabled, plain := 0, 0, true, [];
    }

    /** split: the emitted windows hold exactly what the value model emits, none overlaps another, and none overlaps
        what stays buffered. */
    method SplitChunk(src: array<byte>, n: nat, slack: nat) returns (parts: seq<Slice>)
      requires Valid() && n <= src.Length && src != arr
      modifies this`arr, this`lo, this`hi, this`disabled, this`plain, arr
      ensures Valid() && (arr == old(arr) || fresh(arr)) && src[..] == old(src[..])
      ensures View() == Split(old(View()), src[..n]).1
      ensures Holds(parts, Split(old(View()), src[..n]).0)
      ensures forall p :: p in parts ==> (p.arr == src || p.arr == arr || p.arr == old(arr)) && p.Misses(arr, lo, hi)
      ensures Apart(parts)
    {
      parts := [];
      ghost var s, chunk := View(), src[..n];
      if n == 0 {
        return;
      }
      HoldsMore([], [], Slice(src, 0, n), chunk);
      if disabled {
        parts := [Slice(src, 0, n)];
        return;
      }
      if hi - lo + n > MAX_PACKET {
        parts := GiveUp(src, n);
        return;
      }
      Append(src, n, slack);
      parts := CutPackets();
      assert !s.disabled && !Overflows(s, chunk);
    }

    /** flush: hands out whatever is buffered. */
    method Flush() returns (parts: seq<Slice>)
      requires Valid()
      modifies this`hi, this`plain
      ensures Valid() && View() == old(View()).(buf := [])
      ensures Holds(parts, NonEmpty(old(plain)))
      ensures forall p :: p in parts ==> p.arr == arr
      ensures Apart(parts)
    {
      parts := [];
      if lo == hi {
        return;
      }
      parts := [Slice(arr, lo, hi)];
      hi, plain := lo, [];
    }
  }
}

/** The two copying loops of a bridge: bytes are read into a buffer, transcoded in place and passed on. */
module Bridge {
  import opened Units
  import opened Bytes
  import opened Splitter
  import opened SplitterBuffer

  /** A stream cipher with its running position. */
  class CipherStream {
    const ks: Keystream
    var pos: nat

    constructor (ks: Keystream, pos: nat)
      ensures this.ks == ks && this.pos == pos
    {
      this.ks, this.pos := ks, pos;
    }

    /** XORKeyStream over a window of an array, in place. */
    method XorInPlace(a: array<byte>, lo: nat, hi: nat)
      requires lo <= hi <= a.Length
      modifies this, a
      ensures pos == old(pos) + (hi - lo)
      ensures a[lo..hi] == Crypt(old(a[lo..hi]), ks, old(pos))
      ensures forall k :: 0 <= k < a.Length && !(lo <= k < hi) ==> a[k] == old(a[k])
    {
      for i := lo to hi
        invariant pos == old(pos) + (i - lo)
        invariant forall k :: lo <= k < i ==> a[k] == Xor(old(a[k]), ks(old(pos) + (k - lo)))
        invariant forall k :: 0 <= k < a.Length && !(lo <= k < i) ==> a[k] == old(a[k])
      {
        a[i] := Xor(a[i], ks(pos));
        pos := pos + 1;
      }
      assert forall k :: 0 <= k < hi - lo ==> a[lo..hi][k] == Crypt(old(a[lo..hi]), ks, old(pos))[k];
    }
  }

  /** How many of the first `n` tries are accepted. */
  function Accepted(accepts: nat -> bool, n: nat): nat {
    if n == 0 then 0 else Accepted(accepts, n - 1) + if accepts(n - 1) then 1 else 0
  }

  /** The fate of each write: whether it is accepted, and how many of its bytes arrive all the same if it is not. */
  datatype Line = Line(accepts: nat -> bool, reaches: nat -> nat)

  /** What has arrived: the messages accepted and, unless `all` were, a first part of the one that was refused. */
  datatype Receipt = Receipt(sent: seq<seq<byte>>, refused: seq<byte>, part: seq<byte>, all: bool) {
    /** The bytes, without those of the first `n` messages. */
    function Bytes(n: nat): seq<byte>
      requires n <= |sent|
    {
      Concat(sent[n..]) + part
    }
  }

  function FirstOf(message: seq<byte>, reached: nat): seq<byte> {
    message[..Min(reached, |message|)]
  }

  /** A message sink. */
  class Sink {
    const line: Line
    var tries: nat
    var sent: seq<seq<byte>>
    /** The message last refused, and what arrived of it. */
    var refused: seq<byte>
    var part: seq<byte>

    ghost predicate Valid()
      reads this
    {
      |sent| == Accepted(line.accepts, tries)
    }

    ghost predicate Unused()
      reads this
    {
      tries == 0 && sent == []
    }

    constructor (line: Line)
      ensures this.line == line && Unused()
    {
      this.line, tries, sent, refused, part := line, 0, [], [], [];
    }

    /** Since try `from`, when `before` messages had been sent, one message has been sent per try, but for a last try
        that was refused unless `ok`. */
    ghost predicate Since(from: nat, before: nat, ok: bool)
      reads this
    {
      && Valid()
      && |sent| >= before && tries == from + (|sent| - before) + (if ok then 0 else 1)
      && (ok || (!line.accepts(tries - 1) && part == FirstOf(refused, line.reaches(tries - 1))))
    }

    /** Of the messages `full`, all have been sent if `ok`; otherwise the next one was refused. */
    ghost predicate Reached(full: seq<seq<byte>>, ok: bool)
      reads this
    {
      if ok then sent == full else sent + [refused] <= full
    }

    method Write(a: array<byte>, lo: nat, hi: nat) returns (ok: bool)
      requires lo <= hi <= a.Length && Valid()
      modifies this
      ensures Valid() && ok == line.accepts(old(tries)) && tries == old(tries) + 1
      ensures sent == if ok then old(sent) + [a[lo..hi]] else old(sent)
      ensures !ok ==> refused == a[lo..hi] && part == FirstOf(refused, line.reaches(old(tries)))
    {
      ok := line.accepts(tries);
      if ok {
        sent := sent + [a[lo..hi]];
      } else {
        refused, part := a[lo..hi], FirstOf(a[lo..hi], line.reaches(tries));
      }
      tries := tries + 1;
    }

    /** What has arrived once the last message was accepted, or not. */
    function Receive(all: bool): Receipt
      reads this
    {
      if all then Receipt(sent, [], [], all) else Receipt(sent, refused, part, all)
    }
  }

  /** Would a sink whose next try is number `from` accept `n` tries in a row? */
  ghost predicate AcceptsAll(accepts: nat -> bool, from: nat, n: nat) {
    forall i :: from <= i < from + n ==> accepts(i)
  }

  lemma {:induction false} AcceptedRun(accepts: nat -> bool, from: nat, n: nat)
    ensures Accepted(accepts, from + n) <= Accepted(accepts, from) + n
    ensures Accepted(accepts, from + n) == Accepted(accepts, from) + n <==> AcceptsAll(accepts, from, n)
  {
    if n == 0 {
    } else {
      AcceptedRun(accepts, from, n - 1);
      assert from + n - 1 == from + (n - 1);
    }
  }

  /** Of the messages `due`, those before the first one that is refused have arrived, then a first part of that one, and
      nothing else; all of them if none is refused. The first of them is try number `from`. */
  ghost predicate Outcome(before: seq<seq<byte>>, due: seq<seq<byte>>, line: Line, from: nat, r: Receipt) {
    && before <= r.sent <= before + due
    && var n := |r.sent| - |before|;
       && AcceptsAll(line.accepts, from, n)
       && if r.all then n == |due| && r.part == []
          else && n < |due| && !line.accepts(from + n) && r.refused == due[n]
               && r.part == FirstOf(r.refused, line.reaches(from + n))
  }

  /** The bytes that have arrived are a first part of the bytes due. */
  lemma OutcomeBytes(before: seq<seq<byte>>, due: seq<seq<byte>>, line: Line, from: nat, r: Receipt)
    requires Outcome(before, due, line, from, r)
    ensures r.Bytes(|before|) <= Concat(due) && (r.all ==> r.Bytes(|before|) == Concat(due))
  {
    var n := |r.sent| - |before|;
    assert forall i :: 0 <= i < n ==> r.sent[|before|..][i] == (before + due)[|before| + i] == due[i];
    assert r.sent[|before|..] == due[..n];
    if r.all {
      Whole(due);
    } else {
      PartBytes(due, n, line.reaches(from + n));
    }
  }

  lemma PartBytes(due: seq<seq<byte>>, n: nat, reached: nat)
    requires n < |due|
    ensures Concat(due[..n]) + FirstOf(due[n], reached) <= Concat(due)
  {
    var head, message, tail := due[..n], due[n], due[n + 1..];
    assert due == head + ([message] + tail);
    ConcatAppend(head, [message] + tail);
    ConcatCons(message, tail);
    PartFits(Concat(head), message, Concat(tail), reached);
  }

  lemma PartFits(head: seq<byte>, message: seq<byte>, tail: seq<byte>, reached: nat)
    ensures head + FirstOf(message, reached) <= head + (message + tail)
  {
  }

  /** The reading side: each element of `script` is the outcome of one Read; after them every Read fails. The last one
      may fail together with its data. */
  class Source {
    const script: seq<seq<byte>>
    const failsWithLast: bool
    var next: nat

    constructor (script: seq<seq<byte>>, failsWithLast: bool)
      ensures this.script == script && this.failsWithLast == failsWithLast && next == 0
    {
      this.script, this.failsWithLast, next := script, failsWithLast, 0;
    }

    method Read(buf: array<byte>) returns (n: nat, err: bool)
      requires next <= |script| && forall c :: c in script ==> |c| <= buf.Length
      modifies this, buf
      ensures if old(next) < |script|
              then next == old(next) + 1 && n == |script[old(next)]| && buf[..n] == script[old(next)]
                   && err == (failsWithLast && next == |script|)
              else next == old(next) && n == 0 && err
    {
      if next == |script| {
        return 0, true;
      }
      assert script[next] in script;
      var bytes := script[next];
      next, n := next + 1, |bytes|;
      for i := 0 to n
        invariant next == old(next) + 1 && forall j :: 0 <= j < i ==> buf[j] == bytes[j]
      {
        buf[i] := bytes[i];
      }
      err := failsWithLast && next == |script|;
    }
  }

  lemma PrefixTrans<T>(a: seq<T>, b: seq<T>, c: seq<T>)
    requires a <= b <= c
    ensures a <= c
  {
  }

  lemma BothPrefixes<T>(a: seq<T>, b: seq<T>, c: seq<T>)
    requires a <= c && b <= c && |a| <= |b|
    ensures a <= b
  {
    assert a == c[..|a|] && b == c[..|b|];
  }

  lemma OneMore<T>(before: seq<T>, full: seq<T>, i: nat)
    requires i < |full|
    ensures before + full[..i] + [full[i]] == before + full[..i + 1] <= before + full
  {
  }

  /** Encrypts window `i` in place; later windows and `keep` are not affected. */
  method EncryptPart(parts: seq<Slice>, i: nat, enc: CipherStream, ghost keep: Slice)
    requires i < |parts| && Apart(parts) && forall p :: p in parts ==> p.InBounds()
    requires keep.InBounds() && parts[i].Misses(keep.arr, keep.lo, keep.hi)
    modifies enc, parts[i].arr
    ensures enc.pos == old(enc.pos) + (parts[i].hi - parts[i].lo)
    ensures parts[i].Get() == Crypt(old(parts[i].Get()), enc.ks, old(enc.pos))
    ensures forall j :: i < j < |parts| ==> parts[j].Get() == old(parts[j].Get())
    ensures keep.Get() == old(keep.Get())
  {
    var p := parts[i];
    assert p in parts;
    enc.XorInPlace(p.arr, p.lo, p.hi);
    forall j | i < j < |parts| ensures parts[j].Get() == old(parts[j].Get()) {
      assert parts[j] in parts;
      assert p.Misses(parts[j].arr, parts[j].lo, parts[j].hi);
    }
  }

  /** Encrypts window `i` in place and sends it; `out` is what it becomes. */
  method SendOne(parts: seq<Slice>, i: nat, enc: CipherStream, sink: Sink, ghost keep: Slice, ghost out: seq<byte>)
    returns (ok: bool)
    requires i < |parts| && Apart(parts) && (forall p :: p in parts ==> p.InBounds()) && sink.Valid()
    requires keep.InBounds() && parts[i].Misses(keep.arr, keep.lo, keep.hi)
    requires out == Crypt(parts[i].Get(), enc.ks, enc.pos)
    modifies enc, sink, parts[i].arr
    ensures enc.pos == old(enc.pos) + |out|
    ensures sink.Reached(old(sink.sent) + [out], ok) && sink.Since(old(sink.tries), |old(sink.sent)|, ok)
    ensures ok || sink.sent == old(sink.sent)
    ensures forall j :: i < j < |parts| ==> parts[j].Get() == old(parts[j].Get())
    ensures keep.Get() == old(keep.Get())
  {
    assert parts[i] in parts;
    EncryptPart(parts, i, enc, keep);
    ok := sink.Write(parts[i].arr, parts[i].lo, parts[i].hi);
  }

  /** Encrypts each window in place and sends it, up to the first one that the sink refuses. Whatever window `keep` the
      parts do not touch stays as it is. */
  method SendParts(parts: seq<Slice>, ghost plain: seq<seq<byte>>, enc: CipherStream, sink: Sink, ghost keep: Slice)
    returns (ok: bool)
    requires Holds(parts, plain) && Apart(parts) && sink.Valid()
    requires keep.InBounds() && forall p :: p in parts ==> p.Misses(keep.arr, keep.lo, keep.hi)
    modifies enc, sink, set p | p in parts :: p.arr
    ensures ok ==> enc.pos == old(enc.pos) + |Concat(plain)|
    ensures sink.Reached(old(sink.sent) + CryptEach(plain, enc.ks, old(enc.pos)), ok)
    ensures sink.Since(old(sink.tries), |old(sink.sent)|, ok)
    ensures keep.Get() == old(keep.Get())
  {
    ghost var full := CryptEach(plain, enc.ks, enc.pos);
    ok := true;
    for i := 0 to |parts|
      invariant enc.pos == old(enc.pos) + |Concat(plain[..i])|
      invariant sink.sent == old(sink.sent) + full[..i]
      invariant sink.Since(old(sink.tries), |old(sink.sent)|, true)
      invariant forall j :: i <= j < |parts| ==> parts[j].Get() == plain[j]
      invariant keep.Get() == old(keep.Get())
    {
      assert parts[i] in parts;
      SendStep(plain, enc.ks, old(enc.pos), i);
      ok := SendOne(parts, i, enc, sink, keep, full[i]);
      OneMore(old(sink.sent), full, i);
      if !ok {
        return;
      }
    }
    Whole(plain);
    Whole(full);
  }

  lemma SendStep(plain: seq<seq<byte>>, ks: Keystream, pos: nat, i: nat)
    requires i < |plain|
    ensures CryptEach(plain, ks, pos)[i] == Crypt(plain[i], ks, pos + |Concat(plain[..i])|)
    ensures |Concat(plain[..i + 1])| == |Concat(plain[..i])| + |plain[i]|
  {
    assert plain == plain[..i] + plain[i..] && plain[i..][0] == plain[i];
    CryptEachAppend(plain[..i], plain[i..], ks, pos);
    assert plain[..i + 1] == plain[..i] + [plain[i]];
    ConcatAppend(plain[..i], [plain[i]]);
    ConcatOne(plain[i]);
  }

  // ---------------------------------------------------------------------------------------------------------------
  // Copying one stream
  // ---------------------------------------------------------------------------------------------------------------

  /** The splitter's value; a bridge without a splitter passes chunks on as a disabled one would. */
  ghost function Model(splitter: MsgSplitter?): State
    reads splitter
  {
    if splitter == null then State(0, [], true) else splitter.View()
  }

  /** Where a copying loop stands: the splitter, the positions of the two ciphers, and the messages sent. */
  datatype Snapshot = Snapshot(split: State, decPos: nat, encPos: nat, sent: seq<seq<byte>>)

  ghost function Now(splitter: MsgSplitter?, dec: CipherStream, enc: CipherStream, sink: Sink): Snapshot
    reads splitter, dec, enc, sink
  {
    Snapshot(Model(splitter), dec.pos, enc.pos, sink.sent)
  }

  lemma FeedOne(s: State, chunk: seq<byte>)
    ensures Feed(s, [chunk]) == Split(s, chunk)
  {
    var (parts, after) := Split(s, chunk);
    assert [chunk][1..] == [];
    assert Feed(after, []) == ([], after);
    assert parts + [] == parts;
  }

  lemma FeedNext(s: State, plain: seq<seq<byte>>, k: nat)
    requires k < |plain|
    ensures var (out, now) := Feed(s, plain[..k]);
      var (parts, after) := Split(now, plain[k]);
      Feed(s, plain[..k + 1]) == (out + parts, after)
  {
    assert plain[..k + 1] == plain[..k] + [plain[k]];
    FeedAppend(s, plain[..k], [plain[k]]);
    FeedOne(Feed(s, plain[..k]).1, plain[k]);
  }

  lemma SentMore(sofar: seq<seq<byte>>, parts: seq<seq<byte>>, ks: Keystream, pos: nat)
    ensures CryptEach(sofar + parts, ks, pos) == CryptEach(sofar, ks, pos) + CryptEach(parts, ks, pos + |Concat(sofar)|)
    ensures |Concat(sofar + parts)| == |Concat(sofar)| + |Concat(parts)|
  {
    CryptEachAppend(sofar, parts, ks, pos);
    ConcatAppend(sofar, parts);
  }

  /** Two keystreams, what is read, and where the copying starts. */
  datatype Job = Job(script: seq<seq<byte>>, dks: Keystream, eks: Keystream, start: Snapshot) {
    /** What is read, decrypted. */
    ghost function Plain(): (out: seq<seq<byte>>)
      ensures |out| == |script|
    {
      CryptEach(script, dks, start.decPos)
    }

    /** The snapshot after `n` more bytes, sent as `parts`. */
    ghost function Plus(p: Snapshot, n: nat, parts: seq<seq<byte>>, split: State): Snapshot {
      Snapshot(split, p.decPos + n, p.encPos + |Concat(parts)|, p.sent + CryptEach(parts, eks, p.encPos))
    }

    /** The snapshot once `made` has been cut off and sent. */
    ghost function Sent(made: seq<seq<byte>>, split: State, k: nat): Snapshot
      requires k <= |script|
    {
      Plus(start, |Concat(script[..k])|, made, split)
    }

    /** Where the copying stands after `k` reads. */
    ghost function At(k: nat): Snapshot
      requires k <= |script|
    {
      var (made, split) := Feed(start.split, Plain()[..k]);
      Sent(made, split, k)
    }

    /** The effect of one chunk: decrypt, split, encrypt, send. */
    ghost function Step(p: Snapshot, chunk: seq<byte>): Snapshot {
      var (parts, after) := Split(p.split, Crypt(chunk, dks, p.decPos));
      Plus(p, |chunk|, parts, after)
    }

    lemma SentNext(made: seq<seq<byte>>, parts: seq<seq<byte>>, split: State, after: State, k: nat)
      requires k < |script|
      ensures Sent(made + parts, after, k + 1) == Plus(Sent(made, split, k), |script[k]|, parts, after)
    {
      SendStep(script, dks, start.decPos, k);
      SentMore(made, parts, eks, start.encPos);
      Assoc(start.sent, CryptEach(made, eks, start.encPos), CryptEach(parts, eks, start.encPos + |Concat(made)|));
    }

    lemma StepIs(p: Snapshot, chunk: seq<byte>, parts: seq<seq<byte>>, after: State)
      requires Split(p.split, Crypt(chunk, dks, p.decPos)) == (parts, after)
      ensures Step(p, chunk) == Plus(p, |chunk|, parts, after)
    {
    }

    /** The parts that read `k` makes, and the splitter behind it. */
    lemma NextParts(k: nat, made: seq<seq<byte>>, split: State, parts: seq<seq<byte>>, after: State)
      requires k < |script| && Feed(start.split, Plain()[..k]) == (made, split)
      requires Split(split, Plain()[k]) == (parts, after)
      ensures At(k) == Sent(made, split, k) && At(k + 1) == Sent(made + parts, after, k + 1)
    {
      FeedNext(start.split, Plain(), k);
    }

    lemma NextPlain(k: nat)
      requires k < |script|
      ensures Plain()[k] == Crypt(script[k], dks, start.decPos + |Concat(script[..k])|)
    {
      SendStep(script, dks, start.decPos, k);
    }

    lemma Standing(made: seq<seq<byte>>, split: State, k: nat)
      requires k <= |script|
      ensures var p := Sent(made, split, k); p.split == split && p.decPos == start.decPos + |Concat(script[..k])|
    {
    }

    lemma StepOf(p: Snapshot, made: seq<seq<byte>>, parts: seq<seq<byte>>, after: State, k: nat)
      requires k < |script| && p == Sent(made, p.split, k)
      requires Split(p.split, Crypt(script[k], dks, p.decPos)) == (parts, after)
      ensures Step(p, script[k]) == Sent(made + parts, after, k + 1)
    {
      StepIs(p, script[k], parts, after);
      SentNext(made, parts, p.split, after, k);
    }

    lemma AtNext(k: nat)
      requires k < |script|
      ensures At(k + 1) == Step(At(k), script[k])
    {
      var (made, split) := Feed(start.split, Plain()[..k]);
      NextPlain(k);
      var (parts, after) := Split(split, Plain()[k]);
      Standing(made, split, k);
      StepOf(Sent(made, split, k), made, parts, after, k);
      NextParts(k, made, split, parts, after);
    }

    lemma AtStart()
      ensures At(0) == start
    {
      assert start.sent + [] == start.sent;
    }

    lemma StepNothing(p: Snapshot, chunk: seq<byte>)
      requires chunk == []
      ensures Step(p, chunk) == p
    {
      assert p.sent + [] == p.sent;
    }

    lemma StepGrows(p: Snapshot, chunk: seq<byte>)
      ensures p.sent <= Step(p, chunk).sent
    {
    }

    lemma {:induction false} Grows(k: nat, n: nat)
      requires k <= n <= |script|
      ensures At(k).sent <= At(n).sent
      decreases n - k
    {
      if k == n {
      } else {
        AtNext(k);
        StepGrows(At(k), script[k]);
        Grows(k + 1, n);
      }
    }

    /** Snapshot `k` of a plan leads to the next one. */
    ghost predicate Leads(plan: seq<Snapshot>, k: nat)
      requires k < |script| && |plan| == |script| + 1
    {
      plan[k + 1] == Step(plan[k], script[k]) && plan[k].sent <= plan[|script|].sent
    }

    /** All snapshots in a row. */
    lemma Plan() returns (plan: seq<Snapshot>)
      ensures |plan| == |script| + 1 && plan[0] == start && plan[|script|] == At(|script|)
      ensures forall k :: 0 <= k < |script| ==> Leads(plan, k)
    {
      plan := seq(|script| + 1, k requires 0 <= k <= |script| => At(k));
      AtStart();
      forall k | 0 <= k < |script| ensures Leads(plan, k) {
        AtNext(k);
        Grows(k, |script|);
      }
    }
  }

  /** What one read brings: decrypted in place, split, each part encrypted in place and sent. `q` is where that should
      lead. */
  method CopyChunk(splitter: MsgSplitter?, dec: CipherStream, enc: CipherStream, sink: Sink, buf: array<byte>, n: nat,
                   slack: nat, ghost job: Job, ghost q: Snapshot)
    returns (ok: bool, quiet: bool)
    requires splitter != null ==> splitter.Valid() && splitter.arr != buf
    requires n <= buf.Length && dec != enc && sink.Valid() && job.dks == dec.ks && job.eks == enc.ks
    requires q == job.Step(Now(splitter, dec, enc, sink), buf[..n])
    modifies dec, enc, sink, buf, splitter, if splitter == null then {} else {splitter.arr}
    ensures splitter != null ==> splitter.Valid() && (splitter.arr == old(splitter.arr) || fresh(splitter.arr))
    ensures sink.Reached(q.sent, ok) && (ok ==> Now(splitter, dec, enc, sink) == q)
    ensures sink.Since(old(sink.tries), |old(sink.sent)|, ok)
  {
    dec.XorInPlace(buf, 0, n);
    ghost var plain := Crypt(old(buf[..n]), dec.ks, old(dec.pos));
    assert buf[0..n] == buf[..n] && old(buf[0..n]) == old(buf[..n]);
    ghost var made := Split(old(Model(splitter)), plain).0;
    var parts: seq<Slice> := [];
    quiet := false;
    if splitter != null {
      parts := splitter.SplitChunk(buf, n, slack);
      assert buf[..n] == plain;
      quiet := parts == [];
      ok := SendParts(parts, made, enc, sink, Slice(splitter.arr, splitter.lo, splitter.hi));
    } else {
      if n > 0 {
        parts := [Slice(buf, 0, n)];
      }
      ok := SendParts(parts, made, enc, sink, Slice(buf, 0, 0));
    }
  }

  /** One read and what follows from it. A read that produced no message is followed by the next read whatever its
      error was. `q` is where the read should lead. */
  method CopyOnce(src: Source, splitter: MsgSplitter?, dec: CipherStream, enc: CipherStream, sink: Sink,
                  buf: array<byte>,
                  slack: nat, ghost job: Job, ghost q: Snapshot)
    returns (ok: bool, stop: bool)
    requires src.next <= |src.script| && forall c :: c in src.script ==> |c| <= buf.Length
    requires splitter != null ==> splitter.Valid() && splitter.arr != buf
    requires dec != enc && sink.Valid() && job.dks == dec.ks && job.eks == enc.ks
    requires var p := Now(splitter, dec, enc, sink);
      q == if src.next == |src.script| then p else job.Step(p, src.script[src.next])
    modifies src, dec, enc, sink, buf, splitter, if splitter == null then {} else {splitter.arr}
    ensures splitter != null ==> splitter.Valid() && (splitter.arr == old(splitter.arr) || fresh(splitter.arr))
    ensures src.next == (if old(src.next) == |src.script| then old(src.next) else old(src.next) + 1)
    ensures stop ==> src.next == |src.script|
    ensures old(src.next) == |src.script| ==> stop
    ensures sink.Reached(q.sent, ok) && (ok ==> Now(splitter, dec, enc, sink) == q)
    ensures sink.Since(old(sink.tries), |old(sink.sent)|, ok)
  {
    var n, err := src.Read(buf);
    ok, stop := true, err;
    if n > 0 {
      var quiet;
      ok, quiet := CopyChunk(splitter, dec, enc, sink, buf, n, slack, job, q);
      if quiet {
        stop := false;
      }
    } else if old(src.next) < |src.script| {
      job.StepNothing(Now(splitter, dec, enc, sink), src.script[old(src.next)]);
    }
  }

  /** Reads until a read fails, and passes on what every read brought. */
  method CopyReads(src: Source, splitter: MsgSplitter?, dec: CipherStream, enc: CipherStream, sink: Sink,
                   buf: array<byte>,
                   slack: nat)
    returns (ok: bool)
    requires src.next == 0 && forall c :: c in src.script ==> |c| <= buf.Length
    requires splitter != null ==> splitter.Valid() && splitter.arr != buf
    requires dec != enc && sink.Valid()
    modifies src, dec, enc, sink, buf, splitter, if splitter == null then {} else {splitter.arr}
    ensures splitter != null ==> splitter.Valid() && (splitter.arr == old(splitter.arr) || fresh(splitter.arr))
    ensures var p := Job(src.script, dec.ks, enc.ks, old(Now(splitter, dec, enc, sink))).At(|src.script|);
      sink.Reached(p.sent, ok) && (ok ==> Now(splitter, dec, enc, sink) == p)
    ensures sink.Since(old(sink.tries), |old(sink.sent)|, ok)
  {
    ghost var job := Job(src.script, dec.ks, enc.ks, Now(splitter, dec, enc, sink));
    ghost var plan := job.Plan();
    ok := CopyPlanned(src, splitter, dec, enc, sink, buf, slack, job, plan);
  }

  /** The loop itself; `plan` says where each read leads. */
  method CopyPlanned(src: Source, splitter: MsgSplitter?, dec: CipherStream, enc: CipherStream, sink: Sink,
                     buf: array<byte>,
                     slack: nat, ghost job: Job, ghost plan: seq<Snapshot>)
    returns (ok: bool)
    requires src.next == 0 && forall c :: c in src.script ==> |c| <= buf.Length
    requires splitter != null ==> splitter.Valid() && splitter.arr != buf
    requires dec != enc && sink.Valid() && job.script == src.script && job.dks == dec.ks && job.eks == enc.ks
    requires |plan| == |src.script| + 1 && plan[0] == Now(splitter, dec, enc, sink)
    requires forall k :: 0 <= k < |src.script| ==> job.Leads(plan, k)
    modifies src, dec, enc, sink, buf, splitter, if splitter == null then {} else {splitter.arr}
    ensures splitter != null ==> splitter.Valid() && (splitter.arr == old(splitter.arr) || fresh(splitter.arr))
    ensures var p := plan[|src.script|];
      sink.Reached(p.sent, ok) && (ok ==> Now(splitter, dec, enc, sink) == p)
    ensures sink.Since(old(sink.tries), |old(sink.sent)|, ok)
  {
    ghost var p := plan[0];
    ok := true;
    var stop := false;
    while ok && !stop
      invariant src.next <= |src.script| && p == plan[src.next]
      invariant splitter != null ==>
          splitter.Valid() && splitter.arr != buf && (splitter.arr == old(splitter.arr) || fresh(splitter.arr))
      invariant sink.Reached(p.sent, ok) && (ok ==> Now(splitter, dec, enc, sink) == p)
      invariant sink.Since(old(sink.tries), |old(sink.sent)|, ok)
      invariant stop ==> src.next == |src.script|
      decreases !stop, |src.script| - src.next
    {
      if src.next < |src.script| {
        assert job.Leads(plan, src.next);
        p := plan[src.next + 1];
      }
      ok, stop := CopyOnce(src, splitter, dec, enc, sink, buf, slack, job, p);
    }
    if src.next < |src.script| {
      assert job.Leads(plan, src.next);
      PrefixTrans(sink.sent + [sink.refused], p.sent, plan[|src.script|].sent);
    }
  }

  // ---------------------------------------------------------------------------------------------------------------
  // Client to Telegram
  // ---------------------------------------------------------------------------------------------------------------

  /** All messages that a stream makes, the final flush included. */
  ghost function UpMessages(start: State, plain: seq<seq<byte>>): seq<seq<byte>> {
    var (made, split) := Feed(start, plain);
    made + NonEmpty(split.buf)
  }

  /** What all reads make, and then the flush, is what is due. */
  ghost predicate UpEnds(job: Job) {
    var p := job.At(|job.script|);
    && p.sent + CryptEach(NonEmpty(p.split.buf), job.eks, p.encPos) == job.start.sent + UpDue(job)
    && (job.start.split.disabled && job.start.split.buf == [] ==> p.split.buf == [])
  }

  lemma UpEnd(job: Job)
    ensures UpEnds(job)
  {
    Whole(job.Plain());
    var (made, split) := Feed(job.start.split, job.Plain());
    SentMore(made, NonEmpty(split.buf), job.eks, job.start.encPos);
    Assoc(job.start.sent, CryptEach(made, job.eks, job.start.encPos),
          CryptEach(NonEmpty(split.buf), job.eks, job.start.encPos + |Concat(made)|));
    if job.start.split.disabled && job.start.split.buf == [] {
      FeedKeeps(job.start.split, job.Plain());
    }
  }

  /** The bytes of all messages, flush included: what was buffered and read, decrypted and encrypted again. */
  lemma UpBytes(job: Job)
    requires Waiting(job.start.split)
    ensures Concat(CryptEach(UpMessages(job.start.split, job.Plain()), job.eks, job.start.encPos))
         == Crypt(job.start.split.buf + Crypt(Concat(job.script), job.dks, job.start.decPos), job.eks, job.start.encPos)
  {
    var (made, split) := Feed(job.start.split, job.Plain());
    CryptEachConcat(UpMessages(job.start.split, job.Plain()), job.eks, job.start.encPos);
    ConcatAppend(made, NonEmpty(split.buf));
    ConcatOne(split.buf);
    FeedConserves(job.start.split, job.Plain());
    CryptEachConcat(job.script, job.dks, job.start.decPos);
  }

  /** The messages due have gone out as far as the sink accepts them, and their bytes are what was read, decrypted and
      encrypted again. */
  ghost predicate UpResult(job: Job, line: Line, from: nat, r: Receipt) {
    && Outcome(job.start.sent, UpDue(job), line, from, r)
    && var bytes := Crypt(Crypt(Concat(job.script), job.dks, job.start.decPos), job.eks, job.start.encPos);
       var up := r.Bytes(|job.start.sent|);
       up <= bytes && (r.all ==> up == bytes)
  }

  /** The client-to-Telegram loop. However the client's bytes are cut into reads, with or without a splitter, the
      messages sent up carry those bytes, decrypted with the client's keystream and encrypted with Telegram's, up to
      the first message that the sink refuses, and nothing else ever is sent. */
  method BridgeUp(client: Source, splitter: MsgSplitter?, cltDec: CipherStream, tgEnc: CipherStream, ws: Sink,
                  buf: array<byte>, slack: nat)
    returns (r: Receipt)
    requires client.next == 0 && forall c :: c in client.script ==> |c| <= buf.Length
    requires splitter != null ==>
        splitter.Valid() && splitter.arr != buf && splitter.View() == Fresh(splitter.proto)
    requires cltDec != tgEnc && ws.Valid()
    modifies client, cltDec, tgEnc, ws, buf, splitter, if splitter == null then {} else {splitter.arr}
    ensures UpResult(Job(client.script, cltDec.ks, tgEnc.ks, old(Now(splitter, cltDec, tgEnc, ws))),
                     ws.line, old(ws.tries), r)
    ensures r.sent == ws.sent
  {
    ghost var job := Job(client.script, cltDec.ks, tgEnc.ks, Now(splitter, cltDec, tgEnc, ws));
    UpEnd(job);
    var complete := CopyUp(client, splitter, cltDec, tgEnc, ws, buf, slack, job);
    r := ws.Receive(complete);
    UpDone(job, ws, old(ws.tries), r);
  }

  /** The messages that a job is to send, encrypted. */
  ghost function UpDue(job: Job): seq<seq<byte>> {
    CryptEach(UpMessages(job.start.split, job.Plain()), job.eks, job.start.encPos)
  }

  method CopyUp(client: Source, splitter: MsgSplitter?, cltDec: CipherStream, tgEnc: CipherStream, ws: Sink,
                buf: array<byte>,
                slack: nat, ghost job: Job)
    returns (complete: bool)
    requires client.next == 0 && forall c :: c in client.script ==> |c| <= buf.Length
    requires splitter != null ==> splitter.Valid() && splitter.arr != buf
    requires cltDec != tgEnc && ws.Valid()
    requires job == Job(client.script, cltDec.ks, tgEnc.ks, Now(splitter, cltDec, tgEnc, ws)) && UpEnds(job)
    modifies client, cltDec, tgEnc, ws, buf, splitter, if splitter == null then {} else {splitter.arr}
    ensures ws.Reached(job.start.sent + UpDue(job), complete)
    ensures ws.Since(old(ws.tries), |old(ws.sent)|, complete)
  {
    ghost var p := job.At(|job.script|);
    complete := CopyReads(client, splitter, cltDec, tgEnc, ws, buf, slack);
    if complete && splitter != null {
      complete := FlushOut(splitter, tgEnc, ws);
    } else {
      if !complete {
        PrefixTrans(ws.sent + [ws.refused], p.sent, job.start.sent + UpDue(job));
      }
      Whole(p.sent);
    }
  }

  /** The consequences for the bytes, and for when everything gets through. */
  lemma UpDone(job: Job, ws: Sink, from: nat, r: Receipt)
    requires Waiting(job.start.split) && job.start.split.buf == []
    requires ws.Reached(job.start.sent + UpDue(job), r.all) && r == ws.Receive(r.all)
    requires ws.Since(from, |job.start.sent|, r.all) && |job.start.sent| == Accepted(ws.line.accepts, from)
    ensures UpResult(job, ws.line, from, r)
  {
    UpBytes(job);
    NoFront(Crypt(Concat(job.script), job.dks, job.start.decPos));
    Finished(ws, job.start.sent, UpDue(job), from, r);
  }

  /** The same for any messages due. */
  lemma Finished(sink: Sink, before: seq<seq<byte>>, due: seq<seq<byte>>, from: nat, r: Receipt)
    requires sink.Reached(before + due, r.all) && r == sink.Receive(r.all)
    requires sink.Since(from, |before|, r.all) && |before| == Accepted(sink.line.accepts, from)
    ensures Outcome(before, due, sink.line, from, r)
    ensures r.Bytes(|before|) <= Concat(due) && (r.all ==> r.Bytes(|before|) == Concat(due))
  {
    var n := |sink.sent| - |before|;
    BothPrefixes(before, sink.sent, before + due);
    AcceptedRun(sink.line.accepts, from, n);
    if !r.all {
      assert sink.refused == (sink.sent + [sink.refused])[|sink.sent|] == (before + due)[|sink.sent|] == due[n];
    }
    OutcomeBytes(before, due, sink.line, from, r);
  }

  /** Sends what the splitter still holds; at most one message. */
  method FlushOut(splitter: MsgSplitter, tgEnc: CipherStream, ws: Sink) returns (ok: bool)
    requires splitter.Valid() && ws.Valid()
    modifies splitter, splitter.arr, tgEnc, ws
    ensures var all := old(ws.sent) + CryptEach(NonEmpty(old(splitter.View()).buf), tgEnc.ks, old(tgEnc.pos));
      ws.Reached(all, ok)
    ensures ws.Since(old(ws.tries), |old(ws.sent)|, ok)
  {
    ghost var rest := splitter.View().buf;
    var parts := splitter.Flush();
    ok := SendParts(parts, NonEmpty(rest), tgEnc, ws, Slice(splitter.arr, 0, 0));
  }

  /** With a fresh splitter that the guard leaves alone, and no impossible header in the stream, every message is one
      packet of the reference parse, encrypted; only the flush may carry the unfinished last one. */
  lemma UpMessagesArePackets(job: Job, proto: int)
    requires job.start.split == Fresh(proto) && Clean(proto, [], job.Plain())
    requires !Parse(proto, Crypt(Concat(job.script), job.dks, job.start.decPos)).bad
    ensures var p := Parse(proto, Crypt(Concat(job.script), job.dks, job.start.decPos));
      UpMessages(job.start.split, job.Plain()) == p.packets + NonEmpty(p.rest)
  {
    CryptEachConcat(job.script, job.dks, job.start.decPos);
    NoFront(Concat(job.Plain()));
    FeedMatches(job.start.split, job.Plain());
  }

  // ---------------------------------------------------------------------------------------------------------------
  // Telegram to client
  // ---------------------------------------------------------------------------------------------------------------

  /** One WebSocket message: its reads, and whether they end in a failure rather than at the message's end. */
  datatype Frame = Frame(binary: bool, chunks: seq<seq<byte>>, endsWithLast: bool, broken: bool)

  /** The reads the client is due: those of the binary messages, up to the first failure. */
  ghost function Body(frames: seq<Frame>): seq<seq<byte>> {
    if frames == [] then []
    else if !frames[0].binary then Body(frames[1..])
    else if frames[0].broken then frames[0].chunks
    else frames[0].chunks + Body(frames[1..])
  }

  class Upstream {
    const frames: seq<Frame>
    var next: nat

    constructor (frames: seq<Frame>)
      ensures this.frames == frames && next == 0
    {
      this.frames, next := frames, 0;
    }

    method NextReader() returns (f: Frame, r: Source, err: bool)
      requires next <= |frames|
      modifies this
      ensures fresh(r) && r.next == 0
      ensures if old(next) == |frames| then err && next == old(next)
              else !err && next == old(next) + 1 && f == frames[old(next)]
                   && r.script == f.chunks && r.failsWithLast == f.endsWithLast
    {
      err := next == |frames|;
      f := Frame(false, [], false, false);
      if !err {
        f, next := frames[next], next + 1;
      }
      r := new Source(f.chunks, f.endsWithLast);
    }
  }

  /** The non-empty ones. */
  ghost function NonEmptyOnes(chunks: seq<seq<byte>>): seq<seq<byte>> {
    if chunks == [] then [] else NonEmpty(chunks[0]) + NonEmptyOnes(chunks[1..])
  }

  lemma {:induction false} NonEmptyAppend(a: seq<seq<byte>>, b: seq<seq<byte>>)
    ensures NonEmptyOnes(a + b) == NonEmptyOnes(a) + NonEmptyOnes(b)
  {
    if a == [] {
      NoFront(b);
      NoFront(NonEmptyOnes(b));
    } else {
      NonEmptyAppend(a[1..], b);
      assert (a + b)[1..] == a[1..] + b;
      Assoc(NonEmpty(a[0]), NonEmptyOnes(a[1..]), NonEmptyOnes(b));
    }
  }

  /** Without a splitter, a chunk is a message. */
  lemma {:induction false} FeedKeeps(s: State, chunks: seq<seq<byte>>)
    requires s.disabled && s.buf == []
    ensures Feed(s, chunks) == (NonEmptyOnes(chunks), s) && Concat(NonEmptyOnes(chunks)) == Concat(chunks)
  {
    if chunks == [] {
    } else {
      FeedKeeps(s, chunks[1..]);
      ConcatOne(chunks[0]);
      ConcatAppend(NonEmpty(chunks[0]), NonEmptyOnes(chunks[1..]));
    }
  }

  /** The messages that `chunks` make for the client. */
  ghost function Transcoded(chunks: seq<seq<byte>>, dks: Keystream, dpos: nat, eks: Keystream,
                            epos: nat): seq<seq<byte>> {
    CryptEach(NonEmptyOnes(CryptEach(chunks, dks, dpos)), eks, epos)
  }

  lemma NonEmptyLength(chunks: seq<seq<byte>>, ks: Keystream, pos: nat)
    ensures |Concat(NonEmptyOnes(CryptEach(chunks, ks, pos)))| == |Concat(chunks)|
  {
    FeedKeeps(State(0, [], true), CryptEach(chunks, ks, pos));
    CryptEachConcat(chunks, ks, pos);
  }

  lemma CryptEachJoin(a: seq<seq<byte>>, b: seq<seq<byte>>, ks: Keystream, pos: nat, n: nat)
    requires n == |Concat(a)|
    ensures CryptEach(a + b, ks, pos) == CryptEach(a, ks, pos) + CryptEach(b, ks, pos + n)
  {
    CryptEachAppend(a, b, ks, pos);
  }

  lemma TranscodedJoin(a: seq<seq<byte>>, b: seq<seq<byte>>, dks: Keystream, dpos: nat, eks: Keystream, epos: nat,
                       n: nat)
    requires n == |Concat(a)|
    ensures Transcoded(a + b, dks, dpos, eks, epos)
         == Transcoded(a, dks, dpos, eks, epos) + Transcoded(b, dks, dpos + n, eks, epos + n)
  {
    var pa, pb := CryptEach(a, dks, dpos), CryptEach(b, dks, dpos + n);
    CryptEachJoin(a, b, dks, dpos, n);
    NonEmptyAppend(pa, pb);
    NonEmptyLength(a, dks, dpos);
    CryptEachJoin(NonEmptyOnes(pa), NonEmptyOnes(pb), eks, epos, n);
  }

  lemma TranscodedBytes(chunks: seq<seq<byte>>, dks: Keystream, dpos: nat, eks: Keystream, epos: nat)
    ensures Concat(Transcoded(chunks, dks, dpos, eks, epos)) == Crypt(Crypt(Concat(chunks), dks, dpos), eks, epos)
  {
    var plain := CryptEach(chunks, dks, dpos);
    FeedKeeps(State(0, [], true), plain);
    CryptEachConcat(NonEmptyOnes(plain), eks, epos);
    CryptEachConcat(chunks, dks, dpos);
  }

  lemma CopyIsTranscoding(job: Job)
    requires job.start.split == State(0, [], true)
    ensures var p := job.At(|job.script|);
      && p.sent == job.start.sent + Transcoded(job.script, job.dks, job.start.decPos, job.eks, job.start.encPos)
      && p.decPos == job.start.decPos + |Concat(job.script)|
      && p.encPos == job.start.encPos + |Concat(job.script)|
  {
    Whole(job.script);
    Whole(job.Plain());
    FeedKeeps(job.start.split, job.Plain());
    CryptEachConcat(job.script, job.dks, job.start.decPos);
  }

  /** One message's reads, without a splitter. */
  method CopyFrame(r: Source, tgDec: CipherStream, cltEnc: CipherStream, client: Sink,
                   buf: array<byte>) returns (ok: bool)
    requires r.next == 0 && forall c :: c in r.script ==> |c| <= buf.Length
    requires tgDec != cltEnc && client.Valid()
    modifies r, tgDec, cltEnc, client, buf
    ensures client.Reached(old(client.sent)
                           + Transcoded(r.script, tgDec.ks, old(tgDec.pos), cltEnc.ks, old(cltEnc.pos)), ok)
    ensures client.Since(old(client.tries), |old(client.sent)|, ok)
    ensures ok ==> tgDec.pos == old(tgDec.pos) + |Concat(r.script)|
    ensures ok ==> cltEnc.pos == old(cltEnc.pos) + |Concat(r.script)|
  {
    ghost var job := Job(r.script, tgDec.ks, cltEnc.ks, Now(null, tgDec, cltEnc, client));
    CopyIsTranscoding(job);
    ok := CopyReads(r, null, tgDec, cltEnc, client, buf, 0);
  }

  lemma BodyNext(seen: seq<seq<byte>>, frames: seq<Frame>, k: nat, whole: seq<seq<byte>>)
    requires k < |frames| && whole == seen + Body(frames[k..])
    ensures !frames[k].binary ==> whole == seen + Body(frames[k + 1..])
    ensures frames[k].binary && frames[k].broken ==> whole == seen + frames[k].chunks
    ensures frames[k].binary && !frames[k].broken ==> whole == seen + frames[k].chunks + Body(frames[k + 1..])
    ensures frames[k].binary ==> seen + frames[k].chunks <= whole
  {
    assert frames[k..][0] == frames[k] && frames[k..][1..] == frames[k + 1..];
    Assoc(seen, frames[k].chunks, Body(frames[k + 1..]));
  }

  lemma TranscodedPrefix(a: seq<seq<byte>>, b: seq<seq<byte>>, dks: Keystream, dpos: nat, eks: Keystream, epos: nat)
    requires a <= b
    ensures Transcoded(a, dks, dpos, eks, epos) <= Transcoded(b, dks, dpos, eks, epos)
  {
    assert b == a + b[|a|..];
    TranscodedJoin(a, b[|a|..], dks, dpos, eks, epos, |Concat(a)|);
  }

  lemma Longer<T>(before: seq<T>, a: seq<T>, b: seq<T>, c: seq<T>)
    requires a + b <= c
    ensures before + a + b == before + (a + b) <= before + c
  {
  }

  /** How far the Telegram-to-client loop has come: the chunks seen so far have been passed on. */
  datatype Progress = Progress(dks: Keystream, eks: Keystream, dpos: nat, epos: nat, before: seq<seq<byte>>) {
    ghost predicate Passed(seen: seq<seq<byte>>, dec: nat, enc: nat, sent: seq<seq<byte>>) {
      && dec == dpos + |Concat(seen)|
      && enc == epos + |Concat(seen)|
      && sent == before + Due(seen)
    }

    /** The messages due for `chunks`. */
    ghost function Due(chunks: seq<seq<byte>>): seq<seq<byte>> {
      Transcoded(chunks, dks, dpos, eks, epos)
    }

    lemma DueMore(seen: seq<seq<byte>>, chunks: seq<seq<byte>>, whole: seq<seq<byte>>)
      requires seen + chunks <= whole
      ensures var n := |Concat(seen)|;
        Due(seen + chunks) == Due(seen) + Transcoded(chunks, dks, dpos + n, eks, epos + n) <= Due(whole)
    {
      TranscodedJoin(seen, chunks, dks, dpos, eks, epos, |Concat(seen)|);
      TranscodedPrefix(seen + chunks, whole, dks, dpos, eks, epos);
    }

    /** Once `chunks` have been passed on behind `sent`, `now` is what has been sent, or all but the message refused. */
    lemma PassedMore(seen: seq<seq<byte>>, chunks: seq<seq<byte>>, whole: seq<seq<byte>>, dec: nat, enc: nat,
                     sent: seq<seq<byte>>)
      requires Passed(seen, dec, enc, sent) && seen + chunks <= whole
      ensures var now := sent + Transcoded(chunks, dks, dec, eks, enc);
        && Passed(seen + chunks, dec + |Concat(chunks)|, enc + |Concat(chunks)|, now)
        && now <= before + Due(whole)
    {
      DueMore(seen, chunks, whole);
      var due, more := Due(seen), Transcoded(chunks, dks, dec, eks, enc);
      Longer(before, due, more, Due(whole));
      ConcatAppend(seen, chunks);
    }
  }

  /** The Telegram-to-client loop. However messages are cut into reads, the client receives the bytes of the binary
      messages up to the first failed read, decrypted with Telegram's keystream and encrypted with the client's, up to
      the first chunk that the client's side refuses, and nothing else. */
  method BridgeDown(ws: Upstream, tgDec: CipherStream, cltEnc: CipherStream, client: Sink, buf: array<byte>)
    returns (r: Receipt)
    requires ws.next == 0 && forall f, c :: f in ws.frames && c in f.chunks ==> |c| <= buf.Length
    requires tgDec != cltEnc && client.Valid()
    modifies ws, tgDec, cltEnc, client, buf
    ensures var due := Transcoded(Body(ws.frames), tgDec.ks, old(tgDec.pos), cltEnc.ks, old(cltEnc.pos));
      Outcome(old(client.sent), due, client.line, old(client.tries), r)
    ensures var bytes := Crypt(Crypt(Concat(Body(ws.frames)), tgDec.ks, old(tgDec.pos)), cltEnc.ks, old(cltEnc.pos));
      var down := r.Bytes(|old(client.sent)|);
      down <= bytes && (r.all ==> down == bytes)
    ensures r.sent == client.sent
  {
    ghost var whole, seen: seq<seq<byte>> := Body(ws.frames), [];
    ghost var p := Progress(tgDec.ks, cltEnc.ks, tgDec.pos, cltEnc.pos, client.sent);
    var complete, done := true, false;
    Whole(client.sent);
    while complete && !done
      invariant ws.next <= |ws.frames|
      invariant whole == seen + if done then [] else Body(ws.frames[ws.next..])
      invariant complete ==> p.Passed(seen, tgDec.pos, cltEnc.pos, client.sent)
      invariant complete || client.Reached(p.before + p.Due(whole), false)
      invariant client.Since(old(client.tries), |old(client.sent)|, complete)
      decreases !done, |ws.frames| - ws.next
    {
      complete, done, seen := DownOnce(ws, tgDec, cltEnc, client, buf, p, seen, whole);
    }
    Whole(seen);
    if complete {
      assert whole == seen;
      assert client.sent == p.before + p.Due(whole);
    }
    r := client.Receive(complete);
    TranscodedBytes(whole, p.dks, p.dpos, p.eks, p.epos);
    Finished(client, p.before, p.Due(whole), old(client.tries), r);
  }

  /** One message of the loop. */
  method DownOnce(ws: Upstream, tgDec: CipherStream, cltEnc: CipherStream, client: Sink, buf: array<byte>,
                  ghost p: Progress, ghost seen: seq<seq<byte>>, ghost whole: seq<seq<byte>>)
    returns (complete: bool, done: bool, ghost now: seq<seq<byte>>)
    requires ws.next <= |ws.frames| && forall f, c :: f in ws.frames && c in f.chunks ==> |c| <= buf.Length
    requires tgDec != cltEnc && client.Valid() && p.dks == tgDec.ks && p.eks == cltEnc.ks
    requires whole == seen + Body(ws.frames[ws.next..])
    requires p.Passed(seen, tgDec.pos, cltEnc.pos, client.sent)
    modifies ws, tgDec, cltEnc, client, buf
    ensures ws.next <= |ws.frames| && (done || ws.next == old(ws.next) + 1)
    ensures whole == now + if done then [] else Body(ws.frames[ws.next..])
    ensures complete ==> p.Passed(now, tgDec.pos, cltEnc.pos, client.sent)
    ensures complete || client.Reached(p.before + p.Due(whole), false)
    ensures client.Since(old(client.tries), |old(client.sent)|, complete)
  {
    ghost var k, dec, enc, sent := ws.next, tgDec.pos, cltEnc.pos, client.sent;
    now, complete, done := seen, true, false;
    var f, r, err := ws.NextReader();
    if err {
      done := true;
      return;
    }
    BodyNext(seen, ws.frames, k, whole);
    if f.binary {
      assert f in ws.frames;
      complete := CopyFrame(r, tgDec, cltEnc, client, buf);
      p.PassedMore(seen, f.chunks, whole, dec, enc, sent);
      if !complete {
        PrefixTrans(client.sent + [client.refused], sent + Transcoded(f.chunks, p.dks, dec, p.eks, enc),
                    p.before + p.Due(whole));
      }
      now := seen + f.chunks;
      done := f.broken;
    }
  }
}
