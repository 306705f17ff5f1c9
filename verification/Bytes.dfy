/** Bytes, exclusive or, keystreams and concatenation. */
module Bytes {
  import opened Powers

  type byte = b: int | 0 <= b < 256

  /** Multi-byte integers, least significant byte first. */
  function Le24(a: byte, b: byte, c: byte): nat {
    (a as int) + (b as int) * 0x100 + (c as int) * 0x10000
  }

  function Le32(a: byte, b: byte, c: byte, d: byte): nat {
    Le24(a, b, c) + (d as int) * 0x1000000
  }

  /** Sixteen-bit integers, most significant byte first; storing one keeps its low sixteen bits. */
  function Be16(a: byte, b: byte): nat {
    (a as int) * 0x100 + (b as int)
  }

  function PutBe16(x: nat): (out: seq<byte>)
    ensures |out| == 2 && (x < 0x10000 ==> 0x100 * (out[0] as int) + out[1] as int == x)
  {
    var u := if x < 0x10000 then x else x % 0x10000;
    assert 0x100 * (u / 0x100) + u % 0x100 == u;
    var high: byte, low: byte :| 0x100 * (high as int) + low as int == u;
    [high, low]
  }

  lemma PutBe16Be16(a: byte, b: byte)
    ensures PutBe16(Be16(a, b)) == [a, b]
  {
  }

  function XorBit(a: nat, b: nat): nat {
    (a % 2 + b % 2) % 2
  }

  lemma XorBitCancel(a: nat, b: nat)
    ensures XorBit(a, b) < 2
    ensures XorBit(XorBit(a, b), b) == a % 2 && XorBit(XorBit(a, b), a) == b % 2
  {
  }

  lemma Digits(bit: nat, rest: nat)
    requires bit < 2
    ensures (bit + 2 * rest) % 2 == bit && (bit + 2 * rest) / 2 == rest
  {
  }

  /** The exclusive or of the low `n` bits. */
  function XorBits(a: nat, b: nat, n: nat): nat {
    if n == 0 then 0 else XorBit(a, b) + 2 * XorBits(a / 2, b / 2, n - 1)
  }

  lemma {:induction false} XorBitsBound(a: nat, b: nat, n: nat)
    ensures XorBits(a, b, n) < Pow2(n)
  {
    if n == 0 {
    } else {
      XorBitCancel(a, b);
      XorBitsBound(a / 2, b / 2, n - 1);
    }
  }

  lemma XorBitLow(bit: nat, rest: nat, b: nat)
    requires bit < 2
    ensures XorBit(bit + 2 * rest, b) == XorBit(bit, b)
  {
    Digits(bit, rest);
  }

  /** Either operand undoes its own effect. */
  lemma {:induction false} XorBitsCancel(a: nat, b: nat, n: nat)
    requires a < Pow2(n) && b < Pow2(n)
    ensures XorBits(XorBits(a, b, n), b, n) == a && XorBits(XorBits(a, b, n), a, n) == b
  {
    if n == 0 {
    } else {
      var bit, rest := XorBit(a, b), XorBits(a / 2, b / 2, n - 1);
      XorBitCancel(a, b);
      Digits(bit, rest);
      XorBitLow(bit, rest, a);
      XorBitLow(bit, rest, b);
      XorBitsCancel(a / 2, b / 2, n - 1);
    }
  }

  function Xor(a: byte, b: byte): byte {
    Pow2Table();
    XorBitsBound(a, b, 8);
    XorBits(a, b, 8)
  }

  /** Nothing is changed by zero, and the order does not matter. */
  lemma {:induction false} XorBitsLaws(a: nat, b: nat, n: nat)
    requires a < Pow2(n) && b < Pow2(n)
    ensures XorBits(a, 0, n) == a && XorBits(a, b, n) == XorBits(b, a, n)
  {
    if n == 0 {
    } else {
      XorBitsLaws(a / 2, b / 2, n - 1);
    }
  }

  lemma XorLaws(a: byte, b: byte)
    ensures Xor(a, 0) == a && Xor(a, b) == Xor(b, a)
  {
    Pow2Table();
    XorBitsLaws(a, b, 8);
  }

  lemma XorCancel(a: byte, b: byte)
    ensures Xor(Xor(a, b), b) == a && Xor(Xor(a, b), a) == b
  {
    Pow2Table();
    XorBitsCancel(a, b, 8);
  }

  /** The infinite keystream of one key and IV in counter mode (section 6.5 of NIST SP 800-38A). */
  type Keystream = nat -> byte

  /** Encryption and decryption alike: `data` combined with the keystream from position `pos`. */
  function Crypt(data: seq<byte>, ks: Keystream, pos: nat): (out: seq<byte>)
    ensures |out| == |data|
    ensures forall i :: 0 <= i < |data| ==> out[i] == Xor(data[i], ks(pos + i))
  {
    seq(|data|, i requires 0 <= i < |data| => Xor(data[i], ks(pos + i)))
  }

  lemma CryptTwice(data: seq<byte>, ks: Keystream, pos: nat)
    ensures Crypt(Crypt(data, ks, pos), ks, pos) == data
  {
    forall i | 0 <= i < |data| ensures Crypt(Crypt(data, ks, pos), ks, pos)[i] == data[i] {
      XorCancel(data[i], ks(pos + i));
    }
  }

  lemma CryptAppend(a: seq<byte>, b: seq<byte>, ks: Keystream, pos: nat)
    ensures Crypt(a + b, ks, pos) == Crypt(a, ks, pos) + Crypt(b, ks, pos + |a|)
  {
  }

  lemma Assoc<T>(a: seq<T>, b: seq<T>, c: seq<T>)
    ensures (a + b) + c == a + (b + c)
  {
  }

  lemma CutFront<T>(a: seq<T>, b: seq<T>, n: nat)
    requires n <= |a|
    ensures (a + b)[..n] == a[..n] && (a + b)[n..] == a[n..] + b
  {
  }

  lemma NoFront<T>(a: seq<T>)
    ensures [] + a == a
  {
  }

  function Concat(parts: seq<seq<byte>>): seq<byte> {
    if parts == [] then [] else parts[0] + Concat(parts[1..])
  }

  lemma {:induction false} ConcatAppend(a: seq<seq<byte>>, b: seq<seq<byte>>)
    ensures Concat(a + b) == Concat(a) + Concat(b)
  {
    if a == [] {
      assert a + b == b;
    } else {
      ConcatAppend(a[1..], b);
      assert (a + b)[0] == a[0] && (a + b)[1..] == a[1..] + b;
      Assoc(a[0], Concat(a[1..]), Concat(b));
    }
  }

  lemma ConcatCons(a: seq<byte>, rest: seq<seq<byte>>)
    ensures Concat([a] + rest) == a + Concat(rest)
  {
    assert ([a] + rest)[1..] == rest;
  }

  lemma ConcatOne(a: seq<byte>)
    ensures Concat([a]) == a
  {
    assert Concat([a]) == a + Concat([]);
  }

  /** Messages encrypted one after the other with a running stream position. */
  function CryptEach(parts: seq<seq<byte>>, ks: Keystream, pos: nat): (out: seq<seq<byte>>)
    ensures |out| == |parts|
  {
    if parts == [] then [] else [Crypt(parts[0], ks, pos)] + CryptEach(parts[1..], ks, pos + |parts[0]|)
  }

  /** Message boundaries are invisible to the stream cipher. */
  lemma {:induction false} CryptEachConcat(parts: seq<seq<byte>>, ks: Keystream, pos: nat)
    ensures Concat(CryptEach(parts, ks, pos)) == Crypt(Concat(parts), ks, pos)
  {
    if parts == [] {
    } else {
      CryptEachConcat(parts[1..], ks, pos + |parts[0]|);
      CryptAppend(parts[0], Concat(parts[1..]), ks, pos);
      assert CryptEach(parts, ks, pos)[1..] == CryptEach(parts[1..], ks, pos + |parts[0]|);
    }
  }

  lemma {:induction false} CryptEachAppend(a: seq<seq<byte>>, b: seq<seq<byte>>, ks: Keystream, pos: nat)
    ensures CryptEach(a + b, ks, pos) == CryptEach(a, ks, pos) + CryptEach(b, ks, pos + |Concat(a)|)
  {
    if a == [] {
      assert a + b == b;
    } else {
      var next := pos + |a[0]|;
      CryptEachAppend(a[1..], b, ks, next);
      assert (a + b)[0] == a[0] && (a + b)[1..] == a[1..] + b;
      Assoc([Crypt(a[0], ks, pos)], CryptEach(a[1..], ks, next), CryptEach(b, ks, next + |Concat(a[1..])|));
    }
  }
}
