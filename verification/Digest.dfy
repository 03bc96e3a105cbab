/** The configuration digest: 64-bit FNV-1a over the UTF-8 bytes of the text, written in base 36. */
module Digest {

  import opened Numerals

  const TWO_TO_64 := 0x1_0000_0000_0000_0000
  type uint64 = x: int | 0 <= x < TWO_TO_64

  /** Section 2 of draft-eastlake-fnv: the 64-bit offset basis. */
  const OFFSET_BASIS: uint64 := 0xcbf29ce484222325

  /** The product with the 64-bit FNV prime, modulo 2^64. */
  function TimesPrime(x: uint64): uint64 {
    (x * 0x100000001b3) % TWO_TO_64
  }

  /** The product with the inverse of the prime: 0x100000001b3 * 0xce965057aff6957b == 1 + 0xce9650590f * 2^64. */
  function OverPrime(x: uint64): uint64 {
    (x * 0xce965057aff6957b) % TWO_TO_64
  }

  function Pow2(n: nat): (p: nat)
    ensures p >= 1
  {
    if n == 0 then 1 else 2 * Pow2(n - 1)
  }

  /** Bitwise exclusive or of the low n bits. */
  function Xor(a: nat, b: nat, n: nat): nat
    decreases n
  {
    if n == 0 then 0 else 2 * Xor(a / 2, b / 2, n - 1) + (if a % 2 == b % 2 then 0 else 1)
  }

  lemma {:induction false} XorSelfInverse(a: nat, b: nat, n: nat)
    requires a < Pow2(n)
    ensures Xor(a, b, n) < Pow2(n)
    ensures Xor(Xor(a, b, n), b, n) == a
    decreases n
  {
    if n == 0 {
    } else {
      XorSelfInverse(a / 2, b / 2, n - 1);
      assert Xor(a, b, n) / 2 == Xor(a / 2, b / 2, n - 1);
    }
  }

  lemma {:induction false} XorSymmetric(a: nat, b: nat, n: nat)
    ensures Xor(a, b, n) == Xor(b, a, n)
    decreases n
  {
    if n == 0 {
    } else {
      XorSymmetric(a / 2, b / 2, n - 1);
    }
  }

  lemma EightBits()
    ensures Pow2(8) == 0x100
  {
    assert Pow2(4) == 16;
  }

  function XorBytes(a: byte, b: byte): (c: byte)
    ensures c == Xor(a, b, 8)
  {
    EightBits();
    XorSelfInverse(a, b, 8);
    Xor(a, b, 8)
  }

  /** The state with its low eight bits replaced. */
  function WithLowByte(h: uint64, low: byte): (r: uint64)
    ensures r / 0x100 == h / 0x100
    ensures r % 0x100 == low
  {
    h / 0x100 * 0x100 + low
  }

  /** Exclusive or with a byte only reaches the low eight bits. */
  function XorByte(h: uint64, b: byte): uint64 {
    WithLowByte(h, XorBytes(h % 0x100, b))
  }

  /** One FNV-1a step. */
  function Mix(h: uint64, b: byte): uint64 {
    TimesPrime(XorByte(h, b))
  }

  function Unmix(h: uint64, b: byte): uint64 {
    XorByte(OverPrime(h), b)
  }

  lemma XorByteTwice(h: uint64, b: byte)
    ensures XorByte(XorByte(h, b), b) == h
  {
    EightBits();
    XorSelfInverse(h % 0x100, b, 8);
    assert h == h / 0x100 * 0x100 + h % 0x100;
  }

  /** Multiplying by the prime is undone by multiplying by its inverse. */
  lemma PrimeInvertible(x: uint64)
    ensures OverPrime(TimesPrime(x)) == x
    ensures TimesPrime(OverPrime(x)) == x
  {
    var q := x * 0x100000001b3 / TWO_TO_64;
    assert TimesPrime(x) == x * 0x100000001b3 - q * TWO_TO_64;
    Residue(TimesPrime(x) * 0xce965057aff6957b, x, x * 0xce9650590f - q * 0xce965057aff6957b);
    var r := x * 0xce965057aff6957b / TWO_TO_64;
    assert OverPrime(x) == x * 0xce965057aff6957b - r * TWO_TO_64;
    Residue(OverPrime(x) * 0x100000001b3, x, x * 0xce9650590f - r * 0x100000001b3);
  }

  lemma Residue(n: int, x: uint64, k: int)
    requires n == x + k * TWO_TO_64
    ensures n % TWO_TO_64 == x
  {
  }

  /** For each byte, the step is a bijection on the 64-bit state. */
  lemma MixBijective(h: uint64, b: byte)
    ensures Unmix(Mix(h, b), b) == h
    ensures Mix(Unmix(h, b), b) == h
  {
    PrimeInvertible(XorByte(h, b));
    XorByteTwice(h, b);
    XorByteTwice(OverPrime(h), b);
    PrimeInvertible(h);
  }

  /** From one state, different bytes lead to different states. */
  lemma MixSeparatesBytes(h: uint64, b: byte, c: byte)
    requires Mix(h, b) == Mix(h, c)
    ensures b == c
  {
    PrimeInvertible(XorByte(h, b));
    PrimeInvertible(XorByte(h, c));
    EightBits();
    XorSymmetric(h % 0x100, b, 8);
    XorSymmetric(h % 0x100, c, 8);
    XorSelfInverse(b, h % 0x100, 8);
    XorSelfInverse(c, h % 0x100, 8);
  }

  /** The state after reading bytes from state h. */
  function Absorb(h: uint64, bytes: seq<byte>): uint64
    decreases |bytes|
  {
    if bytes == [] then h else Absorb(Mix(h, bytes[0]), bytes[1..])
  }

  function Hash(bytes: seq<byte>): uint64 {
    Absorb(OFFSET_BASIS, bytes)
  }

  /** The stateful hasher: Write may be called in pieces. */
  class Hasher {
    var sum: uint64

    constructor ()
      ensures sum == OFFSET_BASIS
    {
      sum := OFFSET_BASIS;
    }

    method Write(bytes: seq<byte>)
      modifies this
      ensures sum == Absorb(old(sum), bytes)
    {
      var i := 0;
      while i < |bytes|
        invariant 0 <= i <= |bytes|
        invariant Absorb(sum, bytes[i..]) == Absorb(old(sum), bytes)
      {
        sum := Mix(sum, bytes[i]);
        i := i + 1;
      }
    }
  }

  lemma {:induction false} AbsorbConcat(h: uint64, p: seq<byte>, s: seq<byte>)
    ensures Absorb(h, p + s) == Absorb(Absorb(h, p), s)
    decreases |p|
  {
    if p == [] {
      assert p + s == s;
    } else {
      assert (p + s)[1..] == p[1..] + s;
      AbsorbConcat(Mix(h, p[0]), p[1..], s);
    }
  }

  /** Reading the same bytes from two states keeps them apart. */
  lemma {:induction false} AbsorbInjective(h: uint64, g: uint64, s: seq<byte>)
    ensures Absorb(h, s) == Absorb(g, s) <==> h == g
    decreases |s|
  {
    if s == [] {
    } else {
      MixBijective(h, s[0]);
      MixBijective(g, s[0]);
      AbsorbInjective(Mix(h, s[0]), Mix(g, s[0]), s[1..]);
    }
  }

  /** A common suffix neither hides nor creates a collision. */
  lemma CommonSuffix(p: seq<byte>, q: seq<byte>, s: seq<byte>)
    ensures Hash(p + s) == Hash(q + s) <==> Hash(p) == Hash(q)
  {
    AbsorbConcat(OFFSET_BASIS, p, s);
    AbsorbConcat(OFFSET_BASIS, q, s);
    AbsorbInjective(Hash(p), Hash(q), s);
  }

  /** Byte strings that differ in exactly one byte never collide. */
  lemma OneByteChange(p: seq<byte>, b: byte, c: byte, s: seq<byte>)
    ensures Hash(p + [b] + s) == Hash(p + [c] + s) <==> b == c
  {
    CommonSuffix(p + [b], p + [c], s);
    AbsorbConcat(OFFSET_BASIS, p, [b]);
    AbsorbConcat(OFFSET_BASIS, p, [c]);
    AbsorbOne(Hash(p), b);
    AbsorbOne(Hash(p), c);
    if Hash(p + [b]) == Hash(p + [c]) {
      MixSeparatesBytes(Hash(p), b, c);
    }
  }

  lemma AbsorbOne(h: uint64, b: byte)
    ensures Absorb(h, [b]) == Mix(h, b)
  {
    assert [b][1..] == [];
  }

  /** The UTF-8 encoding of one character. */
  function EncodeChar(c: char): seq<byte> {
    var u := c as int;
    if u < 0x80 then [u]
    else if u < 0x800 then [0xC0 + u / 0x40, Continuation(u)]
    else if u < 0x10000 then [0xE0 + u / 0x1000, Continuation(u / 0x40), Continuation(u)]
    else [0xF0 + u / 0x40000, Continuation(u / 0x1000), Continuation(u / 0x40), Continuation(u)]
  }

  function Continuation(u: nat): byte {
    0x80 + u % 0x40
  }

  function Encode(s: string): seq<byte> {
    if s == "" then [] else EncodeChar(s[0]) + Encode(s[1..])
  }

  lemma {:induction false} EncodeConcat(s: string, t: string)
    ensures Encode(s + t) == Encode(s) + Encode(t)
    decreases |s|
  {
    if s == "" {
      assert s + t == t;
    } else {
      assert (s + t)[1..] == s[1..] + t;
      EncodeConcat(s[1..], t);
    }
  }

  /** The bits of a byte below m. */
  function Bits(b: byte, m: nat): (r: nat)
    requires m > 0
  {
    var n: nat := b;
    n % m
  }

  /** One character read back, as section 3 of RFC 3629 lays its bits out. */
  function DecodeChar(b: seq<byte>): nat
    requires b != []
  {
    if b[0] < 0x80 then b[0]
    else if b[0] < 0xE0 && |b| >= 2 then Bits(b[0], 0x20) * 0x40 + Bits(b[1], 0x40)
    else if b[0] < 0xF0 && |b| >= 3 then
      Bits(b[0], 0x10) * 0x1000 + Bits(b[1], 0x40) * 0x40 + Bits(b[2], 0x40)
    else if |b| >= 4 then
      Bits(b[0], 0x08) * 0x40000 + Bits(b[1], 0x40) * 0x1000 + Bits(b[2], 0x40) * 0x40 + Bits(b[3], 0x40)
    else 0
  }

  lemma TwoBytes(u: nat)
    requires u < 0x800
    ensures Bits(0xC0 + u / 0x40, 0x20) * 0x40 + Bits(Continuation(u), 0x40) == u
  {
    var q := u / 0x40;
    assert q < 0x20 && (0xC0 + q) % 0x20 == q;
  }

  lemma ThreeBytes(u: nat)
    requires u < 0x10000
    ensures Bits(0xE0 + u / 0x1000, 0x10) * 0x1000 + Bits(Continuation(u / 0x40), 0x40) * 0x40
            + Bits(Continuation(u), 0x40) == u
  {
    var q := u / 0x1000;
    assert q < 0x10 && (0xE0 + q) % 0x10 == q;
    assert q == u / 0x40 / 0x40;
  }

  lemma FourBytes(u: nat)
    requires u < 0x20_0000
    ensures Bits(0xF0 + u / 0x40000, 0x08) * 0x40000 + Bits(Continuation(u / 0x1000), 0x40) * 0x1000
            + Bits(Continuation(u / 0x40), 0x40) * 0x40 + Bits(Continuation(u), 0x40) == u
  {
    var q := u / 0x40000;
    assert q < 0x08 && (0xF0 + q) % 0x08 == q;
    assert q == u / 0x1000 / 0x40 && u / 0x1000 == u / 0x40 / 0x40;
  }

  /** The encoding of a character is read back whatever follows. */
  lemma CharReadBack(c: char, rest: seq<byte>)
    ensures DecodeChar(EncodeChar(c) + rest) == c as int
  {
    var u, b := c as int, EncodeChar(c) + rest;
    assert forall i :: 0 <= i < |EncodeChar(c)| ==> b[i] == EncodeChar(c)[i];
    hide Continuation;
    hide Bits;
    if u < 0x80 {
    } else if u < 0x800 {
      TwoBytes(u);
    } else if u < 0x10000 {
      ThreeBytes(u);
    } else {
      FourBytes(u);
    }
  }

  lemma SameChar(c: char, d: char, s: seq<byte>, t: seq<byte>)
    requires EncodeChar(c) + s == EncodeChar(d) + t
    ensures c == d && s == t
  {
    CharReadBack(c, s);
    CharReadBack(d, t);
    var n := |EncodeChar(c)|;
    assert s == (EncodeChar(c) + s)[n..] && t == (EncodeChar(d) + t)[n..];
  }

  /** Different texts have different bytes. */
  lemma {:induction false} EncodeInjective(s: string, t: string)
    requires Encode(s) == Encode(t)
    ensures s == t
    decreases |s|
  {
    hide EncodeChar;
    if s == "" || t == "" {
      NotEmpty(s);
      NotEmpty(t);
    } else {
      SameChar(s[0], t[0], Encode(s[1..]), Encode(t[1..]));
      EncodeInjective(s[1..], t[1..]);
      assert s == [s[0]] + s[1..] && t == [t[0]] + t[1..];
    }
  }

  lemma NotEmpty(s: string)
    ensures Encode(s) == [] <==> s == ""
  {
  }

  /** The digest written in the pod annotation: FormatUint(Sum64, 36). */
  function Digest(text: string): (d: string)
    ensures |d| > 0
  {
    Format(Hash(Encode(text)), 36)
  }

  /** Base 36 loses nothing: digests agree exactly when the hashes do. */
  lemma DigestIsHash(t: string, u: string)
    ensures Digest(t) == Digest(u) <==> Hash(Encode(t)) == Hash(Encode(u))
  {
    if Digest(t) == Digest(u) {
      FormatInjective(Hash(Encode(t)), Hash(Encode(u)), 36);
    }
  }

  lemma XorOfA()
    ensures Xor(0x25, 0x61, 8) == 0x44
  {
    assert Xor(1, 3, 3) == 2;
    assert Xor(2, 6, 4) == 4;
    assert Xor(4, 0xc, 5) == 8;
    assert Xor(9, 0x18, 6) == 0x11;
    assert Xor(0x12, 0x30, 7) == 0x22;
  }

  lemma PrimeTimesA()
    ensures TimesPrime(0xcbf29ce484222344) == 0xaf63dc4c8601ec8c
  {
    Residue(0xcbf29ce484222344 * 0x100000001b3, 0xaf63dc4c8601ec8c, 0xcbf29ce5de);
  }

  lemma FirstByteA()
    ensures XorByte(0xcbf29ce484222325, 0x61) == 0xcbf29ce484222344
  {
    XorOfA();
    hide Xor;
  }

  /** The published test vectors (section 6 of draft-eastlake-fnv) for the empty text and for "a". */
  lemma PublishedVectors()
    ensures Hash(Encode("")) == 0xcbf29ce484222325
    ensures Hash(Encode("a")) == 0xaf63dc4c8601ec8c
  {
    EncodeAscii('a');
    AbsorbOne(OFFSET_BASIS, 0x61);
    FirstByteA();
    PrimeTimesA();
    AbsorbNothing(OFFSET_BASIS);
    hide XorByte;
    hide TimesPrime;
    hide Absorb;
  }

  lemma AbsorbNothing(h: uint64)
    ensures Absorb(h, []) == h && Encode("") == []
  {
  }

  lemma EncodeAscii(c: char)
    requires c as int < 0x80
    ensures Encode([c]) == [c as int]
  {
    assert [c][1..] == "";
    assert Encode([c]) == EncodeChar(c) + [];
  }

  /** Texts that differ in exactly one ASCII character have different digests. */
  lemma OneCharacterChange(p: string, c: char, d: char, s: string)
    requires c as int < 0x80 && d as int < 0x80
    ensures Digest(p + [c] + s) == Digest(p + [d] + s) <==> c == d
  {
    EncodeAscii(c);
    EncodeAscii(d);
    EncodeConcat(p + [c], s);
    EncodeConcat(p + [d], s);
    EncodeConcat(p, [c]);
    EncodeConcat(p, [d]);
    OneByteChange(Encode(p), c as int, d as int, Encode(s));
    DigestIsHash(p + [c] + s, p + [d] + s);
  }

}
