/**
 The SM3 hash function as GB/T 32905-2016 defines it: constants and functions of section 4, padding of
 section 5.2, and iteration, message expansion and compression of section 5.3. Messages are whole bytes.
 */
module Sm3Standard {
  import opened Bits

  type Byte = x: int | 0 <= x < 256

  // ----- section 4

  const IV: seq<Word> := [
    0x7380166F, 0x4914B2B9, 0x172442D7, 0xDA8A0600, 0xA96F30BC, 0x163138AA, 0xE38DEE4D, 0xB0FB0E4E
  ]

  function T(j: nat): Word {
    if j < 16 then 0x79CC4519 else 0x7A879D8A
  }

  function FF(j: nat, x: Word, y: Word, z: Word): Word {
    if j < 16 then Xor32(Xor32(x, y), z) else Or32(Or32(And32(x, y), And32(x, z)), And32(y, z))
  }

  function GG(j: nat, x: Word, y: Word, z: Word): Word {
    if j < 16 then Xor32(Xor32(x, y), z) else Or32(And32(x, y), And32(Not32(x), z))
  }

  /** Rotation to the left by `k mod 32` bits. */
  function Rotl(x: Word, k: nat): Word {
    (x * Pow2(k % 32) + x / Pow2(32 - k % 32)) % TWO32
  }

  function P0(x: Word): Word {
    Xor32(Xor32(x, Rotl(x, 9)), Rotl(x, 17))
  }

  function P1(x: Word): Word {
    Xor32(Xor32(x, Rotl(x, 15)), Rotl(x, 23))
  }

  // ----- section 5.2

  function Zeros(n: nat): (s: seq<Byte>)
    ensures |s| == n
  {
    seq(n, _ => 0)
  }

  function BigEndian(x: nat, n: nat): (s: seq<Byte>)
    ensures |s| == n
  {
    if n == 0 then [] else BigEndian(x / 256, n - 1) + [x % 256]
  }

  /** The bit `1`, the least number of bits `0` that leaves room for the length, and the length in bits. */
  function Padding(length: nat): (s: seq<Byte>)
    ensures |s| == 9 + (55 - length) % 64
  {
    [0x80] + Zeros((55 - length) % 64) + BigEndian(8 * length, 8)
  }

  function Padded(m: seq<Byte>): (p: seq<Byte>)
    ensures |p| % 64 == 0 && |p| > 0
  {
    m + Padding(|m|)
  }

  // ----- section 5.3.2

  function BigEndianWord(b: seq<Byte>): Word
    requires |b| == 4
  {
    ((b[0] * 256 + b[1] as int) * 256 + b[2] as int) * 256 + b[3]
  }

  function W(b: seq<Byte>, j: nat): Word
    requires |b| == 64
  {
    if j < 16 then BigEndianWord(b[4 * j..4 * j + 4])
    else
      Xor32(Xor32(P1(Xor32(Xor32(W(b, j - 16), W(b, j - 9)), Rotl(W(b, j - 3), 15))), Rotl(W(b, j - 13), 7)),
            W(b, j - 6))
  }

  function W'(b: seq<Byte>, j: nat): Word
    requires |b| == 64
  {
    Xor32(W(b, j), W(b, j + 4))
  }

  // ----- section 5.3.3

  datatype Registers = Registers(a: Word, b: Word, c: Word, d: Word, e: Word, f: Word, g: Word, h: Word)

  function Load(v: seq<Word>): Registers
    requires |v| == 8
  {
    Registers(v[0], v[1], v[2], v[3], v[4], v[5], v[6], v[7])
  }

  function Round(r: Registers, j: nat, w: Word, w': Word): Registers {
    var ss1 := Rotl((Rotl(r.a, 12) + r.e + Rotl(T(j), j)) % TWO32, 7);
    var ss2 := Xor32(ss1, Rotl(r.a, 12));
    var tt1 := (FF(j, r.a, r.b, r.c) + r.d + ss2 + w') % TWO32;
    var tt2 := (GG(j, r.e, r.f, r.g) + r.h + ss1 + w) % TWO32;
    Registers(tt1, r.a, Rotl(r.b, 9), r.c, P0(tt2), r.e, Rotl(r.f, 19), r.g)
  }

  function Rounds(v: seq<Word>, b: seq<Byte>, n: nat): Registers
    requires |v| == 8 && |b| == 64
  {
    if n == 0 then Load(v) else Round(Rounds(v, b, n - 1), n - 1, W(b, n - 1), W'(b, n - 1))
  }

  function CF(v: seq<Word>, b: seq<Byte>): (r: seq<Word>)
    requires |v| == 8 && |b| == 64
    ensures |r| == 8
  {
    var x := Rounds(v, b, 64);
    [Xor32(v[0], x.a), Xor32(v[1], x.b), Xor32(v[2], x.c), Xor32(v[3], x.d),
     Xor32(v[4], x.e), Xor32(v[5], x.f), Xor32(v[6], x.g), Xor32(v[7], x.h)]
  }

  // ----- section 5.3.1

  /** The chaining value after the first `n` blocks of `m`. */
  function Chained(m: seq<Byte>, n: nat): (v: seq<Word>)
    requires 64 * n <= |m|
    ensures |v| == 8
  {
    if n == 0 then IV else CF(Chained(m, n - 1), m[64 * (n - 1)..64 * n])
  }

  function Serialized(v: seq<Word>): seq<Byte> {
    if v == [] then [] else Serialized(v[..|v| - 1]) + BigEndian(v[|v| - 1], 4)
  }

  function Sm3(m: seq<Byte>): seq<Byte> {
    Serialized(Chained(Padded(m), |Padded(m)| / 64))
  }

  // ----- what the padding is for

  function FromBigEndian(s: seq<Byte>): nat {
    if s == [] then 0 else FromBigEndian(s[..|s| - 1]) * 256 + s[|s| - 1]
  }

  lemma PowZero()
    ensures Pow2(0) == 1
  {
  }

  lemma Pow2Byte(k: nat)
    ensures Pow2(k + 8) == 256 * Pow2(k)
  {
    assert Pow2(k + 2) == 4 * Pow2(k);
    assert Pow2(k + 4) == 4 * Pow2(k + 2);
    assert Pow2(k + 6) == 4 * Pow2(k + 4);
  }

  lemma {:induction false} BigEndianReads(x: nat, n: nat)
    ensures FromBigEndian(BigEndian(x, n)) == x % Pow2(8 * n)
  {
    hide Pow2;
    if n == 0 {
      PowZero();
    } else {
      BigEndianReads(x / 256, n - 1);
      assert BigEndian(x, n)[..n - 1] == BigEndian(x / 256, n - 1);
      Pow2Byte(8 * (n - 1));
      assert 8 * (n - 1) + 8 == 8 * n;
      ModSplit(x, Pow2(8 * (n - 1)));
    }
  }

  lemma MulMonotone(a: nat, b: nat, m: nat)
    requires a <= b
    ensures a * m <= b * m
  {
  }

  lemma Remainder(x: nat, m: nat, q: nat, r: nat)
    requires m > 0 && r < m && x == q * m + r
    ensures x % m == r
  {
    var q' := x / m;
    assert x == q' * m + x % m;
    assert (q' + 1) * m == q' * m + m && (q + 1) * m == q * m + m;
    if q' < q {
      MulMonotone(q' + 1, q, m);
    } else if q' > q {
      MulMonotone(q + 1, q', m);
    }
  }

  lemma ModSplit(x: nat, m: nat)
    requires m > 0
    ensures x % (256 * m) == x / 256 % m * 256 + x % 256
  {
    var y := x / 256;
    var q := y / m;
    assert y == q * m + y % m;
    assert x == q * (256 * m) + (y % m * 256 + x % 256);
    Remainder(x, 256 * m, q, y % m * 256 + x % 256);
  }

  /** A padded message is the message, the marking byte, fewer than 64 zero bytes and the length in bits;
      it is the shortest whole number of blocks that has room for the mark and the length. */
  lemma PaddingIsMinimal(m: seq<Byte>)
    ensures var p := Padded(m);
            && |p| % 64 == 0 && |m| + 9 <= |p| < |m| + 9 + 64
            && p[..|m|] == m && p[|m|] == 0x80
            && (forall i :: |m| < i < |p| - 8 ==> p[i] == 0)
            && FromBigEndian(p[|p| - 8..]) == 8 * |m| % Pow2(64)
  {
    var p := Padded(m);
    assert p[|p| - 8..] == BigEndian(8 * |m|, 8);
    BigEndianReads(8 * |m|, 8);
  }
}
