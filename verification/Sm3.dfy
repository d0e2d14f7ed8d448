/**
 The streaming SM3 hasher of `sign/ab_sign.go` (lines 14-214). Between calls the object holds the chaining
 value of all complete blocks, the bytes of the incomplete one, and the number of bytes written.
 */
module Sm3 {
  import opened Bits
  import opened Options
  import opened Sm3Standard

  function Min(a: int, b: int): int {
    if a < b then a else b
  }

  // ----- the constants and functions as the code writes them

  function GetTj(j: int): Word {
    if 0 <= j < 16 then 2043430169 else if 16 <= j < 64 then 2055708042 else 0
  }

  function Ffj(j: int, x: Word, y: Word, z: Word): Word {
    if 0 <= j < 16 then Xor32(Xor32(x, y), z)
    else if 16 <= j < 64 then Or32(Or32(And32(x, y), And32(x, z)), And32(y, z))
    else 0
  }

  function Ggj(j: int, x: Word, y: Word, z: Word): Word {
    if 0 <= j < 16 then Xor32(Xor32(x, y), z)
    else if 16 <= j < 64 then Or32(And32(x, y), And32(Not32(x), z))
    else 0
  }

  lemma FunctionsAgree(j: nat, x: Word, y: Word, z: Word)
    requires j < 64
    ensures GetTj(j) == T(j) && Ffj(j, x, y, z) == FF(j, x, y, z) && Ggj(j, x, y, z) == GG(j, x, y, z)
  {
  }

  /** One pass of the compression loop over its eight registers. */
  method Turn(j: nat, r: Registers, w: Word, w': Word) returns (s: Registers)
    requires j < 64
    ensures s == Round(r, j, w, w')
  {
    hide Xor32, Or32, And32, Not32, Rotl;
    FunctionsAgree(j, r.a, r.b, r.c);
    FunctionsAgree(j, r.e, r.f, r.g);
    hide GetTj, Ffj, Ggj, T, FF, GG;
    var a, b, c, d, e, f, g, h := r.a, r.b, r.c, r.d, r.e, r.f, r.g, r.h;
    var ss1 := Rotl((Rotl(a, 12) + e + Rotl(GetTj(j), j)) % TWO32, 7);
    var ss2 := Xor32(ss1, Rotl(a, 12));
    var tt1 := (Ffj(j, a, b, c) + d + ss2 + w') % TWO32;
    var tt2 := (Ggj(j, e, f, g) + h + ss1 + w) % TWO32;
    d := c;
    c := Rotl(b, 9);
    b := a;
    a := tt1;
    h := g;
    g := Rotl(f, 19);
    f := e;
    e := Xor32(Xor32(tt2, Rotl(tt2, 9)), Rotl(tt2, 17));
    s := Registers(a, b, c, d, e, f, g, h);
  }

  /** The expanded words of a block: W_0..W_67 in place, then W'_0..W'_63. */
  method Expand(data: seq<Byte>) returns (w: array<Word>)
    requires |data| == 64
    ensures fresh(w) && w.Length == 132
    ensures forall j :: 0 <= j < 68 ==> w[j] == W(data, j)
    ensures forall j :: 0 <= j < 64 ==> w[j + 68] == W'(data, j)
  {
    hide Xor32, Rotl, BigEndianWord, W, W';
    w := new Word[132];
    for t := 0 to 16
      invariant forall j :: 0 <= j < t ==> w[j] == W(data, j)
    {
      ExpansionUnfolds(data, t);
      w[t] := BigEndianWord(data[4 * t..4 * t + 4]);
    }
    for j := 16 to 68
      invariant forall k :: 0 <= k < j ==> w[k] == W(data, k)
    {
      ExpansionUnfolds(data, j);
      var a := Xor32(Xor32(w[j - 16], w[j - 9]), Rotl(w[j - 3], 15));
      a := Xor32(Xor32(a, Rotl(a, 15)), Rotl(a, 23));
      w[j] := Xor32(Xor32(a, Rotl(w[j - 13], 7)), w[j - 6]);
    }
    for j := 0 to 64
      invariant forall k :: 0 <= k < 68 ==> w[k] == W(data, k)
      invariant forall k :: 0 <= k < j ==> w[k + 68] == W'(data, k)
    {
      ExpansionUnfolds(data, j);
      w[j + 68] := Xor32(w[j], w[j + 4]);
    }
  }

  class Hasher {
    var reg: array<Word>
    var chunk: seq<Byte>
    var size: nat
    /** Everything written since the last reset. */
    ghost var content: seq<Byte>

    ghost predicate Valid()
      reads this, reg
    {
      var blocks := |content| / 64;
      && reg.Length == 8
      && size == |content|
      && chunk == content[64 * blocks..]
      && reg[..] == Chained(content, blocks)
    }

    constructor ()
      ensures Valid() && fresh(reg) && content == []
    {
      reg := new Word[] [
        1937774191, 1226093241, 388252375, 3666478592,
        2842636476, 372324522, 3817729613, 2969243214
      ];
      chunk := [];
      size := 0;
      content := [];
      new;
      assert reg[..] == IV;
    }

    method Reset()
      modifies this
      ensures Valid() && fresh(reg) && content == []
    {
      reg := new Word[] [
        1937774191, 1226093241, 388252375, 3666478592,
        2842636476, 372324522, 3817729613, 2969243214
      ];
      chunk := [];
      size := 0;
      content := [];
      assert reg[..] == IV;
    }

    /** Absorbs the first 64 bytes of `data`; a shorter block leaves the registers alone. */
    method Compress(data: seq<Byte>)
      requires reg.Length == 8
      modifies reg
      ensures reg[..] == if |data| < 64 then old(reg[..]) else CF(old(reg[..]), data[..64])
    {
      if |data| < 64 { return; }
      hide Xor32, Round, Rounds, W, W', CF;
      ghost var v, block := reg[..], data[..64];
      var w := Expand(data[..64]);
      var r := Registers(reg[0], reg[1], reg[2], reg[3], reg[4], reg[5], reg[6], reg[7]);
      ghost var words := w[..];
      RoundsUnfold(v, block, 0);
      for j := 0 to 64
        invariant reg[..] == v && w[..] == words
        invariant r == Rounds(v, block, j)
      {
        RoundsUnfold(v, block, j);
        assert words[j] == W(block, j) && words[j + 68] == W'(block, j);
        r := Turn(j, r, w[j], w[j + 68]);
      }
      CfUnfolds(v, block);
      Combine(r);
    }

    method Combine(r: Registers)
      requires reg.Length == 8
      modifies reg
      ensures var v := old(reg[..]);
              reg[..] == [Xor32(v[0], r.a), Xor32(v[1], r.b), Xor32(v[2], r.c), Xor32(v[3], r.d),
                          Xor32(v[4], r.e), Xor32(v[5], r.f), Xor32(v[6], r.g), Xor32(v[7], r.h)]
    {
      hide Xor32;
      reg[0] := Xor32(reg[0], r.a);
      reg[1] := Xor32(reg[1], r.b);
      reg[2] := Xor32(reg[2], r.c);
      reg[3] := Xor32(reg[3], r.d);
      reg[4] := Xor32(reg[4], r.e);
      reg[5] := Xor32(reg[5], r.f);
      reg[6] := Xor32(reg[6], r.g);
      reg[7] := Xor32(reg[7], r.h);
    }

    method Write(data: seq<Byte>)
      requires Valid()
      modifies this`chunk, this`size, this`content, reg
      ensures Valid() && content == old(content) + data && |chunk| < 64
    {
      hide CF, Chained;
      ghost var before := content;
      ghost var blocks := |content| / 64;
      ChainedPrefix(content, data, blocks);
      SliceAppend(content, data, 64 * blocks);
      size := size + |data|;
      content := content + data;
      var f := 64 - |chunk|;
      if |data| < f {
        chunk := chunk + data;
        return;
      }
      chunk := chunk + data[..f];
      CompressWhole(data, f, before, blocks);
    }

    /** The loop of Write: compresses full chunks and refills the chunk from `data[f..]`. */
    method CompressWhole(data: seq<Byte>, start: nat, ghost before: seq<Byte>, ghost done: nat)
      requires reg.Length == 8 && size == |content| && content == before + data
      requires 0 < start <= |data| && |before| + start == 64 * done + 64
      requires chunk == content[64 * done..64 * done + 64] && reg[..] == Chained(content, done)
      modifies this`chunk, reg
      ensures Valid() && |chunk| < 64
    {
      hide CF, Chained, ChunkAt;
      var f := start;
      ghost var blocks := done;
      ghost var all := before + data;
      ChunkFacts(all, blocks);
      while |chunk| >= 64
        invariant |before| + f == 64 * blocks + 64 && f > 0 && 64 * blocks <= |all|
        invariant chunk == ChunkAt(all, blocks)
        invariant reg[..] == Chained(all, blocks)
        decreases |all| - 64 * blocks
      {
        ChunkFacts(all, blocks);
        ChainedStep(all, blocks);
        Compress(chunk);
        NextChunk(before, data, f, blocks + 1);
        if f < |data| {
          chunk := data[f..Min(f + 64, |data|)];
        } else {
          chunk := [];
        }
        f := f + 64;
        blocks := blocks + 1;
      }
      ChunkFacts(all, blocks);
    }

    /** Appends the padding to the incomplete block. */
    method Fill()
      requires |chunk| == size % 64
      modifies this`chunk
      ensures chunk == old(chunk) + Padding(size) && |chunk| % 64 == 0
    {
      hide BigEndian, Zeros;
      var bitLength := size * 8 % 0x1_0000_0000_0000_0000;
      chunk := chunk + [0x80];
      FillZeros();
      var highBits := bitLength / TWO32;
      chunk := chunk + BigEndian(highBits, 4);
      var lowBits := bitLength % TWO32;
      chunk := chunk + BigEndian(lowBits, 4);
      ZeroCount(size);
      BigEndianHalves(8 * size);
      Regrouped(old(chunk), [0x80], Zeros((55 - size) % 64), BigEndian(highBits, 4), BigEndian(lowBits, 4));
      PaddedLength(|old(chunk)|, size);
    }

    /** The zero bytes of Fill: up to the end of the block if the length no longer fits, then up to byte 56. */
    method FillZeros()
      requires 0 < |chunk| <= 64
      modifies this`chunk
      ensures chunk == old(chunk) + Zeros((56 - |old(chunk)|) % 64)
    {
      ghost var z := 0;
      var paddingPos := |chunk| % 64;
      if 64 - paddingPos < 8 {
        while |chunk| % 64 != 0
          invariant z >= 0 && chunk == old(chunk) + Zeros(z) && |chunk| <= 64
          decreases 64 - |chunk|
        {
          chunk := chunk + [0];
          z := z + 1;
        }
      }
      while |chunk| % 64 < 56
        invariant z >= 0 && chunk == old(chunk) + Zeros(z)
        invariant if |old(chunk)| <= 56 then |chunk| <= 56 else 64 <= |chunk| <= 120
        decreases 120 - |chunk|
      {
        chunk := chunk + [0];
        z := z + 1;
      }
      assert z == (56 - |old(chunk)|) % 64;
    }

    /** The next block in what is left of `p` after its first `done` blocks. */
    static lemma BlockAt(p: seq<Byte>, rest: seq<Byte>, done: nat, n: nat)
      requires done <= n && 64 * (n + 1) <= |p| && rest == p[64 * done..]
      ensures rest[64 * (n - done)..64 * (n - done) + 64][..64] == p[64 * n..64 * (n + 1)]
    {
      var i := 64 * (n - done);
      assert 64 * done + i == 64 * n;
      assert rest[i..i + 64] == p[64 * done + i..64 * done + i + 64];
    }

    /** Compresses the blocks in `chunk`, which are those of `p` after the first `done`. */
    method CompressChunk(ghost p: seq<Byte>, ghost done: nat)
      requires reg.Length == 8 && |p| % 64 == 0 && 64 * done <= |p| && chunk == p[64 * done..]
      requires reg[..] == Chained(p, done)
      modifies reg
      ensures reg[..] == Chained(p, |p| / 64)
    {
      hide CF, Chained;
      var i := 0;
      ghost var n, blocks := done, |p| / 64;
      assert |p| == 64 * blocks;
      while i < |chunk|
        invariant i == 64 * (n - done) && n <= blocks
        invariant reg[..] == Chained(p, n)
        decreases |chunk| - i
      {
        var end := Min(i + 64, |chunk|);
        assert n < blocks && end == i + 64;
        BlockAt(p, chunk, done, n);
        ChainedStep(p, n);
        Compress(chunk[i..end]);
        i := i + 64;
        n := n + 1;
      }
    }

    method Digest() returns (digest: seq<Byte>)
      requires reg.Length == 8
      ensures digest == Serialized(reg[..])
    {
      hide BigEndian;
      digest := [];
      for k := 0 to 8
        invariant digest == Serialized(reg[..k])
      {
        assert reg[..k + 1][..k] == reg[..k];
        digest := digest + BigEndian(reg[k], 4);
      }
      assert reg[..8] == reg[..];
    }

    /** The digest of `data`, or of what has been written when `data` is nil; the hasher starts afresh. */
    method Sum(data: Option<seq<Byte>>) returns (digest: seq<Byte>)
      requires Valid()
      modifies this, reg
      ensures digest == Sm3(if data.Some? then data.value else old(content))
      ensures Valid() && fresh(reg) && content == []
    {
      hide CF, Chained, Padding;
      if data.Some? {
        Reset();
        Write(data.value);
        assert [] + data.value == data.value;
      }
      ghost var m := content;
      ghost var blocks := |m| / 64;
      ChainedPrefix(m, Padding(|m|), blocks);
      Fill();
      SliceAppend(m, Padding(|m|), 64 * blocks);
      CompressChunk(Padded(m), blocks);
      digest := Digest();
      Reset();
    }
  }

  lemma ZeroCount(size: nat)
    ensures (56 - (size % 64 + 1)) % 64 == (55 - size) % 64
  {
  }

  lemma PaddedLength(n: nat, size: nat)
    requires n == size % 64
    ensures (n + |Padding(size)|) % 64 == 0
  {
    hide Padding;
  }

  lemma Regrouped(a: seq<Byte>, b: seq<Byte>, c: seq<Byte>, d: seq<Byte>, e: seq<Byte>)
    ensures a + b + c + d + e == a + (b + c + (d + e))
  {
  }

  lemma SliceAppend(s: seq<Byte>, t: seq<Byte>, k: nat)
    requires k <= |s|
    ensures (s + t)[k..] == s[k..] + t
  {
  }

  /** Block `n` of `m`, or what there is of it. */
  function ChunkAt(m: seq<Byte>, n: nat): seq<Byte>
    requires 64 * n <= |m|
  {
    if 64 * n + 64 <= |m| then m[64 * n..64 * n + 64] else m[64 * n..]
  }

  lemma ChunkFacts(m: seq<Byte>, n: nat)
    requires 64 * n <= |m|
    ensures |ChunkAt(m, n)| >= 64 ==> 64 * (n + 1) <= |m| && ChunkAt(m, n)[..64] == m[64 * n..64 * (n + 1)]
    ensures |ChunkAt(m, n)| < 64 ==> |m| / 64 == n && ChunkAt(m, n) == m[64 * n..]
    ensures 64 * n + 64 <= |m| ==> ChunkAt(m, n) == m[64 * n..64 * n + 64]
  {
  }

  /** The next block of `s + t` read from `t` alone. */
  lemma NextChunk(s: seq<Byte>, t: seq<Byte>, f: nat, n: nat)
    requires |s| + f == 64 * n <= |s + t|
    ensures (if f < |t| then t[f..Min(f + 64, |t|)] else []) == ChunkAt(s + t, n)
  {
  }

  lemma ChainedStep(m: seq<Byte>, n: nat)
    requires 64 * (n + 1) <= |m|
    ensures Chained(m, n + 1) == CF(Chained(m, n), m[64 * n..64 * (n + 1)])
  {
    hide CF;
  }

  lemma ExpansionUnfolds(b: seq<Byte>, j: nat)
    requires |b| == 64
    ensures j < 16 ==> W(b, j) == BigEndianWord(b[4 * j..4 * j + 4])
    ensures j >= 16 ==>
              var a := Xor32(Xor32(W(b, j - 16), W(b, j - 9)), Rotl(W(b, j - 3), 15));
              W(b, j) == Xor32(Xor32(Xor32(Xor32(a, Rotl(a, 15)), Rotl(a, 23)), Rotl(W(b, j - 13), 7)), W(b, j - 6))
    ensures W'(b, j) == Xor32(W(b, j), W(b, j + 4))
  {
    hide Xor32, Rotl, BigEndianWord;
  }

  lemma RoundsUnfold(v: seq<Word>, b: seq<Byte>, j: nat)
    requires |v| == 8 && |b| == 64
    ensures Rounds(v, b, 0) == Registers(v[0], v[1], v[2], v[3], v[4], v[5], v[6], v[7])
    ensures Rounds(v, b, j + 1) == Round(Rounds(v, b, j), j, W(b, j), W'(b, j))
  {
    hide Round, W, W';
  }

  lemma CfUnfolds(v: seq<Word>, b: seq<Byte>)
    requires |v| == 8 && |b| == 64
    ensures var x := Rounds(v, b, 64);
            CF(v, b) == [Xor32(v[0], x.a), Xor32(v[1], x.b), Xor32(v[2], x.c), Xor32(v[3], x.d),
                         Xor32(v[4], x.e), Xor32(v[5], x.f), Xor32(v[6], x.g), Xor32(v[7], x.h)]
  {
    hide Rounds, Xor32;
  }

  lemma {:induction false} BigEndianSplits(high: nat, low: nat, n: nat, m: nat)
    requires low < Pow2(8 * m)
    ensures BigEndian(high * Pow2(8 * m) + low, n + m) == BigEndian(high, n) + BigEndian(low, m)
  {
    hide Pow2;
    if m == 0 {
      PowZero();
    } else {
      Pow2Byte(8 * (m - 1));
      var p := Pow2(8 * (m - 1));
      var y := high * p;
      assert high * Pow2(8 * m) == 256 * y;
      BigEndianSplits(high, low / 256, n, m - 1);
      assert (256 * y + low) / 256 == y + low / 256 && (256 * y + low) % 256 == low % 256;
    }
  }

  /** The eight bytes of a length are those of the two 32-bit halves of its low 64 bits. */
  lemma BigEndianHalves(x: nat)
    ensures var bits := x % 0x1_0000_0000_0000_0000;
            BigEndian(x, 8) == BigEndian(bits / TWO32, 4) + BigEndian(bits % TWO32, 4)
  {
    hide BigEndian, Pow2;
    var bits := x % 0x1_0000_0000_0000_0000;
    Pow2Words();
    BigEndianSplits(x / 0x1_0000_0000_0000_0000, bits, 0, 8);
    BigEndianSplits(bits / TWO32, bits % TWO32, 4, 4);
    assert BigEndian(x / 0x1_0000_0000_0000_0000, 0) + BigEndian(bits, 8) == BigEndian(bits, 8);
  }

  lemma Pow2Words()
    ensures Pow2(32) == TWO32 && Pow2(64) == 0x1_0000_0000_0000_0000
  {
    Powers();
    Pow2Byte(24);
    Pow2Byte(32);
    Pow2Byte(40);
    Pow2Byte(48);
    Pow2Byte(56);
  }

  /** Blocks that are already complete are not affected by bytes written later. */
  lemma {:induction false} ChainedPrefix(m: seq<Byte>, more: seq<Byte>, n: nat)
    requires 64 * n <= |m|
    ensures Chained(m + more, n) == Chained(m, n)
  {
    hide CF;
    if n > 0 {
      ChainedPrefix(m, more, n - 1);
      assert (m + more)[64 * (n - 1)..64 * n] == m[64 * (n - 1)..64 * n];
    }
  }

  // ----- any way of cutting a message into writes

  function Joined(pieces: seq<seq<Byte>>): seq<Byte> {
    if pieces == [] then [] else Joined(pieces[..|pieces| - 1]) + pieces[|pieces| - 1]
  }

  /** Writing the pieces of a message one by one to a fresh hasher gives the SM3 digest of the whole message. */
  method HashPieces(pieces: seq<seq<Byte>>) returns (digest: seq<Byte>)
    ensures digest == Sm3(Joined(pieces))
  {
    hide Hasher.Valid;
    var hasher := new Hasher();
    for i := 0 to |pieces|
      invariant hasher.Valid() && fresh(hasher) && fresh(hasher.reg)
      invariant hasher.content == Joined(pieces[..i])
    {
      assert pieces[..i + 1][..i] == pieces[..i];
      hasher.Write(pieces[i]);
    }
    assert pieces[..|pieces|] == pieces;
    digest := hasher.Sum(None);
  }
}
