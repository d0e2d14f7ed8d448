/**
 The block cipher of `jsScript/webmssdk.js` (lines 4242-4285): XXTEA over an array of 32-bit words,
 encrypted and decrypted in place. That decryption undoes encryption depends on the order in which
 positions and rounds are visited and not on the mixing function, so the network is stated and
 proved for an arbitrary mixer and then used with the script's own.
 */
module Xxtea {
  import opened Bits

  /** `mix(sum, y, z, p)`: what position `p` gains from its right neighbour `y` and left neighbour `z`. */
  type Mixer = (Word, Word, Word, nat) -> Word

  const DELTA := 0x9E3779B9

  /** The number of rounds, `floor(6 + 52 / n)`; an empty array gets none. */
  function Rounds(n: nat): (r: nat)
    ensures r <= 58
  {
    if n == 0 then 0 else 6 + 52 / n
  }

  /** The key-schedule value of round `r`. */
  function Sum(r: nat): Word {
    r * DELTA % TWO32
  }

  function Next(p: nat, n: nat): nat {
    if p + 1 < n then p + 1 else 0
  }

  function Prev(p: nat, n: nat): int {
    if p > 0 then p - 1 else n - 1
  }

  /** `(p & 3) ^ ((sum >>> 2) & 3)`, the key word a position uses in a round. */
  function KeyIndex(p: nat, sum: Word): (i: nat)
    ensures i < 4
  {
    XorBound(p % 4, sum / 4 % 4, 2);
    Xor(p % 4, sum / 4 % 4)
  }

  function Mix(sum: Word, y: Word, z: Word, p: nat, key: seq<Word>): Word
    requires |key| >= 4
  {
    var shifted := Xor32(z / 32, y * 4 % TWO32) + Xor32(y / 8, z * 16 % TWO32);
    var keyed := Xor32(sum, y) + Xor32(key[KeyIndex(p, sum)], z);
    Xor32(shifted, keyed)
  }

  function KeyedMixer(key: seq<Word>): Mixer
    requires |key| >= 4
  {
    (sum, y, z, p: nat) => Mix(sum, y, z, p, key)
  }

  function Gain(v: seq<Word>, mix: Mixer, sum: Word, p: nat): Word
    requires p < |v|
  {
    mix(sum, v[Next(p, |v|)], v[Prev(p, |v|)], p)
  }

  function StepUp(v: seq<Word>, mix: Mixer, sum: Word, p: nat): (r: seq<Word>)
    requires p < |v|
    ensures |r| == |v|
  {
    v[p := Add32(v[p], Gain(v, mix, sum, p))]
  }

  function StepDown(v: seq<Word>, mix: Mixer, sum: Word, p: nat): (r: seq<Word>)
    requires p < |v|
    ensures |r| == |v|
  {
    v[p := Sub32(v[p], Gain(v, mix, sum, p))]
  }

  // ----- encryption as a function: rounds 1..Rounds(n), each from position 0 up

  function EncryptUpTo(v: seq<Word>, mix: Mixer, sum: Word, p: nat): (r: seq<Word>)
    requires p <= |v|
    ensures |r| == |v|
  {
    if p == 0 then v
    else StepUp(EncryptUpTo(v, mix, sum, p - 1), mix, sum, p - 1)
  }

  function EncryptRounds(v: seq<Word>, mix: Mixer, rounds: nat): (r: seq<Word>)
    ensures |r| == |v|
  {
    if rounds == 0 then v
    else EncryptUpTo(EncryptRounds(v, mix, rounds - 1), mix, Sum(rounds), |v|)
  }

  function Encrypted(v: seq<Word>, key: seq<Word>): (r: seq<Word>)
    requires |key| >= 4
    ensures |r| == |v|
  {
    EncryptRounds(v, KeyedMixer(key), Rounds(|v|))
  }

  // ----- decryption as a function: rounds Rounds(n)..1, each from the last position down

  function DecryptDownTo(v: seq<Word>, mix: Mixer, sum: Word, p: nat): (r: seq<Word>)
    requires p <= |v|
    ensures |r| == |v|
    decreases |v| - p
  {
    if p == |v| then v
    else StepDown(DecryptDownTo(v, mix, sum, p + 1), mix, sum, p)
  }

  function DecryptRounds(v: seq<Word>, mix: Mixer, rounds: nat): (r: seq<Word>)
    ensures |r| == |v|
    decreases rounds
  {
    if rounds == 0 then v
    else DecryptRounds(DecryptDownTo(v, mix, Sum(rounds), 0), mix, rounds - 1)
  }

  function Decrypted(v: seq<Word>, key: seq<Word>): (r: seq<Word>)
    requires |key| >= 4
    ensures |r| == |v|
  {
    DecryptRounds(v, KeyedMixer(key), Rounds(|v|))
  }

  // ----- each direction undoes the other

  /** A position's gain does not depend on the position itself once the ring has two words. */
  lemma GainIgnoresOwnWord(v: seq<Word>, w: Word, mix: Mixer, sum: Word, p: nat)
    requires p < |v| && |v| >= 2
    ensures Gain(v[p := w], mix, sum, p) == Gain(v, mix, sum, p)
  {
  }

  lemma StepsCancel(v: seq<Word>, mix: Mixer, sum: Word, p: nat)
    requires p < |v| && |v| >= 2
    ensures StepDown(StepUp(v, mix, sum, p), mix, sum, p) == v
    ensures StepUp(StepDown(v, mix, sum, p), mix, sum, p) == v
  {
    var gain := Gain(v, mix, sum, p);
    GainIgnoresOwnWord(v, Add32(v[p], gain), mix, sum, p);
    GainIgnoresOwnWord(v, Sub32(v[p], gain), mix, sum, p);
    hide Gain;
    assert Sub32(Add32(v[p], gain), gain) == v[p];
    assert Add32(Sub32(v[p], gain), gain) == v[p];
  }

  lemma {:induction false} RoundUndone(v: seq<Word>, mix: Mixer, sum: Word, p: nat)
    requires p <= |v| && |v| >= 2
    ensures DecryptDownTo(EncryptUpTo(v, mix, sum, |v|), mix, sum, p) == EncryptUpTo(v, mix, sum, p)
    decreases |v| - p
  {
    hide StepUp, StepDown;
    if p < |v| {
      RoundUndone(v, mix, sum, p + 1);
      StepsCancel(EncryptUpTo(v, mix, sum, p), mix, sum, p);
    }
  }

  lemma {:induction false} RoundsUndone(v: seq<Word>, mix: Mixer, rounds: nat)
    requires |v| >= 2
    ensures DecryptRounds(EncryptRounds(v, mix, rounds), mix, rounds) == v
  {
    hide StepUp, StepDown;
    if rounds > 0 {
      RoundUndone(EncryptRounds(v, mix, rounds - 1), mix, Sum(rounds), 0);
      RoundsUndone(v, mix, rounds - 1);
    }
  }

  /** Decryption is the inverse of encryption for every array of two or more words and every key. */
  lemma DecryptInvertsEncrypt(v: seq<Word>, key: seq<Word>)
    requires |v| >= 2 && |key| >= 4
    ensures Decrypted(Encrypted(v, key), key) == v
  {
    RoundsUndone(v, KeyedMixer(key), Rounds(|v|));
  }

  lemma {:induction false} UndoRound(v: seq<Word>, mix: Mixer, sum: Word, p: nat)
    requires p <= |v| && |v| >= 2
    ensures EncryptUpTo(DecryptDownTo(v, mix, sum, 0), mix, sum, p) == DecryptDownTo(v, mix, sum, p)
  {
    hide StepUp, StepDown;
    if p > 0 {
      UndoRound(v, mix, sum, p - 1);
      StepsCancel(DecryptDownTo(v, mix, sum, p), mix, sum, p - 1);
    }
  }

  lemma {:induction false} UndoRounds(v: seq<Word>, mix: Mixer, rounds: nat)
    requires |v| >= 2
    ensures EncryptRounds(DecryptRounds(v, mix, rounds), mix, rounds) == v
    decreases rounds
  {
    hide StepUp, StepDown;
    if rounds > 0 {
      UndoRounds(DecryptDownTo(v, mix, Sum(rounds), 0), mix, rounds - 1);
      UndoRound(v, mix, Sum(rounds), |v|);
    }
  }

  /** Encryption is also the inverse of decryption, so each permutes the arrays of a given length. */
  lemma EncryptInvertsDecrypt(v: seq<Word>, key: seq<Word>)
    requires |v| >= 2 && |key| >= 4
    ensures Encrypted(Decrypted(v, key), key) == v
  {
    UndoRounds(v, KeyedMixer(key), Rounds(|v|));
  }

  // ----- the key schedule: stopping at `sum == 0` is stopping after Rounds(n) rounds

  lemma ScheduleSteps(r: nat)
    ensures Add32(Sum(r), DELTA) == Sum(r + 1)
    ensures Sub32(Sum(r + 1), DELTA) == Sum(r)
  {
    assert (r + 1) * DELTA == r * DELTA + DELTA;
    ModAdd(r * DELTA, DELTA);
    ModAdd((r + 1) * DELTA, -DELTA);
  }

  /** DELTA is odd, so none of its first 2^32 - 1 multiples vanishes modulo 2^32. */
  lemma ScheduleVanishesOnlyAtZero(r: nat)
    requires r < TWO32
    ensures Sum(r) == 0 <==> r == 0
  {
    if Sum(r) == 0 {
      // 0x144CBC89 is the inverse of DELTA modulo 2^32.
      var q, c := r * DELTA / TWO32, DELTA * 0x144CBC89 / TWO32;
      assert DELTA * 0x144CBC89 == c * TWO32 + 1;
      assert r == TWO32 * (q * 0x144CBC89 - r * c);
    }
  }

  lemma ScheduleEnds(n: nat)
    requires n > 0
    ensures Sum(0) == 0 && Sum(Rounds(n)) == (6 + 52 / n) * DELTA % TWO32
  {
  }

  /** One step of a round written with the neighbours at hand. */
  lemma Steps(v: seq<Word>, mix: Mixer, sum: Word, p: nat)
    requires p < |v|
    ensures StepUp(v, mix, sum, p) == v[p := Add32(v[p], mix(sum, v[Next(p, |v|)], v[Prev(p, |v|)], p))]
    ensures StepDown(v, mix, sum, p) == v[p := Sub32(v[p], mix(sum, v[Next(p, |v|)], v[Prev(p, |v|)], p))]
  {
  }

  // ----- the two in-place algorithms

  method EncryptWith(v: array<Word>, mix: Mixer)
    modifies v
    ensures v[..] == EncryptRounds(old(v[..]), mix, Rounds(v.Length))
  {
    hide Sum, Add32, StepUp;
    var n := v.Length;
    if n == 0 { return; }
    var last := n - 1;
    ScheduleEnds(n);
    var z, sum, q := v[last], 0, 6 + 52 / n;
    ghost var done := 0;
    while q > 0
      invariant q + done == Rounds(n) && q >= 0
      invariant sum == Sum(done)
      invariant v[..] == EncryptRounds(old(v[..]), mix, done)
      invariant z == v[last]
    {
      ScheduleSteps(done);
      sum := Add32(sum, DELTA);
      ghost var start := v[..];
      var p := 0;
      while p < last
        invariant 0 <= p <= last
        invariant v[..] == EncryptUpTo(start, mix, sum, p)
        invariant z == v[Prev(p, n)]
      {
        Steps(v[..], mix, sum, p);
        var y := v[p + 1];
        z := Add32(v[p], mix(sum, y, z, p));
        v[p] := z;
        p := p + 1;
      }
      Steps(v[..], mix, sum, last);
      var y := v[0];
      z := Add32(v[last], mix(sum, y, z, last));
      v[last] := z;
      q := q - 1;
      done := done + 1;
    }
  }

  method DecryptWith(v: array<Word>, mix: Mixer)
    modifies v
    ensures v[..] == DecryptRounds(old(v[..]), mix, Rounds(v.Length))
  {
    hide Sum, Sub32, StepDown;
    var n := v.Length;
    if n == 0 { return; }
    var last := n - 1;
    ScheduleEnds(n);
    var y, sum := v[0], (6 + 52 / n) * DELTA % TWO32;
    ghost var left := Rounds(n);
    ScheduleVanishesOnlyAtZero(left);
    while sum != 0
      invariant left <= 58
      invariant sum == Sum(left) && (sum == 0 <==> left == 0)
      invariant DecryptRounds(v[..], mix, left) == DecryptRounds(old(v[..]), mix, Rounds(n))
      invariant y == v[0]
      decreases left
    {
      ghost var start := v[..];
      var p := last;
      while p > 0
        invariant 0 <= p <= last
        invariant v[..] == DecryptDownTo(start, mix, sum, p + 1)
        invariant y == v[Next(p, n)]
      {
        Steps(v[..], mix, sum, p);
        var z := v[p - 1];
        y := Sub32(v[p], mix(sum, y, z, p));
        v[p] := y;
        p := p - 1;
      }
      Steps(v[..], mix, sum, 0);
      var z := v[last];
      y := Sub32(v[0], mix(sum, y, z, 0));
      v[0] := y;
      ScheduleSteps(left - 1);
      sum := Sub32(sum, DELTA);
      left := left - 1;
      ScheduleVanishesOnlyAtZero(left);
    }
  }

  method Encrypt(v: array<Word>, key: seq<Word>)
    requires |key| >= 4
    modifies v
    ensures v[..] == Encrypted(old(v[..]), key)
  {
    EncryptWith(v, KeyedMixer(key));
  }

  method Decrypt(v: array<Word>, key: seq<Word>)
    requires |key| >= 4
    modifies v
    ensures v[..] == Decrypted(old(v[..]), key)
  {
    DecryptWith(v, KeyedMixer(key));
  }
}
