/**
 Strings to word arrays and back (`jsScript/webmssdk.js` lines 4216-4240). A string is a sequence of
 UTF-16 code units; four units share a word, the lowest byte first, and an optional last word holds
 the length of the string.
 */
module Packing {
  import opened Bits
  import opened Options

  type Unit = x: int | 0 <= x < 0x1_0000
  type Text = seq<Unit>

  /** A string in which every unit fits in one byte. */
  predicate IsBytes(s: Text) {
    forall i :: 0 <= i < |s| ==> s[i] < 256
  }

  /** The number of words that hold `n` units. */
  function WordCount(n: nat): nat {
    if n % 4 != 0 then n / 4 + 1 else n / 4
  }

  /** `i >> 2`, which first cuts `i` to 32 signed bits. */
  function Quarter(i: nat): int {
    Signed(i % TWO32) / 4
  }

  /** The number of words that the script computes for a string of this length. */
  function Count(size: nat): int {
    Quarter(size) + (if size % 4 != 0 then 1 else 0)
  }

  /** What byte `lane` of a word counts for. */
  function Weight(lane: nat): nat {
    if lane == 0 then 1 else if lane == 1 then 0x100 else if lane == 2 then 0x1_0000
    else if lane == 3 then 0x100_0000 else TWO32
  }

  /** A unit shifted to byte `lane` of a word; the bits that leave the word are lost. */
  function InLane(c: Unit, lane: nat): Word {
    c * Weight(lane) % TWO32
  }

  /** Word `j`, at first `start`, once the first `i` units are packed: each unit is or-ed into its lane of
      its word, if that word has an index at all. */
  function Accumulated(s: Text, i: nat, j: nat, start: Word): Word
    requires i <= |s|
  {
    if i == 0 then start
    else
      var w := Accumulated(s, i - 1, j, start);
      if Quarter(i - 1) == j then Or32(w, InLane(s[i - 1], (i - 1) % 4)) else w
  }

  /** The length word, or nothing yet. */
  function Start(size: nat, withLength: bool, j: nat): Word {
    if withLength && j == Count(size) then size % TWO32 else 0
  }

  function PackedWord(s: Text, withLength: bool, j: nat): Word {
    Accumulated(s, |s|, j, Start(|s|, withLength, j))
  }

  /** How long an array must be to hold the words that the first `n` units go to. */
  function Reach(n: nat): nat {
    if n >= 0x8000_0000 then 0x2000_0000 else WordCount(n)
  }

  /** The length that the array is created with. */
  function Created(size: nat, withLength: bool): int {
    Count(size) + (if withLength then 1 else 0)
  }

  /** The packed words. None stands for the exception of creating an array of negative length; an array
      that is created too short grows as it is written. */
  function Packed(s: Text, withLength: bool): Option<seq<Word>> {
    var created := Created(|s|, withLength);
    if created < 0 then None
    else
      var length := if created < Reach(|s|) then Reach(|s|) else created;
      Some(seq(length, j requires j >= 0 => PackedWord(s, withLength, j)))
  }

  method Pack(s: Text, withLength: bool) returns (r: Option<array<Word>>)
    ensures r.Some? <==> Packed(s, withLength).Some?
    ensures r.Some? ==> fresh(r.value) && r.value[..] == Packed(s, withLength).value
  {
    hide Or32, InLane, Accumulated, Signed, Quarter, Reach;
    var size := |s|;
    var n := Quarter(size);
    if size % 4 != 0 { n := n + 1; }
    var created := if withLength then n + 1 else n;
    if created < 0 { return None; }
    var words := new Word[created](_ => 0);
    if withLength && n >= 0 { words[n] := size % TWO32; }
    var i := 0;
    NothingAccumulated(s, withLength);
    NothingReached();
    while i < size
      invariant 0 <= i <= size && fresh(words) && created == Created(size, withLength) && n == Count(size)
      invariant words.Length == if created < Reach(i) then Reach(i) else created
      invariant forall j :: 0 <= j < words.Length ==> words[j] == Accumulated(s, i, j, Start(size, withLength, j))
    {
      var index := Quarter(i);
      AccumulatesOne(s, i, withLength);
      Reaches(i);
      if index >= 0 {
        if index >= words.Length {
          NotReached(s, i, index, 0);
          words := Grow(words);
        }
        words[index] := Or32(words[index], InLane(s[i], i % 4));
      }
      i := i + 1;
    }
    return Some(words);
  }

  /** An array with one more word. */
  method Grow(words: array<Word>) returns (grown: array<Word>)
    ensures fresh(grown) && grown[..] == words[..] + [0]
  {
    grown := new Word[words.Length + 1](_ => 0);
    for i := 0 to words.Length
      invariant grown[..i] == words[..i] && grown[words.Length] == 0
    {
      grown[i] := words[i];
    }
  }

  lemma NothingReached()
    ensures Reach(0) == 0
  {
  }

  lemma NothingAccumulated(s: Text, withLength: bool)
    ensures forall j: nat :: Accumulated(s, 0, j, Start(|s|, withLength, j)) == Start(|s|, withLength, j)
  {
  }

  lemma AccumulatesOne(s: Text, i: nat, withLength: bool)
    requires i < |s|
    ensures forall j: nat ::
              Accumulated(s, i + 1, j, Start(|s|, withLength, j)) ==
                var w := Accumulated(s, i, j, Start(|s|, withLength, j));
                if Quarter(i) == j then Or32(w, InLane(s[i], i % 4)) else w
  {
  }

  /** A word behind those that the first `i` units go to is still what it was. */
  lemma {:induction false} NotReached(s: Text, i: nat, j: nat, start: Word)
    requires i <= |s| && j >= Reach(i)
    ensures Accumulated(s, i, j, start) == start
  {
    if i > 0 {
      NotReached(s, i - 1, j, start);
    }
  }

  lemma Reaches(i: nat)
    ensures Quarter(i) <= Reach(i)
    ensures Reach(i + 1) == if Quarter(i) == Reach(i) then Reach(i) + 1 else Reach(i)
  {
  }

  /** The four bytes of a word, lowest first. */
  function Bytes(w: Word): (s: Text)
    ensures |s| == 4 && IsBytes(s)
  {
    [w % 256, w / 0x100 % 256, w / 0x1_0000 % 256, w / 0x100_0000 % 256]
  }

  function AllBytes(words: seq<Word>): (s: Text)
    ensures |s| == 4 * |words| && IsBytes(s)
  {
    if words == [] then [] else AllBytes(words[..|words| - 1]) + Bytes(words[|words| - 1])
  }

  /** The `substring(0, end)` of JavaScript. */
  function Prefix(s: Text, end: int): Text {
    if end < 0 then [] else if end < |s| then s[..end] else s
  }

  /** `(n << 2) - 4` with the shift cut to 32 signed bits. */
  function Capacity(n: nat): int {
    Signed(4 * n % TWO32) - 4
  }

  function Unpacked(words: seq<Word>, withLength: bool): Option<Text> {
    if !withLength || words == [] then Some(AllBytes(words))
    else
      var claimed := Signed(words[|words| - 1]);
      var room := Capacity(|words|);
      if claimed < room - 3 || claimed > room then None
      else Some(Prefix(AllBytes(words), claimed))
  }

  method Unpack(words: array<Word>, withLength: bool) returns (r: Option<Text>)
    ensures r == Unpacked(words[..], withLength)
  {
    var n := words.Length;
    var cut := Signed(4 * n % TWO32);
    if withLength && n > 0 {
      var claimed := Signed(words[n - 1]);
      cut := cut - 4;
      if claimed < cut - 3 || claimed > cut { return None; }
      cut := claimed;
    }
    var text: Text := [];
    for i := 0 to n
      invariant text == AllBytes(words[..i])
    {
      assert words[..i + 1][..i] == words[..i];
      text := text + Bytes(words[i]);
    }
    assert words[..n] == words[..];
    return Some(if withLength && n > 0 then Prefix(text, cut) else text);
  }

  // ----- unpacking a packed string

  /** Or-ing a byte into a lane above the bytes already there adds it up. */
  lemma LaneAdds(low: Word, c: Unit, lane: nat)
    requires lane < 4 && low < Weight(lane) && c < 256
    ensures Or32(low, InLane(c, lane)) == low + c * Weight(lane) < Weight(lane + 1)
  {
    hide Or;
    Powers();
    assert low + c * Weight(lane) < Weight(lane + 1);
    Join(c, low, 8 * lane, Weight(lane));
  }

  /** Unit `k` if it is among the first `i`. */
  function UnitBefore(s: Text, i: nat, k: nat): Unit
    requires i <= |s|
  {
    if k < i then s[k] else 0
  }

  lemma {:induction false} AccumulatedSum(s: Text, i: nat, j: nat)
    requires IsBytes(s) && i <= |s| && i <= 0x8000_0000
    ensures Accumulated(s, i, j, 0) ==
            UnitBefore(s, i, 4 * j) + 0x100 * UnitBefore(s, i, 4 * j + 1)
            + 0x1_0000 * UnitBefore(s, i, 4 * j + 2) + 0x100_0000 * UnitBefore(s, i, 4 * j + 3)
  {
    hide Or32, InLane;
    if i > 0 {
      AccumulatedSum(s, i - 1, j);
      assert Quarter(i - 1) == (i - 1) / 4;
      if (i - 1) / 4 == j {
        LaneAdds(Accumulated(s, i - 1, j, 0), s[i - 1], (i - 1) % 4);
      }
    }
  }

  lemma BytesOfSum(a: Unit, b: Unit, c: Unit, d: Unit)
    requires a < 256 && b < 256 && c < 256 && d < 256
    ensures a + 0x100 * b + 0x1_0000 * c + 0x100_0000 * d < TWO32
    ensures Bytes(a + 0x100 * b + 0x1_0000 * c + 0x100_0000 * d) == [a, b, c, d]
  {
    var w := a + 0x100 * b + 0x1_0000 * c + 0x100_0000 * d;
    assert w / 0x100 == b + 0x100 * c + 0x1_0000 * d;
    assert w / 0x1_0000 == c + 0x100 * d;
    assert w / 0x100_0000 == d;
  }

  lemma ByteOfPackedWord(s: Text, i: nat)
    requires IsBytes(s) && i < |s| < 0x8000_0000
    ensures Bytes(Accumulated(s, |s|, i / 4, 0))[i % 4] == s[i]
  {
    hide Accumulated, Bytes;
    var j := i / 4;
    AccumulatedSum(s, |s|, j);
    BytesOfSum(UnitBefore(s, |s|, 4 * j), UnitBefore(s, |s|, 4 * j + 1), UnitBefore(s, |s|, 4 * j + 2),
               UnitBefore(s, |s|, 4 * j + 3));
  }

  /** A string of fewer than 2^31 units is packed without surprises. */
  lemma ShortPacked(s: Text, withLength: bool)
    requires |s| < 0x8000_0000
    ensures Packed(s, withLength).Some?
    ensures var words := Packed(s, withLength).value;
            && |words| == WordCount(|s|) + (if withLength then 1 else 0)
            && (forall j :: 0 <= j < WordCount(|s|) ==> words[j] == Accumulated(s, |s|, j, 0))
            && (withLength ==> words[WordCount(|s|)] == |s|)
  {
    assert Count(|s|) == WordCount(|s|);
    if withLength {
      NotReached(s, |s|, WordCount(|s|), |s|);
    }
  }

  lemma {:induction false} BytesOfWord(words: seq<Word>, j: nat)
    requires j < |words|
    ensures AllBytes(words)[4 * j..4 * j + 4] == Bytes(words[j])
  {
    var last := |words| - 1;
    var front := AllBytes(words[..last]);
    var back := Bytes(words[last]);
    assert AllBytes(words) == front + back;
    if j < last {
      BytesOfWord(words[..last], j);
      assert (front + back)[4 * j..4 * j + 4] == front[4 * j..4 * j + 4];
    } else {
      assert (front + back)[4 * j..4 * j + 4] == back;
    }
  }

  /** Without a length word, unpacking gives the string back with zero units up to a full last word. */
  lemma BytesOfPacked(s: Text, withLength: bool)
    requires IsBytes(s) && |s| < 0x8000_0000
    ensures Packed(s, withLength).Some?
    ensures |AllBytes(Packed(s, withLength).value)| >= |s|
    ensures AllBytes(Packed(s, withLength).value)[..|s|] == s
  {
    hide AllBytes, Bytes, Accumulated, Packed;
    ShortPacked(s, withLength);
    var words := Packed(s, withLength).value;
    forall i | 0 <= i < |s|
      ensures AllBytes(words)[i] == s[i]
    {
      BytesOfWord(words, i / 4);
      assert AllBytes(words)[4 * (i / 4)..4 * (i / 4) + 4][i % 4] == AllBytes(words)[i];
      ByteOfPackedWord(s, i);
    }
  }

  /** The longest string whose length word survives the signed 32-bit arithmetic of unpacking. */
  const MAX_LENGTH := 0x7FFF_FFF8

  /** The signed capacity check and the signed length agree with the real numbers exactly up to MAX_LENGTH. */
  lemma LengthSurvives(size: nat)
    ensures var claimed, room := Signed(size % TWO32), Capacity(WordCount(size) + 1);
            room - 3 <= claimed <= room && claimed == size <==> size <= MAX_LENGTH
  {
  }

  /** Packing a longer string throws, or its array has no room for the string. */
  lemma LongPacked(s: Text, withLength: bool)
    requires |s| >= 0x8000_0000 && Packed(s, withLength).Some?
    ensures 0x2000_0000 <= |Packed(s, withLength).value| <= 0x2000_0001 && 4 * |Packed(s, withLength).value| < |s|
  {
  }

  /** Unpacking with the length word gives back exactly the packed string, precisely when the string
      has at most 2^31 - 8 bytes: beyond that the capacity check, the cut or packing itself goes wrong. */
  lemma UnpackInvertsPack(s: Text)
    requires IsBytes(s)
    ensures Packed(s, true).Some? && Unpacked(Packed(s, true).value, true) == Some(s) <==> |s| <= MAX_LENGTH
  {
    if |s| < 0x8000_0000 {
      ShortUnpacks(s);
    } else if Packed(s, true).Some? {
      LongPacked(s, true);
      var words := Packed(s, true).value;
      hide Packed;
      assert Unpacked(words, true).Some? ==> |Unpacked(words, true).value| <= |AllBytes(words)|;
    }
  }

  lemma ShortUnpacks(s: Text)
    requires IsBytes(s) && |s| < 0x8000_0000
    ensures Packed(s, true).Some?
    ensures Unpacked(Packed(s, true).value, true) == Some(s) <==> |s| <= MAX_LENGTH
  {
    BytesOfPacked(s, true);
    ShortPacked(s, true);
    LengthSurvives(|s|);
    hide Packed;
  }

  // ----- packing an unpacked array

  lemma SumOfBytes(w: Word)
    ensures w == w % 256 + 0x100 * (w / 0x100 % 256) + 0x1_0000 * (w / 0x1_0000 % 256)
                 + 0x100_0000 * (w / 0x100_0000 % 256)
  {
    assert w / 0x100 / 0x100 == w / 0x1_0000;
    assert w / 0x1_0000 / 0x100 == w / 0x100_0000;
  }

  lemma SumOfUnits(b: Text, w: Word)
    requires b == Bytes(w)
    ensures b[0] as int + 0x100 * (b[1] as int) + 0x1_0000 * (b[2] as int) + 0x100_0000 * (b[3] as int) == w
  {
    SumOfBytes(w);
  }

  lemma PackedWordOfBytes(words: seq<Word>, j: nat)
    requires j < |words| < 0x2000_0000
    ensures Accumulated(AllBytes(words), 4 * |words|, j, 0) == words[j]
  {
    var s := AllBytes(words);
    BytesOfWord(words, j);
    var b := s[4 * j..4 * j + 4];
    SumOfUnits(b, words[j]);
    WordFromUnits(s, j, b, words[j]);
  }

  lemma WordFromUnits(s: Text, j: nat, b: Text, w: Word)
    requires IsBytes(s) && 4 * j + 4 <= |s| < 0x8000_0000 && b == s[4 * j..4 * j + 4]
    requires b[0] as int + 0x100 * (b[1] as int) + 0x1_0000 * (b[2] as int) + 0x100_0000 * (b[3] as int) == w
    ensures Accumulated(s, |s|, j, 0) == w
  {
    AccumulatedSum(s, |s|, j);
  }

  /** Packing the bytes of a word array without a length word gives the array back, precisely when it has
      fewer than 2^29 words: from 2^31 bytes on packing throws or wraps around. */
  lemma PackInvertsUnpack(words: seq<Word>)
    ensures Packed(AllBytes(words), false) == Some(words) <==> |words| < 0x2000_0000
  {
    hide AllBytes, Packed;
    if |words| < 0x2000_0000 {
      ShortRepacks(words);
    } else if Packed(AllBytes(words), false).Some? {
      LongPacked(AllBytes(words), false);
    }
  }

  lemma ShortRepacks(words: seq<Word>)
    requires |words| < 0x2000_0000
    ensures Packed(AllBytes(words), false) == Some(words)
  {
    hide AllBytes, Accumulated, Packed;
    var s := AllBytes(words);
    ShortPacked(s, false);
    var packed := Packed(s, false).value;
    assert |packed| == |words|;
    forall j | 0 <= j < |words|
      ensures packed[j] == words[j]
    {
      PackedWordOfBytes(words, j);
    }
    assert packed == words;
  }
}
