/**
 UTF-16 strings to UTF-8 byte strings and back (`jsScript/webmssdk.js` lines 4287-4417): one encoder and
 two decoders, the second of which empties a 32768-slot buffer in chunks.
 */
module Utf8 {
  import opened Bits
  import opened Packing

  /** What the script throws; `NullText` is reading the length of null, `InvalidLength` creating an array of
      negative length. */
  datatype Error =
    MalformedString | Unfinished | BadLead(unit: Unit) | OutsideUnicode(value: int) | NullText | InvalidLength

  datatype Result<T> = Ok(value: T) | Throw(error: Error)

  function Prepend(front: Text, rest: Result<Text>): Result<Text> {
    match rest
    case Ok(t) => Ok(front + t)
    case Throw(e) => Throw(e)
  }

  predicate IsAscii(s: Text) {
    forall i :: 0 <= i < |s| ==> s[i] < 128
  }

  predicate IsHigh(c: Unit) { 0xD800 <= c < 0xDC00 }

  predicate IsLow(c: Unit) { 0xDC00 <= c < 0xE000 }

  /** Well-formed UTF-16 from unit `i` on, `i` not being inside a pair: every high surrogate is followed
      by a low one and every low one follows a high one. */
  predicate WellFormedFrom(s: Text, i: nat) {
    && (forall k :: i <= k < |s| && IsHigh(s[k]) ==> k + 1 < |s| && IsLow(s[k + 1]))
    && (forall k :: i <= k < |s| && IsLow(s[k]) ==> k > i && IsHigh(s[k - 1]))
  }

  predicate WellFormed(s: Text) {
    WellFormedFrom(s, 0)
  }

  // ----- the encoder

  /** `mark | bits` as `String.fromCharCode` stores it. */
  function Mark(mark: nat, bits: nat): Unit {
    Or(mark, bits) % 0x1_0000
  }

  function Encode2(c: Unit): (piece: Text)
    ensures |piece| == 2
  {
    [Mark(0xC0, c / 64), Mark(0x80, c % 64)]
  }

  function Encode3(c: Unit): (piece: Text)
    ensures |piece| == 3
  {
    [Mark(0xE0, c / 4096), Mark(0x80, c / 64 % 64), Mark(0x80, c % 64)]
  }

  function Encode4(p: nat): (piece: Text)
    ensures |piece| == 4
  {
    [Mark(0xF0, p / 0x4_0000 % 64), Mark(0x80, p / 4096 % 64), Mark(0x80, p / 64 % 64), Mark(0x80, p % 64)]
  }

  /** The code point of a surrogate pair. */
  function Paired(high: Unit, low: Unit): nat {
    0x1_0000 + Or(high % 1024 * 1024, low % 1024)
  }

  function EncodedFrom(s: Text, i: nat): Result<Text>
    decreases |s| - i
  {
    if i >= |s| then Ok([])
    else if s[i] < 0x80 then Prepend([s[i]], EncodedFrom(s, i + 1))
    else if s[i] < 0x800 then Prepend(Encode2(s[i]), EncodedFrom(s, i + 1))
    else if s[i] < 0xD800 || s[i] > 0xDFFF then Prepend(Encode3(s[i]), EncodedFrom(s, i + 1))
    else if i + 1 < |s| && s[i] < 0xDC00 && IsLow(s[i + 1]) then
      Prepend(Encode4(Paired(s[i], s[i + 1])), EncodedFrom(s, i + 2))
    else Throw(MalformedString)
  }

  /** An ASCII string is returned as it is. */
  function Encoded(s: Text): Result<Text> {
    if IsAscii(s) then Ok(s) else EncodedFrom(s, 0)
  }

  method Encode(s: Text) returns (r: Result<Text>)
    ensures r == Encoded(s)
  {
    if IsAscii(s) { return Ok(s); }
    var pieces: Text := [];
    var i := 0;
    PrependNothing(EncodedFrom(s, 0));
    while i < |s|
      invariant 0 <= i <= |s|
      invariant Prepend(pieces, EncodedFrom(s, i)) == EncodedFrom(s, 0)
    {
      var c := s[i];
      var piece: Text;
      if c < 0x80 {
        piece := [c];
      } else if c < 0x800 {
        piece := Encode2(c);
      } else if !(c < 0xD800 || c > 0xDFFF) {
        if i + 1 < |s| && c < 0xDC00 && IsLow(s[i + 1]) {
          piece := Encode4(Paired(c, s[i + 1]));
          PrependTwice(pieces, piece, EncodedFrom(s, i + 2));
          pieces := pieces + piece;
          i := i + 2;
          continue;
        }
        return Throw(MalformedString);
      } else {
        piece := Encode3(c);
      }
      PrependTwice(pieces, piece, EncodedFrom(s, i + 1));
      pieces := pieces + piece;
      i := i + 1;
    }
    assert pieces + [] == pieces;
    return Ok(pieces);
  }

  lemma PrependNothing(rest: Result<Text>)
    ensures Prepend([], rest) == rest
  {
    if rest.Ok? {
      assert [] + rest.value == rest.value;
    }
  }

  lemma PrependTwice(a: Text, b: Text, rest: Result<Text>)
    ensures Prepend(a, Prepend(b, rest)) == Prepend(a + b, rest)
  {
    if rest.Ok? {
      assert a + (b + rest.value) == (a + b) + rest.value;
    }
  }

  // ----- the decoders

  /** The units one byte sequence stands for and the position after it. */
  datatype Step = Step(units: Text, next: nat)

  /** The six bits a continuation byte carries. */
  function Payload(c: Unit): nat {
    c % 64
  }

  /** The bits of a four-byte sequence put together. */
  function Joined(w: nat, x: nat, y: nat, z: nat): nat {
    Or(Or(Or(w * 0x4_0000, x * 4096), y * 64), z)
  }

  /** The pair for a supplementary code point, counted from 0x10000. */
  function Surrogates(p: nat): (pair: Text)
    ensures |pair| == 2
  {
    [Or(p / 1024 % 1024, 0xD800) % 0x1_0000, Or(p % 1024, 0xDC00) % 0x1_0000]
  }

  /** Reads one sequence at `i`. Continuation bytes are masked, not checked. */
  function DecodeStep(b: Text, i: nat): (r: Result<Step>)
    requires i < |b|
    ensures r.Ok? ==> 1 <= |r.value.units| <= 2 && |r.value.units| <= r.value.next - i && r.value.next <= |b|
  {
    var lead: nat := b[i];
    if lead / 16 < 8 then Ok(Step([lead], i + 1))
    else if lead / 16 == 12 || lead / 16 == 13 then
      if i + 1 >= |b| then Throw(Unfinished)
      else Ok(Step([Or(lead % 32 * 64, Payload(b[i + 1])) % 0x1_0000], i + 2))
    else if lead / 16 == 14 then
      if i + 2 >= |b| then Throw(Unfinished)
      else Ok(Step([Or(Or(lead % 16 * 4096, Payload(b[i + 1]) * 64), Payload(b[i + 2])) % 0x1_0000], i + 3))
    else if lead / 16 == 15 then
      if i + 3 >= |b| then Throw(Unfinished)
      else
        var p := Joined(lead % 8, Payload(b[i + 1]), Payload(b[i + 2]), Payload(b[i + 3])) - 0x1_0000;
        if !(0 <= p <= 0xF_FFFF) then Throw(OutsideUnicode(p))
        else Ok(Step(Surrogates(p), i + 4))
    else Throw(BadLead(lead))
  }

  /** Decodes from position `i` until the bytes end or `room` units have been produced; a surrogate pair
      that starts in the last place is still completed. */
  function DecodedFrom(b: Text, i: nat, room: int): Result<Text>
    decreases |b| - i
  {
    if room <= 0 || i >= |b| then Ok([])
    else match DecodeStep(b, i)
      case Ok(step) => Prepend(step.units, DecodedFrom(b, step.next, room - |step.units|))
      case Throw(e) => Throw(e)
  }

  lemma DecodeUnfolds(b: Text, i: nat, room: int)
    requires i < |b| && room > 0
    ensures DecodedFrom(b, i, room) ==
            match DecodeStep(b, i)
            case Ok(step) => Prepend(step.units, DecodedFrom(b, step.next, room - |step.units|))
            case Throw(e) => Throw(e)
  {
    hide DecodeStep;
  }

  lemma DecodeEnds(b: Text, i: nat, room: int)
    requires i >= |b| || room <= 0
    ensures DecodedFrom(b, i, room) == Ok([])
  {
  }

  function Limit(b: Text, limit: int): nat {
    if limit < 0 then |b| else limit
  }

  /** A negative limit stands for a missing one. Strings that are ASCII, or not byte strings, pass through. */
  function Decoded(b: Text, limit: int): Result<Text> {
    var n := Limit(b, limit);
    if n == 0 then Ok([])
    else if IsAscii(b) || !IsBytes(b) then Ok(if n < |b| then b[..n] else b)
    else DecodedFrom(b, 0, n)
  }

  method DecodeSimple(b: Text, limit: nat) returns (r: Result<Text>)
    ensures r == DecodedFrom(b, 0, limit)
  {
    hide DecodeStep, DecodedFrom;
    // One slot more than the limit: where the script's array grows for a pair in the last place.
    var units := new Unit[limit + 1](_ => 0);
    var o, i := 0, 0;
    PrependNothing(DecodedFrom(b, 0, limit));
    while o < limit && i < |b|
      invariant 0 <= o <= limit + 1
      invariant Prepend(units[..o], DecodedFrom(b, i, limit - o)) == DecodedFrom(b, 0, limit)
      decreases |b| - i
    {
      ghost var before := units[..o];
      DecodeUnfolds(b, i, limit - o);
      match DecodeStep(b, i) {
        case Throw(e) => return Throw(e);
        case Ok(step) =>
          PrependTwice(before, step.units, DecodedFrom(b, step.next, limit - o - |step.units|));
          units[o] := step.units[0];
          if |step.units| == 2 {
            o := o + 1;
            units[o] := step.units[1];
          }
          o := o + 1;
          i := step.next;
          assert units[..o] == before + step.units;
      }
    }
    DecodeEnds(b, i, limit - o);
    assert units[..o] + [] == units[..o];
    return Ok(units[..o]);
  }

  const SLOTS := 32768
  const FLUSH_AT := 32766

  method DecodeChunked(b: Text, limit: nat) returns (r: Result<Text>)
    ensures r == DecodedFrom(b, 0, limit)
  {
    hide DecodeStep, DecodedFrom;
    var chunks: Text := [];
    var buffer := new Unit[SLOTS](_ => 0);
    var room, o, i := limit, 0, 0;
    PrependNothing(DecodedFrom(b, 0, limit));
    assert chunks + buffer[..0] == [];
    while o < room && i < |b|
      invariant 0 <= o <= FLUSH_AT && room >= -1
      invariant Prepend(chunks + buffer[..o], DecodedFrom(b, i, room - o)) == DecodedFrom(b, 0, limit)
      decreases |b| - i
    {
      ghost var before := buffer[..o];
      DecodeUnfolds(b, i, room - o);
      match DecodeStep(b, i) {
        case Throw(e) => return Throw(e);
        case Ok(step) =>
          PrependTwice(chunks + before, step.units, DecodedFrom(b, step.next, room - o - |step.units|));
          buffer[o] := step.units[0];
          if |step.units| == 2 {
            o := o + 1;
            buffer[o] := step.units[1];
          }
          i := step.next;
          assert buffer[..o + 1] == before + step.units;
          assert (chunks + before) + step.units == chunks + buffer[..o + 1];
      }
      if o >= FLUSH_AT {
        var n := o + 1;
        chunks := chunks + buffer[..n];
        room := room - n;
        o := -1;
        assert chunks + buffer[..0] == chunks;
      }
      o := o + 1;
    }
    DecodeEnds(b, i, room - o);
    if o > 0 {
      chunks := chunks + buffer[..o];
    }
    assert chunks + [] == chunks;
    return Ok(chunks);
  }

  method Decode(b: Text, limit: int) returns (r: Result<Text>)
    ensures r == Decoded(b, limit)
  {
    var n := Limit(b, limit);
    if n == 0 {
      r := Ok([]);
    } else if IsAscii(b) || !IsBytes(b) {
      r := Ok(if n < |b| then b[..n] else b);
    } else if n < 65535 {
      r := DecodeSimple(b, n);
    } else {
      r := DecodeChunked(b, n);
    }
  }

  // ----- or-ing disjoint bits adds them

  lemma MarkAdds(mark: nat, bits: nat)
    requires (mark == 0xC0 && bits < 32) || (mark == 0x80 && bits < 64) || (mark == 0xE0 && bits < 16)
      || (mark == 0xF0 && bits < 16)
    ensures Mark(mark, bits) == mark + bits
  {
    hide Or;
    Powers();
    if mark == 0xC0 {
      Join(6, bits, 5, 32);
    } else if mark == 0x80 {
      Join(2, bits, 6, 64);
    } else if mark == 0xE0 {
      Join(14, bits, 4, 16);
    } else {
      Join(15, bits, 4, 16);
    }
  }

  lemma SurrogatesAdd(p: nat)
    requires p <= 0xF_FFFF
    ensures Surrogates(p) == [0xD800 + p / 1024, 0xDC00 + p % 1024]
  {
    hide Or;
    Powers();
    Join(54, p / 1024, 10, 1024);
    Join(55, p % 1024, 10, 1024);
  }

  lemma PairedAdds(high: Unit, low: Unit)
    requires IsHigh(high) && IsLow(low)
    ensures Paired(high, low) == Supplementary(high, low)
  {
    hide Or;
    Powers();
    Join(high - 0xD800, low - 0xDC00, 10, 1024);
    assert high % 1024 == high - 0xD800 && low % 1024 == low - 0xDC00;
  }

  // ----- the encoder against the encoding forms of RFC 3629, section 3

  /** The code point of a surrogate pair as RFC 2781, section 2.2, computes it. */
  function Supplementary(high: int, low: int): nat
    requires 0xD800 <= high < 0xDC00 <= low < 0xE000
  {
    0x1_0000 + (high - 0xD800) * 0x400 + (low - 0xDC00)
  }

  /** The code points of a string from unit `i` on. */
  function CodePoints(s: Text, i: nat): seq<nat>
    decreases |s| - i
  {
    if i >= |s| then []
    else if IsHigh(s[i]) && i + 1 < |s| && IsLow(s[i + 1]) then
      [Supplementary(s[i], s[i + 1])] + CodePoints(s, i + 2)
    else [s[i] as nat] + CodePoints(s, i + 1)
  }

  /** The byte sequence of one code point. */
  function Form(p: nat): seq<int> {
    if p < 0x80 then [p]
    else if p < 0x800 then [0xC0 + p / 0x40, 0x80 + p % 0x40]
    else if p < 0x1_0000 then [0xE0 + p / 0x1000, 0x80 + p / 0x40 % 0x40, 0x80 + p % 0x40]
    else [0xF0 + p / 0x4_0000, 0x80 + p / 0x1000 % 0x40, 0x80 + p / 0x40 % 0x40, 0x80 + p % 0x40]
  }

  function Forms(points: seq<nat>): seq<int> {
    if points == [] then [] else Form(points[0]) + Forms(points[1..])
  }

  lemma PiecesAreForms(c: Unit)
    ensures 0x80 <= c < 0x800 ==> Encode2(c) == Form(c)
    ensures 0x800 <= c ==> Encode3(c) == Form(c)
  {
    hide Or;
    if 0x80 <= c < 0x800 {
      MarkAdds(0xC0, c / 64);
      MarkAdds(0x80, c % 64);
    } else if 0x800 <= c {
      MarkAdds(0xE0, c / 4096);
      MarkAdds(0x80, c / 64 % 64);
      MarkAdds(0x80, c % 64);
    }
  }

  lemma PairIsForm(p: nat)
    requires 0x1_0000 <= p < 0x11_0000
    ensures Encode4(p) == Form(p)
  {
    hide Or;
    MarkAdds(0xF0, p / 0x4_0000 % 64);
    MarkAdds(0x80, p / 4096 % 64);
    MarkAdds(0x80, p / 64 % 64);
    MarkAdds(0x80, p % 64);
  }

  /** How many units the encoder takes at `i`, and the bytes it makes of them. */
  function Taken(s: Text, i: nat): nat
    requires i < |s|
  {
    if IsHigh(s[i]) && i + 1 < |s| && IsLow(s[i + 1]) then 2 else 1
  }

  function Piece(s: Text, i: nat): Text
    requires i < |s|
  {
    if s[i] < 0x80 then [s[i]] else if s[i] < 0x800 then Encode2(s[i])
    else if Taken(s, i) == 2 then Encode4(Paired(s[i], s[i + 1])) else Encode3(s[i])
  }

  lemma EncodeStep(s: Text, i: nat)
    requires i < |s|
    ensures EncodedFrom(s, i) ==
            if !IsLow(s[i]) && (IsHigh(s[i]) ==> Taken(s, i) == 2)
            then Prepend(Piece(s, i), EncodedFrom(s, i + Taken(s, i)))
            else Throw(MalformedString)
    ensures 0 < |Piece(s, i)| && i + Taken(s, i) <= |s|
  {
    hide Mark;
  }

  lemma WellFormedSteps(s: Text, i: nat)
    requires i < |s|
    ensures WellFormedFrom(s, i) <==>
            !IsLow(s[i]) && (IsHigh(s[i]) ==> Taken(s, i) == 2) && WellFormedFrom(s, i + Taken(s, i))
  {
  }

  lemma FormsStep(s: Text, i: nat)
    requires i < |s| && !IsLow(s[i]) && (IsHigh(s[i]) ==> Taken(s, i) == 2)
    ensures Forms(CodePoints(s, i)) == Piece(s, i) + Forms(CodePoints(s, i + Taken(s, i)))
  {
    hide Or, Mark;
    var c := s[i];
    var rest := CodePoints(s, i + Taken(s, i));
    if Taken(s, i) == 2 {
      PairedAdds(c, s[i + 1]);
      PairIsForm(Paired(c, s[i + 1]));
      assert CodePoints(s, i) == [Supplementary(c, s[i + 1])] + rest;
    } else {
      PiecesAreForms(c);
      assert CodePoints(s, i) == [c as nat] + rest;
    }
    assert CodePoints(s, i)[1..] == rest;
  }

  lemma {:induction false} EncodesForms(s: Text, i: nat)
    ensures EncodedFrom(s, i).Ok? <==> WellFormedFrom(s, i)
    ensures EncodedFrom(s, i).Ok? ==> EncodedFrom(s, i).value == Forms(CodePoints(s, i))
    decreases |s| - i
  {
    if i < |s| {
      EncodesForms(s, i + Taken(s, i));
      WellFormedSteps(s, i);
      EncodeStep(s, i);
      if WellFormedFrom(s, i) {
        hide EncodedFrom, Piece, Taken, CodePoints, Forms, WellFormedFrom;
        FormsStep(s, i);
      }
    }
  }

  lemma {:induction false} AsciiForms(s: Text, i: nat)
    requires IsAscii(s) && i <= |s|
    ensures EncodedFrom(s, i) == Ok(s[i..])
    decreases |s| - i
  {
    if i < |s| {
      AsciiForms(s, i + 1);
      assert [s[i]] + s[i + 1..] == s[i..];
    } else {
      assert s[i..] == [];
    }
  }

  /** Encoding succeeds exactly on well-formed UTF-16, and then yields the RFC 3629 form of every code
      point in order; the shortcut for ASCII strings gives the same bytes. */
  lemma EncoderMeetsRfc3629(s: Text)
    ensures Encoded(s).Ok? <==> WellFormed(s)
    ensures Encoded(s).Ok? ==> Encoded(s).value == Forms(CodePoints(s, 0))
  {
    EncodesForms(s, 0);
    if IsAscii(s) {
      AsciiForms(s, 0);
      assert s[0..] == s;
    }
  }

  // ----- the decoder undoes the encoder

  lemma Reads2(b: Text, k: nat, x: nat, y: nat)
    requires k + 2 <= |b| && x < 32 && y < 64 && b[k] == 0xC0 + x && b[k + 1] == 0x80 + y
    ensures DecodeStep(b, k) == Ok(Step([x * 64 + y], k + 2))
  {
    hide Or;
    Powers();
    Join(x, y, 6, 64);
    assert b[k] % 32 == x && b[k + 1] % 64 == y;
  }

  lemma Reads3(b: Text, k: nat, x: nat, y: nat, z: nat)
    requires k + 3 <= |b| && x < 16 && y < 64 && z < 64 && b[k] == 0xE0 + x && b[k + 1] == 0x80 + y
      && b[k + 2] == 0x80 + z
    ensures DecodeStep(b, k) == Ok(Step([x * 4096 + y * 64 + z], k + 3))
  {
    hide Or;
    Powers();
    Join(x, y * 64, 12, 4096);
    Join(x * 64 + y, z, 6, 64);
    assert b[k] % 16 == x && b[k + 1] % 64 == y && b[k + 2] % 64 == z;
  }

  lemma Joins4(w: nat, x: nat, y: nat, z: nat)
    requires x < 64 && y < 64 && z < 64
    ensures Joined(w, x, y, z) == w * 0x4_0000 + x * 4096 + y * 64 + z
  {
    hide Or;
    Powers();
    Join(w, x * 4096, 18, 0x4_0000);
    Join(w * 64 + x, y * 64, 12, 4096);
    Join(w * 4096 + x * 64 + y, z, 6, 64);
  }

  lemma Reads4(b: Text, k: nat, w: nat, x: nat, y: nat, z: nat, p: nat)
    requires k + 4 <= |b| && w < 8 && x < 64 && y < 64 && z < 64
    requires b[k] == 0xF0 + w && b[k + 1] == 0x80 + x && b[k + 2] == 0x80 + y && b[k + 3] == 0x80 + z
    requires 0x1_0000 + p == w * 0x4_0000 + x * 4096 + y * 64 + z && p <= 0xF_FFFF
    ensures DecodeStep(b, k) == Ok(Step([0xD800 + p / 1024, 0xDC00 + p % 1024], k + 4))
  {
    hide Or, Joined, Surrogates;
    Joins4(w, x, y, z);
    assert b[k] % 8 == w && b[k + 1] % 64 == x && b[k + 2] % 64 == y && b[k + 3] % 64 == z;
    SurrogatesAdd(p);
  }

  lemma Decode2(b: Text, k: nat, c: Unit)
    requires 0x80 <= c < 0x800 && k + 2 <= |b| && b[k..k + 2] == Form(c)
    ensures DecodeStep(b, k) == Ok(Step([c], k + 2))
  {
    hide Or;
    var piece := b[k..k + 2];
    assert b[k] == piece[0] && b[k + 1] == piece[1];
    Reads2(b, k, c / 64, c % 64);
  }

  lemma Digits(p: nat)
    ensures p / 0x4_0000 * 64 + p / 4096 % 64 == p / 4096
    ensures p / 4096 * 64 + p / 64 % 64 == p / 64
  {
  }

  lemma Decode3(b: Text, k: nat, c: Unit)
    requires 0x800 <= c && k + 3 <= |b| && b[k..k + 3] == Form(c)
    ensures DecodeStep(b, k) == Ok(Step([c], k + 3))
  {
    hide Or;
    var piece := b[k..k + 3];
    assert b[k] == piece[0] && b[k + 1] == piece[1] && b[k + 2] == piece[2];
    Digits(c);
    Reads3(b, k, c / 4096, c / 64 % 64, c % 64);
  }

  lemma Decode4(b: Text, k: nat, high: Unit, low: Unit)
    requires IsHigh(high) && IsLow(low) && k + 4 <= |b| && b[k..k + 4] == Form(Supplementary(high, low))
    ensures DecodeStep(b, k) == Ok(Step([high, low], k + 4))
  {
    hide Or;
    var p := Supplementary(high, low);
    var piece := b[k..k + 4];
    assert b[k] == piece[0] && b[k + 1] == piece[1] && b[k + 2] == piece[2] && b[k + 3] == piece[3];
    Digits(p);
    Reads4(b, k, p / 0x4_0000, p / 4096 % 64, p / 64 % 64, p % 64, p - 0x1_0000);
  }

  lemma PieceDecodes(s: Text, i: nat, b: Text, k: nat)
    requires i < |s| && !IsLow(s[i]) && (IsHigh(s[i]) ==> Taken(s, i) == 2)
    requires k + |Piece(s, i)| <= |b| && b[k..k + |Piece(s, i)|] == Piece(s, i)
    ensures DecodeStep(b, k) == Ok(Step(s[i..i + Taken(s, i)], k + |Piece(s, i)|))
  {
    hide Or;
    var c := s[i];
    assert s[i..i + 1] == [c];
    if c < 0x80 {
      assert b[k] == b[k..k + 1][0] == c;
    } else if c < 0x800 {
      PiecesAreForms(c);
      Decode2(b, k, c);
    } else if Taken(s, i) == 2 {
      PairedAdds(c, s[i + 1]);
      PairIsForm(Supplementary(c, s[i + 1]));
      Decode4(b, k, c, s[i + 1]);
      assert s[i..i + 2] == [c, s[i + 1]];
    } else {
      PiecesAreForms(c);
      Decode3(b, k, c);
    }
  }

  lemma Concatenated(front: Text, rest: Text, b: Text, k: nat)
    requires k <= |b| && b[k..] == front + rest
    ensures k + |front| <= |b| && b[k..k + |front|] == front && b[k + |front|..] == rest
  {
    assert b[k..k + |front|] == b[k..][..|front|];
    assert b[k + |front|..] == b[k..][|front|..];
  }

  lemma Rejoined(s: Text, i: nat, n: nat)
    requires i + n <= |s|
    ensures Prepend(s[i..i + n], Ok(s[i + n..])) == Ok(s[i..])
  {
    assert s[i..i + n] + s[i + n..] == s[i..];
  }

  /** The bytes of the next piece come first, the encoding of the remaining units after them. */
  lemma EncodedSplits(s: Text, i: nat, b: Text, k: nat)
    requires i < |s| && k <= |b| && EncodedFrom(s, i) == Ok(b[k..])
    ensures !IsLow(s[i]) && (IsHigh(s[i]) ==> Taken(s, i) == 2)
    ensures var n, next := Taken(s, i), k + |Piece(s, i)|;
            i + n <= |s| && k < next <= |b| && b[k..next] == Piece(s, i) && EncodedFrom(s, i + n) == Ok(b[next..])
  {
    hide EncodedFrom, Piece, Taken, IsHigh, IsLow;
    EncodeStep(s, i);
    Concatenated(Piece(s, i), EncodedFrom(s, i + Taken(s, i)).value, b, k);
  }

  lemma NothingLeft(s: Text, i: nat, b: Text, k: nat)
    requires i == |s| && k <= |b| && EncodedFrom(s, i) == Ok(b[k..])
    ensures k == |b|
  {
  }

  lemma {:induction false} DecodesEncoded(s: Text, i: nat, b: Text, k: nat, room: int)
    requires i <= |s| && k <= |b| && room >= |s| - i
    requires EncodedFrom(s, i) == Ok(b[k..])
    ensures DecodedFrom(b, k, room) == Ok(s[i..])
    decreases |s| - i
  {
    hide EncodedFrom, Piece, DecodeStep, Taken, DecodedFrom, IsHigh, IsLow, Prepend;
    if i < |s| {
      var n, next := Taken(s, i), k + |Piece(s, i)|;
      EncodedSplits(s, i, b, k);
      PieceDecodes(s, i, b, k);
      DecodesEncoded(s, i + n, b, next, room - n);
      DecodeUnfolds(b, k, room);
      Rejoined(s, i, n);
    } else {
      NothingLeft(s, i, b, k);
      DecodeEnds(b, k, room);
      assert s[i..] == [];
    }
  }

  lemma {:induction false} EncodedIsBytes(s: Text, i: nat)
    requires EncodedFrom(s, i).Ok? && i <= |s|
    ensures IsBytes(EncodedFrom(s, i).value)
    ensures |EncodedFrom(s, i).value| >= |s| - i
    ensures IsAscii(EncodedFrom(s, i).value) ==> forall k :: i <= k < |s| ==> s[k] < 128
    decreases |s| - i
  {
    hide Or;
    if i < |s| {
      var c := s[i];
      if c < 0x80 {
        EncodedIsBytes(s, i + 1);
        assert EncodedFrom(s, i).value[1..] == EncodedFrom(s, i + 1).value;
      } else if IsHigh(c) {
        EncodedIsBytes(s, i + 2);
        PairedAdds(c, s[i + 1]);
        PairIsForm(Paired(c, s[i + 1]));
        assert EncodedFrom(s, i).value[0] >= 128;
      } else {
        EncodedIsBytes(s, i + 1);
        PiecesAreForms(c);
        assert EncodedFrom(s, i).value[0] >= 128;
      }
    }
  }

  /** Decoding gives back every string that can be encoded, that is every well-formed one. */
  lemma DecodeInvertsEncode(s: Text)
    requires WellFormed(s)
    ensures Encoded(s).Ok? && IsBytes(Encoded(s).value) && |Encoded(s).value| >= |s|
    ensures Decoded(Encoded(s).value, -1) == Ok(s)
  {
    EncoderMeetsRfc3629(s);
    if !IsAscii(s) {
      var b := Encoded(s).value;
      EncodedIsBytes(s, 0);
      assert b[0..] == b && s[0..] == s;
      DecodesEncoded(s, 0, b, 0, |b|);
    }
  }

  // ----- bytes that were cut short never decode to the whole string

  /** A sequence whose last bytes are missing is refused. */
  lemma CutPieceThrows(s: Text, i: nat, t: Text, k: nat)
    requires i < |s| && !IsLow(s[i]) && (IsHigh(s[i]) ==> Taken(s, i) == 2)
    requires k < |t| < k + |Piece(s, i)| && t[k] == Piece(s, i)[0]
    ensures DecodeStep(t, k) == Throw(Unfinished)
  {
    hide Or;
    PiecesAreForms(s[i]);
    if Taken(s, i) == 2 {
      PairedAdds(s[i], s[i + 1]);
      PairIsForm(Supplementary(s[i], s[i + 1]));
    }
  }

  lemma BytesLeft(s: Text, i: nat, b: Text, k: nat)
    requires i <= |s| && k < |b| && EncodedFrom(s, i) == Ok(b[k..])
    ensures i < |s|
  {
  }

  lemma {:induction false} CutDecodesShorter(s: Text, i: nat, b: Text, k: nat, t: Text, room: int)
    requires i <= |s| && k <= |t| < |b| && t == b[..|t|]
    requires EncodedFrom(s, i) == Ok(b[k..])
    ensures DecodedFrom(t, k, room).Ok? ==> |DecodedFrom(t, k, room).value| < |s| - i
    decreases |s| - i
  {
    hide EncodedFrom, Piece, DecodeStep, Taken, IsHigh, IsLow;
    BytesLeft(s, i, b, k);
    if k >= |t| || room <= 0 {
      assert DecodedFrom(t, k, room) == Ok([]);
    } else {
      hide DecodedFrom;
      var n, m := Taken(s, i), |Piece(s, i)|;
      EncodedSplits(s, i, b, k);
      if k + m <= |t| {
        assert t[k..k + m] == b[k..k + m];
        PieceDecodes(s, i, t, k);
        DecodeUnfolds(t, k, room);
        CutDecodesShorter(s, i + n, b, k + m, t, room - n);
      } else {
        assert t[k] == b[k] == b[k..k + m][0];
        CutPieceThrows(s, i, t, k);
        DecodeUnfolds(t, k, room);
      }
    }
  }

  /** No proper prefix of an encoded string decodes to that string. */
  lemma CutIsNotDecoded(s: Text, t: Text)
    requires WellFormed(s) && Encoded(s).Ok? && |t| < |Encoded(s).value| && t == Encoded(s).value[..|t|]
    ensures Decoded(t, -1) != Ok(s)
  {
    DecodeInvertsEncode(s);
    var b := Encoded(s).value;
    if IsAscii(s) {
      assert b == s;
    } else {
      assert b[0..] == b;
      CutDecodesShorter(s, 0, b, 0, t, |t|);
    }
  }
}
