/**
 The text cipher of `jsScript/webmssdk.js` (lines 4250-4254 and 4413-4430): a string is encoded as UTF-8,
 packed into words with its length, encrypted, and unpacked into a byte string; decryption goes back.
 */
module CipherStack {
  import opened Bits
  import opened Options
  import opened Packing
  import opened Utf8
  import Xxtea

  /** The key padded to four words; words beyond the fourth are kept but never read. */
  function Padded(words: seq<Word>): (key: seq<Word>)
    ensures |key| >= 4 && |key| >= |words|
  {
    words + seq(if |words| < 4 then 4 - |words| else 0, _ => 0)
  }

  function EncryptedBytes(b: Text, key: Text): Result<Text> {
    match Packed(b, true)
    case None => Throw(InvalidLength)
    case Some(words) =>
      match Packed(key, false)
      case None => Throw(InvalidLength)
      case Some(k) => Ok(AllBytes(Xxtea.Encrypted(words, Padded(k))))
  }

  function Encrypted(s: Text, key: Text): Result<Text> {
    if s == [] then Ok(s)
    else match Encoded(s)
      case Throw(e) => Throw(e)
      case Ok(b) =>
        match Encoded(key)
        case Throw(e) => Throw(e)
        case Ok(k) => EncryptedBytes(b, k)
  }

  function DecryptedBytes(c: Text, key: Text): Result<Text> {
    match Packed(c, false)
    case None => Throw(InvalidLength)
    case Some(words) =>
      match Packed(key, false)
      case None => Throw(InvalidLength)
      case Some(k) =>
        match Unpacked(Xxtea.Decrypted(words, Padded(k)), true)
        case None => Throw(NullText)
        case Some(b) => Ok(b)
  }

  function Decrypted(c: Text, key: Text): Result<Text> {
    if c == [] then Ok(c)
    else match Encoded(key)
      case Throw(e) => Throw(e)
      case Ok(k) =>
        match DecryptedBytes(c, k)
        case Throw(e) => Throw(e)
        case Ok(b) => Decoded(b, -1)
  }

  function Present(r: Result<Text>): Result<Option<Text>> {
    match r
    case Ok(t) => Ok(Some(t))
    case Throw(e) => Throw(e)
  }

  method PadKey(words: array<Word>) returns (key: seq<Word>)
    ensures key == Padded(words[..])
  {
    key := words[..];
    while |key| < 4
      invariant words.Length <= |key| && (|key| <= 4 || |key| == words.Length)
      invariant key == words[..] + seq(|key| - words.Length, _ => 0)
    {
      key := key + [0];
    }
  }

  /** A missing text is passed through. */
  method Encrypt(s: Option<Text>, key: Text) returns (r: Result<Option<Text>>)
    ensures r == if s.None? then Ok(None) else Present(Encrypted(s.value, key))
  {
    if s.None? || |s.value| == 0 { return Ok(s); }
    var encoded := Utf8.Encode(s.value);
    if encoded.Throw? { return Throw(encoded.error); }
    var encodedKey := Utf8.Encode(key);
    if encodedKey.Throw? { return Throw(encodedKey.error); }
    hide Packed;
    var words := Pack(encoded.value, true);
    if words.None? { return Throw(InvalidLength); }
    var keyWords := Pack(encodedKey.value, false);
    if keyWords.None? { return Throw(InvalidLength); }
    var padded := PadKey(keyWords.value);
    Xxtea.Encrypt(words.value, padded);
    var cipher := Unpack(words.value, false);
    r := Ok(cipher);
  }

  method Decrypt(c: Option<Text>, key: Text) returns (r: Result<Option<Text>>)
    ensures r == if c.None? then Ok(None) else Present(Decrypted(c.value, key))
  {
    if c.None? || |c.value| == 0 { return Ok(c); }
    var encodedKey := Utf8.Encode(key);
    if encodedKey.Throw? { return Throw(encodedKey.error); }
    hide Packed;
    var words := Pack(c.value, false);
    if words.None? { return Throw(InvalidLength); }
    var keyWords := Pack(encodedKey.value, false);
    if keyWords.None? { return Throw(InvalidLength); }
    var padded := PadKey(keyWords.value);
    Xxtea.Decrypt(words.value, padded);
    var plain := Unpack(words.value, true);
    if plain.None? { return Throw(NullText); }
    var decoded := Utf8.Decode(plain.value, -1);
    r := Present(decoded);
  }

  // ----- decryption undoes encryption

  /** The key can be packed: the script's signed count of its words is not negative. That holds for every
      key of fewer than 2^31 bytes. */
  predicate KeyFits(length: nat) {
    Count(length) >= 0
  }

  lemma ShortKeyFits(length: nat)
    requires length < 0x8000_0000
    ensures KeyFits(length)
  {
  }

  lemma KeyFitsIff(key: Text)
    ensures Packed(key, false).Some? <==> KeyFits(|key|)
  {
  }

  /** On bytes, for every key that fits: the cipher text has fewer than 2^31 bytes and gives the packed
      bytes back, or decryption refuses to pack it. */
  lemma BytesRoundTrip(b: Text, key: Text)
    requires IsBytes(b) && b != [] && KeyFits(|key|) && Packed(b, true).Some?
    ensures EncryptedBytes(b, key).Ok?
    ensures DecryptedBytes(EncryptedBytes(b, key).value, key) ==
            if |Packed(b, true).value| >= 0x2000_0000 then Throw(InvalidLength)
            else match Unpacked(Packed(b, true).value, true) case None => Throw(NullText) case Some(t) => Ok(t)
  {
    hide Packed, AllBytes, Unpacked, KeyFits, IsBytes, Padded;
    KeyFitsIff(key);
    PackedIsShort(b);
    var words := Packed(b, true).value;
    var k := Padded(Packed(key, false).value);
    var cipher := Xxtea.Encrypted(words, k);
    PackInvertsUnpack(cipher);
    if |words| >= 0x2000_0000 {
      LongCipherThrows(AllBytes(cipher));
    } else {
      Xxtea.DecryptInvertsEncrypt(words, k);
    }
  }

  lemma PackedIsShort(b: Text)
    requires Packed(b, true).Some?
    ensures |Packed(b, true).value| <= 0x2000_0001
    ensures b != [] ==> |Packed(b, true).value| >= 2
  {
    if |b| < 0x8000_0000 {
      ShortPacked(b, true);
    } else {
      LongPacked(b, true);
    }
  }

  lemma LongCipherThrows(c: Text)
    requires 0x8000_0000 <= |c| <= 0x8000_0004 && |c| % 4 == 0
    ensures Packed(c, false) == None
  {
  }

  /** The packed words of `n` bytes take fewer than 2^29 words exactly up to MAX_LENGTH. */
  lemma ShortCipher(b: Text)
    requires Packed(b, true).Some?
    ensures |Packed(b, true).value| < 0x2000_0000 <==> |b| <= MAX_LENGTH
  {
    if |b| < 0x8000_0000 {
      ShortPacked(b, true);
    } else {
      LongPacked(b, true);
    }
  }

  predicate RoundTrips(s: Text, key: Text) {
    Encrypted(s, key).Ok? && Decrypted(Encrypted(s, key).value, key) == Ok(s)
  }

  /** For every string and key that can be encoded, decrypting the encrypted string gives it back exactly
      when the string is empty, or its UTF-8 form has at most 2^31 - 8 bytes and that of the key fits. */
  lemma DecryptInvertsEncrypt(s: Text, key: Text)
    requires WellFormed(s) && WellFormed(key)
    ensures Encoded(s).Ok? && Encoded(key).Ok?
    ensures RoundTrips(s, key) <==> s == [] || (|Encoded(s).value| <= MAX_LENGTH && KeyFits(|Encoded(key).value|))
  {
    EncoderMeetsRfc3629(s);
    EncoderMeetsRfc3629(key);
    DecodeInvertsEncode(s);
    hide Encoded, Decoded, Packed, Unpacked;
    if s != [] {
      var b, k := Encoded(s).value, Encoded(key).value;
      KeyFitsIff(k);
      UnpackInvertsPack(b);
      if Packed(b, true).Some? && KeyFits(|k|) {
        ShortCipher(b);
        BytesRoundTrip(b, k);
        CipherIsNotEmpty(b, k);
      }
    }
  }

  lemma CipherIsNotEmpty(b: Text, key: Text)
    requires b != [] && EncryptedBytes(b, key).Ok?
    ensures EncryptedBytes(b, key).value != []
  {
    PackedIsShort(b);
  }

  /** A string or key with an unpaired surrogate is refused before anything is encrypted. */
  lemma UnpairedSurrogatesAreRefused(s: Text, key: Text)
    requires s != [] && !(WellFormed(s) && WellFormed(key))
    ensures Encrypted(s, key) == Throw(MalformedString)
  {
    EncoderMeetsRfc3629(s);
    EncoderMeetsRfc3629(key);
    hide EncryptedBytes, WellFormed;
    if Encoded(s).Throw? {
      OnlyMalformed(s, 0);
    } else {
      OnlyMalformed(key, 0);
    }
  }

  lemma {:induction false} OnlyMalformed(s: Text, i: nat)
    ensures EncodedFrom(s, i).Throw? ==> EncodedFrom(s, i) == Throw(MalformedString)
    decreases |s| - i
  {
    if i < |s| {
      EncodeStep(s, i);
      OnlyMalformed(s, i + Taken(s, i));
    }
  }
}
