/**
 * The audio payload format of the speech-synthesis path: the provider's bytes are
 * base64-encoded (RFC 4648, section 4, the standard alphabet with `=` padding, as
 * Node's `Buffer.toString("base64")` produces it) and wrapped in a `data:` URI
 * (RFC 2397, section 2) with media type `audio/mpeg` and the `;base64` marker.
 */
module Base64 {
  import opened Common
  import JsString

  type byte = x: int | 0 <= x < 256

  /** A 6-bit group value. */
  type sextet = x: int | 0 <= x < 64

  /** Table 1 of RFC 4648: the value-to-character mapping of the base64 alphabet. */
  function IndexChar(i: sextet): char {
    if i < 26 then ('A' as int + i) as char
    else if i < 52 then ('a' as int + (i - 26)) as char
    else if i < 62 then ('0' as int + (i - 52)) as char
    else if i == 62 then '+'
    else '/'
  }

  predicate IsAlphabetChar(c: char) {
    ('A' <= c <= 'Z') || ('a' <= c <= 'z') || ('0' <= c <= '9') || c == '+' || c == '/'
  }

  /** The character-to-value mapping, the inverse of IndexChar on the alphabet. */
  function CharIndex(c: char): (i: sextet)
    requires IsAlphabetChar(c)
    ensures IndexChar(i) == c
  {
    if 'A' <= c <= 'Z' then c as int - 'A' as int
    else if 'a' <= c <= 'z' then c as int - 'a' as int + 26
    else if '0' <= c <= '9' then c as int - '0' as int + 52
    else if c == '+' then 62
    else 63
  }

  lemma CharIndexOfIndexChar(i: sextet)
    ensures IsAlphabetChar(IndexChar(i)) && CharIndex(IndexChar(i)) == i
  {
  }

  /** Three bytes, 24 bits, become four alphabet characters (RFC 4648 section 4). */
  function EncodeTriple(a: byte, b: byte, c: byte): string {
    [IndexChar(a / 4), IndexChar((a % 4) * 16 + b / 16), IndexChar((b % 16) * 4 + c / 64), IndexChar(c % 64)]
  }

  /** Standard base64 with padding: a final group of one byte ends in "==", of two bytes in "=". */
  function Encode(data: seq<byte>): (r: string)
    ensures |r| == (|data| + 2) / 3 * 4
    decreases |data|
  {
    if |data| == 0 then []
    else if |data| == 1 then
      [IndexChar(data[0] / 4), IndexChar((data[0] % 4) * 16), '=', '=']
    else if |data| == 2 then
      [IndexChar(data[0] / 4), IndexChar((data[0] % 4) * 16 + data[1] / 16), IndexChar((data[1] % 16) * 4), '=']
    else
      EncodeTriple(data[0], data[1], data[2]) + Encode(data[3..])
  }

  /** Four alphabet characters, back to three bytes. */
  function DecodeQuad(q: string): Option<seq<byte>>
    requires |q| == 4
  {
    if IsAlphabetChar(q[0]) && IsAlphabetChar(q[1]) && IsAlphabetChar(q[2]) && IsAlphabetChar(q[3]) then
      var s0, s1, s2, s3 := CharIndex(q[0]), CharIndex(q[1]), CharIndex(q[2]), CharIndex(q[3]);
      Some([s0 * 4 + s1 / 16, (s1 % 16) * 16 + s2 / 4, (s2 % 4) * 64 + s3])
    else None
  }

  /** The last group, which may carry padding; non-zero pad bits are rejected (RFC 4648 section 3.5). */
  function DecodeFinal(q: string): Option<seq<byte>>
    requires |q| == 4
  {
    if q[2] == '=' && q[3] == '=' then
      if IsAlphabetChar(q[0]) && IsAlphabetChar(q[1]) && CharIndex(q[1]) % 16 == 0 then
        Some([CharIndex(q[0]) * 4 + CharIndex(q[1]) / 16])
      else None
    else if q[3] == '=' then
      if IsAlphabetChar(q[0]) && IsAlphabetChar(q[1]) && IsAlphabetChar(q[2]) && CharIndex(q[2]) % 4 == 0 then
        var s0, s1, s2 := CharIndex(q[0]), CharIndex(q[1]), CharIndex(q[2]);
        Some([s0 * 4 + s1 / 16, (s1 % 16) * 16 + s2 / 4])
      else None
    else DecodeQuad(q)
  }

  /** Decoding of canonical padded base64; anything Encode cannot produce is None. */
  function Decode(s: string): Option<seq<byte>>
    decreases |s|
  {
    if s == [] then Some([])
    else if |s| < 4 then None
    else if |s| == 4 then DecodeFinal(s)
    else
      match DecodeQuad(s[..4])
      case None => None
      case Some(head) =>
        match Decode(s[4..])
        case None => None
        case Some(tail) => Some(head + tail)
  }

  lemma DivMod4(x: nat, y: nat)
    requires y < 4
    ensures (x * 4 + y) / 4 == x && (x * 4 + y) % 4 == y
  {
  }

  lemma DivMod16(x: nat, y: nat)
    requires y < 16
    ensures (x * 16 + y) / 16 == x && (x * 16 + y) % 16 == y
  {
  }

  lemma DivMod64(x: nat, y: nat)
    requires y < 64
    ensures (x * 64 + y) / 64 == x && (x * 64 + y) % 64 == y
  {
  }

  /** The sextets of three bytes join back into the three bytes. */
  lemma TripleBits(a: byte, b: byte, c: byte)
    ensures a / 4 * 4 + ((a % 4) * 16 + b / 16) / 16 == a
    ensures (((a % 4) * 16 + b / 16) % 16) * 16 + ((b % 16) * 4 + c / 64) / 4 == b
    ensures (((b % 16) * 4 + c / 64) % 4) * 64 + c % 64 == c
  {
    DivMod16(a % 4, b / 16);
    DivMod4(b % 16, c / 64);
  }

  /** Splitting the 24 bits of three bytes into sextets and joining them back. */
  lemma TripleRoundTrip(a: byte, b: byte, c: byte)
    ensures DecodeQuad(EncodeTriple(a, b, c)) == Some([a, b, c])
  {
    var s0, s1, s2, s3 := a / 4, (a % 4) * 16 + b / 16, (b % 16) * 4 + c / 64, c % 64;
    var e := EncodeTriple(a, b, c);
    assert e == [IndexChar(s0), IndexChar(s1), IndexChar(s2), IndexChar(s3)];
    CharIndexOfIndexChar(s0);
    CharIndexOfIndexChar(s1);
    CharIndexOfIndexChar(s2);
    CharIndexOfIndexChar(s3);
    TripleBits(a, b, c);
  }

  /** The sextets of a two-byte group join back into the two bytes. */
  lemma PairBits(a: byte, b: byte)
    ensures a / 4 * 4 + ((a % 4) * 16 + b / 16) / 16 == a
    ensures (((a % 4) * 16 + b / 16) % 16) * 16 + ((b % 16) * 4) / 4 == b
  {
    DivMod16(a % 4, b / 16);
    DivMod4(b % 16, 0);
  }

  /** The padded group of two bytes decodes back to them. */
  lemma PairFinal(a: byte, b: byte)
    ensures DecodeFinal([IndexChar(a / 4), IndexChar((a % 4) * 16 + b / 16), IndexChar((b % 16) * 4), '=']) == Some([a, b])
  {
    CharIndexOfIndexChar(a / 4);
    CharIndexOfIndexChar((a % 4) * 16 + b / 16);
    CharIndexOfIndexChar((b % 16) * 4);
    PairBits(a, b);
  }

  /** The group padded with "==" decodes back to its one byte. */
  lemma SingleFinal(a: byte)
    ensures DecodeFinal([IndexChar(a / 4), IndexChar((a % 4) * 16), '=', '=']) == Some([a])
  {
    CharIndexOfIndexChar(a / 4);
    CharIndexOfIndexChar((a % 4) * 16);
    DivMod16(a % 4, 0);
  }

  lemma PairRoundTrip(data: seq<byte>)
    requires |data| == 2
    ensures Decode(Encode(data)) == Some(data)
  {
    var a, b := data[0], data[1];
    var e := [IndexChar(a / 4), IndexChar((a % 4) * 16 + b / 16), IndexChar((b % 16) * 4), '='];
    assert Encode(data) == e;
    PairFinal(a, b);
    assert Decode(e) == DecodeFinal(e);
    assert data == [a, b];
  }

  lemma SingleRoundTrip(data: seq<byte>)
    requires |data| == 1
    ensures Decode(Encode(data)) == Some(data)
  {
    var a := data[0];
    var e := [IndexChar(a / 4), IndexChar((a % 4) * 16), '=', '='];
    assert Encode(data) == e;
    SingleFinal(a);
    assert Decode(e) == DecodeFinal(e);
    assert data == [a];
  }

  lemma LastTripleRoundTrip(data: seq<byte>)
    requires |data| == 3
    ensures Decode(Encode(data)) == Some(data)
  {
    var a, b, c := data[0], data[1], data[2];
    var e := EncodeTriple(a, b, c);
    EncodeThree(data);
    DecodeOfOneGroup(e);
    UnpaddedFinal(a, b, c);
    TripleRoundTrip(a, b, c);
    assert data == [a, b, c];
  }

  lemma DecodeOfOneGroup(e: string)
    requires |e| == 4
    ensures Decode(e) == DecodeFinal(e)
  {
  }

  lemma EncodeThree(data: seq<byte>)
    requires |data| == 3
    ensures Encode(data) == EncodeTriple(data[0], data[1], data[2])
  {
    assert Encode(data[3..]) == [];
  }

  /** A full last group carries no padding, so it decodes as an inner group. */
  lemma UnpaddedFinal(a: byte, b: byte, c: byte)
    ensures DecodeFinal(EncodeTriple(a, b, c)) == DecodeQuad(EncodeTriple(a, b, c))
  {
    CharIndexOfIndexChar(c % 64);
  }

  /** Decoding undoes encoding, for every byte string. */
  lemma {:induction false} DecodeEncode(data: seq<byte>)
    ensures Decode(Encode(data)) == Some(data)
    decreases |data|
  {
    if |data| == 1 {
      SingleRoundTrip(data);
    } else if |data| == 2 {
      PairRoundTrip(data);
    } else if |data| == 3 {
      LastTripleRoundTrip(data);
    } else if |data| > 3 {
      DecodeEncode(data[3..]);
      DecodeEncodeStep(data);
    }
  }

  lemma EncodeCons(data: seq<byte>)
    requires |data| > 3
    ensures Encode(data) == EncodeTriple(data[0], data[1], data[2]) + Encode(data[3..])
  {
  }

  lemma DecodeCons(t: string, r: string)
    requires |t| == 4 && |r| >= 4 && DecodeQuad(t).Some? && Decode(r).Some?
    ensures Decode(t + r) == Some(DecodeQuad(t).value + Decode(r).value)
  {
    var e := t + r;
    assert e[..4] == t;
    assert e[4..] == r;
  }

  /** One full group in front of a tail that already round-trips. */
  lemma DecodeEncodeStep(data: seq<byte>)
    requires |data| > 3 && Decode(Encode(data[3..])) == Some(data[3..])
    ensures Decode(Encode(data)) == Some(data)
  {
    EncodeCons(data);
    TripleRoundTrip(data[0], data[1], data[2]);
    DecodeCons(EncodeTriple(data[0], data[1], data[2]), Encode(data[3..]));
    SplitOffTriple(data);
  }

  lemma SplitOffTriple(data: seq<byte>)
    requires |data| > 3
    ensures [data[0], data[1], data[2]] + data[3..] == data
  {
  }

  /** Four sextets joined into three bytes split back into the same sextets. */
  lemma SextetBits(s0: nat, s1: nat, s2: nat, s3: nat)
    requires s0 < 64 && s1 < 64 && s2 < 64 && s3 < 64
    ensures var a, b, c := s0 * 4 + s1 / 16, (s1 % 16) * 16 + s2 / 4, (s2 % 4) * 64 + s3;
      && a < 256 && b < 256 && c < 256
      && a / 4 == s0 && (a % 4) * 16 + b / 16 == s1 && (b % 16) * 4 + c / 64 == s2 && c % 64 == s3
  {
    DivMod4(s0, s1 / 16);
    DivMod16(s1 % 16, s2 / 4);
    DivMod64(s2 % 4, s3);
    DivMod16(s1 / 16, s1 % 16);
    DivMod4(s2 / 4, s2 % 4);
  }

  /** Two sextets with zero pad bits joined into one byte split back into them. */
  lemma OneByteBits(s0: nat, s1: nat)
    requires s0 < 64 && s1 < 64 && s1 % 16 == 0
    ensures var a := s0 * 4 + s1 / 16; a / 4 == s0 && (a % 4) * 16 == s1
  {
    DivMod4(s0, s1 / 16);
    DivMod16(s1 / 16, 0);
  }

  /** Three sextets with zero pad bits joined into two bytes split back into them. */
  lemma TwoByteBits(s0: nat, s1: nat, s2: nat)
    requires s0 < 64 && s1 < 64 && s2 < 64 && s2 % 4 == 0
    ensures var a, b := s0 * 4 + s1 / 16, (s1 % 16) * 16 + s2 / 4;
      a / 4 == s0 && (a % 4) * 16 + b / 16 == s1 && (b % 16) * 4 == s2
  {
    DivMod4(s0, s1 / 16);
    DivMod16(s1 % 16, s2 / 4);
    DivMod16(s1 / 16, s1 % 16);
    DivMod4(s2 / 4, 0);
  }

  /** Joining four sextets into three bytes and splitting them again. */
  lemma QuadEncodeBack(q: string)
    requires |q| == 4 && DecodeQuad(q).Some?
    ensures |DecodeQuad(q).value| == 3
    ensures EncodeTriple(DecodeQuad(q).value[0], DecodeQuad(q).value[1], DecodeQuad(q).value[2]) == q
  {
    var s0: nat, s1: nat, s2: nat, s3: nat := CharIndex(q[0]), CharIndex(q[1]), CharIndex(q[2]), CharIndex(q[3]);
    SextetBits(s0, s1, s2, s3);
    var a: byte, b: byte, c: byte := s0 * 4 + s1 / 16, (s1 % 16) * 16 + s2 / 4, (s2 % 4) * 64 + s3;
    assert DecodeQuad(q).value == [a, b, c];
    assert EncodeTriple(a, b, c) == [IndexChar(s0), IndexChar(s1), IndexChar(s2), IndexChar(s3)];
    assert q == [q[0], q[1], q[2], q[3]];
  }

  /** A group padded with "==" encodes back from its one byte. */
  lemma DoublePadEncodeBack(q: string)
    requires |q| == 4 && q[2] == '=' && q[3] == '=' && DecodeFinal(q).Some?
    ensures Encode(DecodeFinal(q).value) == q
  {
    var s0: nat, s1: nat := CharIndex(q[0]), CharIndex(q[1]);
    OneByteBits(s0, s1);
    var a: byte := s0 * 4 + s1 / 16;
    assert DecodeFinal(q).value == [a];
    assert Encode([a]) == [IndexChar(s0), IndexChar(s1), '=', '='];
  }

  /** A group padded with "=" encodes back from its two bytes. */
  lemma SinglePadEncodeBack(q: string)
    requires |q| == 4 && q[2] != '=' && q[3] == '=' && DecodeFinal(q).Some?
    ensures Encode(DecodeFinal(q).value) == q
  {
    var s0: nat, s1: nat, s2: nat := CharIndex(q[0]), CharIndex(q[1]), CharIndex(q[2]);
    TwoByteBits(s0, s1, s2);
    var a: byte, b: byte := s0 * 4 + s1 / 16, (s1 % 16) * 16 + s2 / 4;
    assert DecodeFinal(q).value == [a, b];
    assert Encode([a, b]) == [IndexChar(s0), IndexChar(s1), IndexChar(s2), '='];
  }

  lemma FinalEncodeBack(q: string)
    requires |q| == 4 && DecodeFinal(q).Some?
    ensures Encode(DecodeFinal(q).value) == q
  {
    if q[2] == '=' && q[3] == '=' {
      DoublePadEncodeBack(q);
    } else if q[3] == '=' {
      SinglePadEncodeBack(q);
    } else {
      assert DecodeFinal(q) == DecodeQuad(q);
      QuadEncodeBack(q);
      var d := DecodeQuad(q).value;
      EncodeThree(d);
    }
  }

  /** Encoding undoes decoding: only canonical encodings decode, so the decoder
      accepts exactly the strings the encoder produces. */
  lemma {:induction false} EncodeDecode(s: string)
    requires Decode(s).Some?
    ensures Encode(Decode(s).value) == s
    decreases |s|
  {
    if |s| == 4 {
      FinalEncodeBack(s);
    } else if |s| > 4 {
      var head := DecodeQuad(s[..4]).value;
      var tail := Decode(s[4..]).value;
      QuadEncodeBack(s[..4]);
      EncodeDecode(s[4..]);
      var d := head + tail;
      assert Decode(s).value == d;
      assert d[..3] == head && d[3..] == tail;
      assert |d| > 3 by { assert |tail| > 0 by { assert Encode(tail) == s[4..]; } }
      assert Encode(d) == EncodeTriple(d[0], d[1], d[2]) + Encode(d[3..]);
      assert s == s[..4] + s[4..];
    }
  }

  /** The two lemmas together: a string decodes to `data` exactly when it is the encoding of `data`. */
  lemma DecodeIffEncode(s: string, data: seq<byte>)
    ensures Decode(s) == Some(data) <==> s == Encode(data)
  {
    if Decode(s) == Some(data) {
      EncodeDecode(s);
    }
    if s == Encode(data) {
      DecodeEncode(data);
    }
  }

  /** RFC 2397 `data:` URI header for MPEG audio with base64 data, as the server builds it. */
  const AudioPrefix: string := "data:audio/mpeg;base64,"

  function AudioDataUri(audio: seq<byte>): string {
    AudioPrefix + Encode(audio)
  }

  /** Reading the bytes back out of an audio data URI. */
  function ParseAudioDataUri(uri: string): Option<seq<byte>> {
    if JsString.StartsWith(uri, AudioPrefix) then Decode(uri[|AudioPrefix|..]) else None
  }

  /** The audio URI carries the provider's bytes unchanged. */
  lemma AudioDataUriRoundTrip(audio: seq<byte>)
    ensures JsString.StartsWith(AudioDataUri(audio), AudioPrefix)
    ensures ParseAudioDataUri(AudioDataUri(audio)) == Some(audio)
  {
    var u := AudioDataUri(audio);
    assert u[..|AudioPrefix|] == AudioPrefix;
    assert u[|AudioPrefix|..] == Encode(audio);
    DecodeEncode(audio);
  }
}
