// What the valid sequences are: the encodings of the Unicode scalar values, after section 3
// of RFC 3629.
module Utf8Scalars {
  import opened Utf8

  // A code point that is no surrogate.
  type Scalar = c: int | 0 <= c <= 0x10FFFF && !(0xD800 <= c <= 0xDFFF)

  // The bits of the code point, six for each byte but the first.
  function Encode(c: Scalar): Bytes {
    var n: int := c;
    if n < 0x80 then [n]
    else if n < 0x800 then [0xC0 + n / 64, 0x80 + n % 64]
    else if n < 0x1_0000 then [0xE0 + n / 64 / 64, 0x80 + n / 64 % 64, 0x80 + n % 64]
    else [0xF0 + n / 64 / 64 / 64, 0x80 + n / 64 / 64 % 64, 0x80 + n / 64 % 64, 0x80 + n % 64]
  }

  function EncodeAll(scalars: seq<Scalar>): Bytes {
    if scalars == [] then [] else Encode(scalars[0]) + EncodeAll(scalars[1..])
  }

  // Every encoding is a valid sequence, whatever follows.
  lemma EncodedIsSequence(c: Scalar, rest: Bytes)
    ensures SequenceLength(Encode(c) + rest) == |Encode(c)|
  {
    var s := Encode(c) + rest;
    assert forall k | 0 <= k < |Encode(c)| :: s[k] == Encode(c)[k];
  }

  // And every valid sequence is one.
  lemma SequenceIsEncoded(s: Bytes) returns (c: Scalar)
    requires SequenceLength(s) > 0
    ensures s[..SequenceLength(s)] == Encode(c)
  {
    var n := SequenceLength(s);
    if n == 1 {
      c := s[0];
    } else if n == 2 {
      var high, low: int := s[0] - 0xC0, s[1] - 0x80;
      SixBits(high, low);
      c := high * 64 + low;
    } else if n == 3 {
      c := ThreeBytes(s[0], s[1], s[2]);
    } else {
      c := FourBytes(s[0], s[1], s[2], s[3]);
    }
  }

  lemma SixBits(high: int, low: int)
    requires 0 <= low < 64
    ensures (high * 64 + low) / 64 == high && (high * 64 + low) % 64 == low
  {
  }

  lemma ThreeBytes(b0: Byte, b1: Byte, b2: Byte) returns (c: Scalar)
    requires ThreeByteLead(b0, b1) && IsTail(b2)
    ensures Encode(c) == [b0, b1, b2]
  {
    var high, middle, low: int := b0 - 0xE0, b1 - 0x80, b2 - 0x80;
    SixBits(high, middle);
    SixBits(high * 64 + middle, low);
    c := (high * 64 + middle) * 64 + low;
  }

  lemma FourBytes(b0: Byte, b1: Byte, b2: Byte, b3: Byte) returns (c: Scalar)
    requires FourByteLead(b0, b1) && IsTail(b2) && IsTail(b3)
    ensures Encode(c) == [b0, b1, b2, b3]
  {
    var high, second, third, low: int := b0 - 0xF0, b1 - 0x80, b2 - 0x80, b3 - 0x80;
    SixBits(high, second);
    SixBits(high * 64 + second, third);
    SixBits((high * 64 + second) * 64 + third, low);
    c := ((high * 64 + second) * 64 + third) * 64 + low;
  }

  // A text is valid if and only if it is the encoding of scalar values, which are its runes.
  lemma {:induction false} EncodedIsValid(scalars: seq<Scalar>)
    ensures IsValid(EncodeAll(scalars)) && RuneCount(EncodeAll(scalars)) == |scalars|
    decreases |scalars|
  {
    hide SequenceLength, Encode;
    if scalars != [] {
      var rest := EncodeAll(scalars[1..]);
      EncodedIsSequence(scalars[0], rest);
      EncodedIsValid(scalars[1..]);
      EncodedIsSome(scalars[0]);
      assert EncodeAll(scalars)[|Encode(scalars[0])|..] == rest;
    }
  }

  lemma EncodedIsSome(c: Scalar)
    ensures Encode(c) != []
  {
  }

  lemma {:induction false} ValidIsEncoded(s: Bytes) returns (scalars: seq<Scalar>)
    requires IsValid(s)
    ensures EncodeAll(scalars) == s && |scalars| == RuneCount(s)
    decreases |s|
  {
    hide SequenceLength, Encode;
    scalars := [];
    if s != [] {
      var n := SequenceLength(s);
      SequenceFits(s);
      var c := SequenceIsEncoded(s);
      var rest := ValidIsEncoded(s[n..]);
      scalars := [c] + rest;
      assert scalars[1..] == rest;
      assert s == s[..n] + s[n..];
    }
  }

  lemma SequenceFits(s: Bytes)
    ensures SequenceLength(s) <= |s|
  {
  }

  // U+FFFD
  lemma ReplacementIsEncoded()
    ensures REPLACEMENT == Encode(0xFFFD)
  {
  }
}
