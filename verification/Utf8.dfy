/** The text check of the parser against the definition of UTF-8 (section 3 of RFC 3629). */
module Utf8 {
  import opened ByteSeq
  import opened Proto

  /** A Unicode scalar value: no surrogate, nothing above 10FFFF. */
  type Scalar = c: int | 0 <= c < 0xD800 || 0xE000 <= c <= 0x10FFFF

  /** The four rows of the encoding table. */
  function Encode(c: Scalar): Bytes {
    if c < 0x80 then [c]
    else if c < 0x800 then [0xC0 + c / 0x40, 0x80 + c % 0x40]
    else if c < 0x1_0000 then [0xE0 + c / 0x1000, 0x80 + c / 0x40 % 0x40, 0x80 + c % 0x40]
    else [0xF0 + c / 0x4_0000, 0x80 + c / 0x1000 % 0x40, 0x80 + c / 0x40 % 0x40, 0x80 + c % 0x40]
  }

  function EncodeAll(text: seq<Scalar>): Bytes {
    if text == [] then [] else Encode(text[0]) + EncodeAll(text[1..])
  }

  /** The bytes a well-formed text may start with, in front of another one. */
  predicate Starts(b: Bytes) {
    match |b|
    case 1 => b[0] < 0x80
    case 2 => 0xC2 <= b[0] <= 0xDF && IsContinuation(b[1])
    case 3 =>
      && 0xE0 <= b[0] <= 0xEF && IsContinuation(b[1]) && IsContinuation(b[2])
      && (b[0] == 0xE0 ==> b[1] >= 0xA0) && (b[0] == 0xED ==> b[1] <= 0x9F)
    case 4 =>
      && 0xF0 <= b[0] <= 0xF4 && IsContinuation(b[1]) && IsContinuation(b[2]) && IsContinuation(b[3])
      && (b[0] == 0xF0 ==> b[1] >= 0x90) && (b[0] == 0xF4 ==> b[1] <= 0x8F)
    case _ => false
  }

  lemma ValidByParts(first: Bytes, rest: Bytes)
    requires Starts(first)
    ensures ValidUtf8(first + rest) == ValidUtf8(rest)
  {
    var bs := first + rest;
    assert bs[|first|..] == rest;
    assert bs[0] == first[0] && (|first| > 1 ==> bs[1] == first[1]);
    assert (|first| > 2 ==> bs[2] == first[2]) && (|first| > 3 ==> bs[3] == first[3]);
  }

  /** How many bytes the first character of a well-formed text takes. */
  function FirstLen(b: byte): nat { if b < 0x80 then 1 else if b <= 0xDF then 2 else if b <= 0xEF then 3 else 4 }

  lemma ValidStarts(bs: Bytes)
    requires bs != [] && ValidUtf8(bs)
    ensures |bs| >= FirstLen(bs[0]) && Starts(bs[..FirstLen(bs[0])])
  {
  }

  lemma EncodedStarts(c: Scalar)
    ensures Starts(Encode(c))
  {
  }

  /** An encoded character in front does not decide whether the rest is well formed. */
  lemma FirstIsValid(c: Scalar, rest: Bytes)
    ensures ValidUtf8(Encode(c) + rest) == ValidUtf8(rest)
  {
    EncodedStarts(c);
    ValidByParts(Encode(c), rest);
  }

  lemma {:induction false} EncodedIsValid(text: seq<Scalar>)
    ensures ValidUtf8(EncodeAll(text))
  {
    hide Encode, ValidUtf8;
    if text == [] {
      NothingIsValid();
    } else {
      EncodedIsValid(text[1..]);
      FirstIsValid(text[0], EncodeAll(text[1..]));
    }
  }

  lemma NothingIsValid()
    ensures ValidUtf8([])
  {
  }

  /** Every such start is an encoded character. */
  lemma Decode(b: Bytes) returns (c: Scalar)
    requires Starts(b)
    ensures Encode(c) == b
  {
    if |b| == 1 { c := b[0]; }
    else if |b| == 2 { c := DecodeTwo(b[0], b[1]); }
    else if |b| == 3 { c := DecodeThree(b[0], b[1], b[2]); }
    else { c := DecodeFour(b[0], b[1], b[2], b[3]); }
  }

  lemma DecodeTwo(b0: int, b1: int) returns (c: Scalar)
    requires 0xC2 <= b0 <= 0xDF && 0x80 <= b1 <= 0xBF
    ensures Encode(c) == [b0, b1]
  {
    c := (b0 - 0xC0) * 0x40 + (b1 - 0x80);
  }

  lemma DecodeThree(b0: int, b1: int, b2: int) returns (c: Scalar)
    requires 0xE0 <= b0 <= 0xEF && 0x80 <= b1 <= 0xBF && 0x80 <= b2 <= 0xBF
    requires (b0 == 0xE0 ==> b1 >= 0xA0) && (b0 == 0xED ==> b1 <= 0x9F)
    ensures Encode(c) == [b0, b1, b2]
  {
    c := (b0 - 0xE0) * 0x1000 + (b1 - 0x80) * 0x40 + (b2 - 0x80);
    assert c / 0x40 == (b0 - 0xE0) * 0x40 + (b1 - 0x80);
  }

  lemma DecodeFour(b0: int, b1: int, b2: int, b3: int) returns (c: Scalar)
    requires 0xF0 <= b0 <= 0xF4 && 0x80 <= b1 <= 0xBF && 0x80 <= b2 <= 0xBF && 0x80 <= b3 <= 0xBF
    requires (b0 == 0xF0 ==> b1 >= 0x90) && (b0 == 0xF4 ==> b1 <= 0x8F)
    ensures Encode(c) == [b0, b1, b2, b3]
  {
    c := (b0 - 0xF0) * 0x4_0000 + (b1 - 0x80) * 0x1000 + (b2 - 0x80) * 0x40 + (b3 - 0x80);
    assert c / 0x40 == (b0 - 0xF0) * 0x1000 + (b1 - 0x80) * 0x40 + (b2 - 0x80);
    assert c / 0x1000 == (b0 - 0xF0) * 0x40 + (b1 - 0x80);
  }

  lemma {:induction false} ValidIsEncoded(bs: Bytes) returns (text: seq<Scalar>)
    requires ValidUtf8(bs)
    ensures EncodeAll(text) == bs
    decreases |bs|
  {
    hide Encode, ValidUtf8;
    if bs == [] {
      text := [];
    } else {
      ValidStarts(bs);
      var n := FirstLen(bs[0]);
      var c := Decode(bs[..n]);
      var rest := bs[n..];
      assert bs == Encode(c) + rest;
      FirstIsValid(c, rest);
      var more := ValidIsEncoded(rest);
      text := [c] + more;
      assert text[1..] == more;
    }
  }

  /** The check accepts exactly the encodings of sequences of Unicode scalar values. */
  lemma Utf8Exactly(bs: Bytes)
    ensures ValidUtf8(bs) <==> exists text: seq<Scalar> :: EncodeAll(text) == bs
  {
    hide ValidUtf8, EncodeAll;
    if ValidUtf8(bs) {
      var text := ValidIsEncoded(bs);
    }
    if text: seq<Scalar> :| EncodeAll(text) == bs { EncodedIsValid(text); }
  }
}
