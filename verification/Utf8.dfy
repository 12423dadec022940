/**
UTF-8 encoding of 32-bit characters, and decoding by sections 3 and 4 of RFC 3629.
Shifts and masks are written as division and remainder; where the code joins
disjoint bits the model adds.
*/
module Utf8 {
  import opened Wrappers

  /** A character as wchar_t holds it. */
  type Wide = c: int | 0 <= c < 0x1_0000_0000

  type Byte = b: int | 0 <= b < 0x100

  // -------------------------------------------------------------------- encoding

  /** The continuation byte with the six bits of `c` above the lowest `shift` values. */
  function Continuation(c: Wide, shift: nat): Byte
    requires shift == 1 || shift == 0x40 || shift == 0x1000
  {
    0x80 + c / shift % 0x40
  }

  /** The bytes for one character; anything beyond Unicode becomes U+FFFD. */
  function EncodeChar(c: Wide): (s: seq<Byte>)
    ensures 1 <= |s| <= 4
  {
    if c < 0x80 then [c]
    else if c < 0x800 then [0xC0 + c / 0x40, Continuation(c, 1)]
    else if c < 0x10000 then [0xE0 + c / 0x1000, Continuation(c, 0x40), Continuation(c, 1)]
    else if c <= 0x10FFFF then
      [0xF0 + c / 0x40000, Continuation(c, 0x1000), Continuation(c, 0x40), Continuation(c, 1)]
    else [0xEF, 0xBF, 0xBD]
  }

  function Encode(s: seq<Wide>): seq<Byte> {
    if s == [] then [] else EncodeChar(s[0]) + Encode(s[1..])
  }

  /** to_utf8() */
  method ToUtf8(s: seq<Wide>) returns (result: seq<Byte>)
    ensures result == Encode(s)
  {
    result := [];
    var i := 0;
    while i < |s|
      invariant 0 <= i <= |s| && result + Encode(s[i..]) == Encode(s)
    {
      assert s[i..][1..] == s[i + 1..];
      result := PushChar(result, s[i]);
      i := i + 1;
    }
    assert s[i..] == [];
  }

  /** The body of the loop: one to four bytes are pushed. */
  method PushChar(before: seq<Byte>, c: Wide) returns (result: seq<Byte>)
    ensures result == before + EncodeChar(c)
  {
    result := before;
    if c < 0x80 {
      result := result + [c];
    } else if c < 0x800 {
      result := result + [0xC0 + c / 0x40];
      result := result + [0x80 + c % 0x40];
    } else if c < 0x10000 {
      result := result + [0xE0 + c / 0x1000];
      result := result + [0x80 + c / 0x40 % 0x40];
      result := result + [0x80 + c % 0x40];
    } else if c <= 0x10FFFF {
      result := result + [0xF0 + c / 0x40000];
      result := result + [0x80 + c / 0x1000 % 0x40];
      result := result + [0x80 + c / 0x40 % 0x40];
      result := result + [0x80 + c % 0x40];
    } else {
      result := result + [0xEF, 0xBF, 0xBD];
    }
  }

  // -------------------------------------------------------------------- decoding

  predicate IsSurrogate(c: Wide) {
    0xD800 <= c <= 0xDFFF
  }

  /** A Unicode scalar value. */
  predicate IsScalar(c: Wide) {
    c <= 0x10FFFF && !IsSurrogate(c)
  }

  predicate IsTail(b: Byte) {
    0x80 <= b < 0xC0
  }

  /** What a byte holds besides its marker bits. */
  function Bits(b: int, marker: int): int {
    b - marker
  }

  datatype Decoded = Decoded(c: Wide, length: nat)

  /** The character that starts the bytes: in its shortest form, and no surrogate. */
  function DecodeFirst(s: seq<Byte>): (r: Option<Decoded>)
    ensures r.Some? ==> 0 < r.value.length <= |s|
  {
    if |s| == 0 then None
    else if s[0] < 0x80 then Some(Decoded(s[0], 1))
    else if 0xC2 <= s[0] <= 0xDF && |s| >= 2 && IsTail(s[1]) then
      Some(Decoded(Bits(s[0], 0xC0) * 0x40 + Bits(s[1], 0x80), 2))
    else if 0xE0 <= s[0] <= 0xEF && |s| >= 3 && IsTail(s[1]) && IsTail(s[2]) then
      var c := Bits(s[0], 0xE0) * 0x1000 + Bits(s[1], 0x80) * 0x40 + Bits(s[2], 0x80);
      if c >= 0x800 && !IsSurrogate(c) then Some(Decoded(c, 3)) else None
    else if 0xF0 <= s[0] <= 0xF4 && |s| >= 4 && IsTail(s[1]) && IsTail(s[2]) && IsTail(s[3]) then
      var c := Bits(s[0], 0xF0) * 0x40000 + Bits(s[1], 0x80) * 0x1000 + Bits(s[2], 0x80) * 0x40 + Bits(s[3], 0x80);
      if 0x10000 <= c <= 0x10FFFF then Some(Decoded(c, 4)) else None
    else None
  }

  function Decode(s: seq<Byte>): Option<seq<Wide>>
    decreases |s|
  {
    if s == [] then Some([])
    else
      var first := DecodeFirst(s);
      if first.None? then None
      else
        var rest := Decode(s[first.value.length..]);
        if rest.None? then None else Some([first.value.c] + rest.value)
  }

  // -------------------------------------------------------------------- round trip

  /** What a strict decoder makes of one encoded character: itself, U+FFFD, or nothing. */
  lemma {:induction false} FirstReads(c: Wide, rest: seq<Byte>)
    ensures DecodeFirst(EncodeChar(c) + rest)
            == if IsSurrogate(c) then None
               else Some(Decoded(if c <= 0x10FFFF then c else 0xFFFD, |EncodeChar(c)|))
  {
    var e := EncodeChar(c);
    assert forall i | 0 <= i < |e| :: (e + rest)[i] == e[i];
    assert c / 0x1000 == c / 0x40 / 0x40 && c / 0x40000 == c / 0x1000 / 0x40;
  }

  /** Decoding gives back the characters exactly if all of them are Unicode scalar values. */
  lemma {:induction false} RoundTrip(s: seq<Wide>)
    ensures Decode(Encode(s)) == Some(s) <==> forall i | 0 <= i < |s| :: IsScalar(s[i])
  {
    if s != [] {
      var first, rest := EncodeChar(s[0]), Encode(s[1..]);
      FirstReads(s[0], rest);
      assert (first + rest)[|first|..] == rest;
      RoundTrip(s[1..]);
      assert s == [s[0]] + s[1..];
      if IsScalar(s[0]) {
        assert Decode(Encode(s)) == Some(s) <==> Decode(rest) == Some(s[1..]);
        assert (forall i | 0 <= i < |s[1..]| :: IsScalar(s[1..][i])) <==> forall i | 1 <= i < |s| :: IsScalar(s[i]);
      }
    }
  }

  /** A character beyond Unicode reads as U+FFFD, a surrogate makes the text unreadable. */
  lemma {:induction false} OutsideUnicode(c: Wide, s: seq<Wide>)
    ensures c > 0x10FFFF ==> Encode([c] + s) == Encode([0xFFFD] + s)
    ensures IsSurrogate(c) ==> Decode(Encode([c] + s)) == None
  {
    assert ([c] + s)[1..] == s && ([0xFFFD] + s)[1..] == s;
    FirstReads(c, Encode(s));
  }

  /** Between one and four bytes for each character. */
  lemma {:induction false} EncodedLength(s: seq<Wide>)
    ensures |s| <= |Encode(s)| <= 4 * |s|
  {
    if s != [] {
      EncodedLength(s[1..]);
    }
  }

  /** Different texts have different encodings. */
  lemma {:induction false} EncodingIsInjective(s: seq<Wide>, t: seq<Wide>)
    requires forall i | 0 <= i < |s| :: IsScalar(s[i])
    requires forall i | 0 <= i < |t| :: IsScalar(t[i])
    requires Encode(s) == Encode(t)
    ensures s == t
  {
    RoundTrip(s);
    RoundTrip(t);
  }
}
