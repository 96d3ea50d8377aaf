/** Byte strings as Dafny strings whose characters lie below 256, and the two encodings used on them. */
module Bytes {

  predicate IsByte(c: char) { c as int < 256 }

  predicate IsBytes(s: string) {
    forall i :: 0 <= i < |s| ==> IsByte(s[i])
  }

  /** Rust's `is_ascii_control`. */
  predicate IsControl(c: char) { c as int < 32 || c as int == 127 }

  /** The printable ASCII range, blank included. */
  predicate IsPrintable(c: char) { ' ' <= c <= '~' }

  /** The printable ASCII range without the blank. */
  predicate IsGraphic(c: char) { '!' <= c <= '~' }

  predicate All(s: string, p: char -> bool) {
    forall i :: 0 <= i < |s| ==> p(s[i])
  }

  predicate Continues(s: string, i: nat, low: int, high: int) {
    i < |s| && low <= s[i] as int <= high
  }

  /** The number of bytes of the well-formed UTF-8 sequence at the front, 0 if there is none. */
  function Utf8Width(s: string): (n: nat)
    requires s != []
    ensures n <= |s|
  {
    var b := s[0] as int;
    if b < 0x80 then 1
    else if 0xC2 <= b <= 0xDF && Continues(s, 1, 0x80, 0xBF) then 2
    else if b == 0xE0 && Continues(s, 1, 0xA0, 0xBF) && Continues(s, 2, 0x80, 0xBF) then 3
    else if b == 0xED && Continues(s, 1, 0x80, 0x9F) && Continues(s, 2, 0x80, 0xBF) then 3
    else if 0xE1 <= b <= 0xEF && b != 0xED && Continues(s, 1, 0x80, 0xBF) && Continues(s, 2, 0x80, 0xBF) then 3
    else if b == 0xF0 && Continues(s, 1, 0x90, 0xBF) && Continues(s, 2, 0x80, 0xBF) && Continues(s, 3, 0x80, 0xBF)
    then 4
    else if b == 0xF4 && Continues(s, 1, 0x80, 0x8F) && Continues(s, 2, 0x80, 0xBF) && Continues(s, 3, 0x80, 0xBF)
    then 4
    else if 0xF1 <= b <= 0xF3 && Continues(s, 1, 0x80, 0xBF) && Continues(s, 2, 0x80, 0xBF) &&
            Continues(s, 3, 0x80, 0xBF)
    then 4
    else 0
  }

  /** What `from_utf8` accepts. */
  predicate IsUtf8(s: string)
    decreases |s|
  {
    s == [] || (Utf8Width(s) > 0 && IsUtf8(s[Utf8Width(s)..]))
  }

  // ----- What UTF-8 is -----

  /** A code point that is no surrogate. */
  predicate IsScalar(c: int) {
    0 <= c < 0xD800 || 0xE000 <= c <= 0x10FFFF
  }

  /** The encoding of a scalar value (section 3 of RFC 3629). */
  function Encode(c: int): (s: string)
    requires IsScalar(c)
    ensures 1 <= |s| <= 4
  {
    if c < 0x80 then [c as char]
    else if c < 0x800 then [(0xC0 + c / 64) as char, (0x80 + c % 64) as char]
    else if c < 0x10000 then [(0xE0 + c / 4096) as char, (0x80 + c / 64 % 64) as char, (0x80 + c % 64) as char]
    else
      [(0xF0 + c / 262144) as char, (0x80 + c / 4096 % 64) as char, (0x80 + c / 64 % 64) as char,
       (0x80 + c % 64) as char]
  }

  function EncodeAll(scalars: seq<int>): string
    requires forall i :: 0 <= i < |scalars| ==> IsScalar(scalars[i])
  {
    if scalars == [] then [] else Encode(scalars[0]) + EncodeAll(scalars[1..])
  }

  /** The encoding of a scalar value is taken off as a whole. */
  lemma EncodedWidth(c: int, rest: string)
    requires IsScalar(c)
    ensures Utf8Width(Encode(c) + rest) == |Encode(c)|
  {
    var s := Encode(c) + rest;
    assert forall i :: 0 <= i < |Encode(c)| ==> s[i] == Encode(c)[i];
  }

  lemma LastDigit(q: nat, r: nat)
    requires r < 64
    ensures (q * 64 + r) / 64 == q && (q * 64 + r) % 64 == r
  {
  }

  lemma Above(q: nat, r: nat)
    ensures r < 4096 ==> (q * 4096 + r) / 4096 == q
    ensures r < 262144 ==> (q * 262144 + r) / 262144 == q
  {
  }

  lemma Digits(x: nat, d1: nat, d2: nat, d3: nat)
    requires d1 < 64 && d2 < 64 && d3 < 64
    ensures var c := x * 262144 + d1 * 4096 + d2 * 64 + d3;
      c / 262144 == x && c / 4096 % 64 == d1 && c / 64 % 64 == d2 && c % 64 == d3
      && c / 4096 == x * 64 + d1 && c / 64 == x * 4096 + d1 * 64 + d2
  {
    LastDigit(x * 4096 + d1 * 64 + d2, d3);
    LastDigit(x * 64 + d1, d2);
    LastDigit(x, d1);
    Above(x * 64 + d1, d2 * 64 + d3);
    Above(x, d1 * 4096 + d2 * 64 + d3);
  }

  lemma TwoBytes(s: string) returns (c: int)
    requires s != [] && Utf8Width(s) == 2
    ensures IsScalar(c) && Encode(c) == s[..2]
  {
    var x, d := s[0] as int - 0xC0, s[1] as int - 0x80;
    c := x * 64 + d;
    Digits(0, 0, x, d);
  }

  lemma ThreeBytes(s: string) returns (c: int)
    requires s != [] && Utf8Width(s) == 3
    ensures IsScalar(c) && Encode(c) == s[..3]
  {
    var x, d1, d2 := s[0] as int - 0xE0, s[1] as int - 0x80, s[2] as int - 0x80;
    c := x * 4096 + d1 * 64 + d2;
    Digits(0, x, d1, d2);
  }

  lemma FourBytes(s: string) returns (c: int)
    requires s != [] && Utf8Width(s) == 4
    ensures IsScalar(c) && Encode(c) == s[..4]
  {
    var x, d1, d2, d3 := s[0] as int - 0xF0, s[1] as int - 0x80, s[2] as int - 0x80, s[3] as int - 0x80;
    c := x * 262144 + d1 * 4096 + d2 * 64 + d3;
    Digits(x, d1, d2, d3);
  }

  /** The scalar value whose encoding is at the front. */
  lemma FrontIsEncoded(s: string) returns (c: int)
    requires s != [] && Utf8Width(s) > 0
    ensures IsScalar(c) && Encode(c) == s[..Utf8Width(s)]
  {
    assert Utf8Width(s) == 1 ==> s[0] as int < 0x80;
    hide Continues;
    if Utf8Width(s) == 1 {
      c := s[0] as int;
    } else if Utf8Width(s) == 2 {
      c := TwoBytes(s);
    } else if Utf8Width(s) == 3 {
      c := ThreeBytes(s);
    } else {
      c := FourBytes(s);
    }
  }

  lemma {:induction false} Utf8IsEncoded(s: string) returns (scalars: seq<int>)
    requires IsUtf8(s)
    ensures (forall i :: 0 <= i < |scalars| ==> IsScalar(scalars[i])) && s == EncodeAll(scalars)
    decreases |s|
  {
    scalars := [];
    if s != [] {
      var n := Utf8Width(s);
      var c := FrontIsEncoded(s);
      var rest := Utf8IsEncoded(s[n..]);
      scalars := [c] + rest;
      assert scalars[1..] == rest && s == s[..n] + s[n..];
    }
  }

  lemma {:induction false} EncodedIsUtf8(scalars: seq<int>)
    requires forall i :: 0 <= i < |scalars| ==> IsScalar(scalars[i])
    ensures IsUtf8(EncodeAll(scalars))
  {
    hide Encode, Utf8Width;
    if scalars != [] {
      var first, rest := Encode(scalars[0]), EncodeAll(scalars[1..]);
      EncodedWidth(scalars[0], rest);
      EncodedIsUtf8(scalars[1..]);
      assert (first + rest)[|first|..] == rest;
    }
  }

  /** Well-formed byte strings are exactly the encodings of sequences of scalar values. */
  lemma Utf8Exactly(s: string)
    ensures IsUtf8(s) <==>
            exists scalars: seq<int> ::
              (forall i :: 0 <= i < |scalars| ==> IsScalar(scalars[i])) && s == EncodeAll(scalars)
  {
    hide IsUtf8, Encode;
    if IsUtf8(s) {
      var scalars := Utf8IsEncoded(s);
    }
    forall scalars: seq<int> | (forall i :: 0 <= i < |scalars| ==> IsScalar(scalars[i])) && s == EncodeAll(scalars)
      ensures IsUtf8(s)
    {
      EncodedIsUtf8(scalars);
    }
  }

  lemma {:induction false} AsciiIsUtf8(s: string)
    requires forall i :: 0 <= i < |s| ==> s[i] as int < 128
    ensures IsUtf8(s)
  {
    if s != [] {
      AsciiIsUtf8(s[1..]);
    }
  }

  function ByteAt(n: int): (c: char)
    requires 0 <= n < 256
    ensures c as int == n
  {
    n as char
  }

  /** `u32::to_be_bytes`. */
  function EncodeU32(n: nat): (s: string)
    requires n < 0x1_0000_0000
    ensures |s| == 4 && IsBytes(s)
  {
    [ByteAt(n / 0x100_0000), ByteAt(n / 0x1_0000 % 256), ByteAt(n / 256 % 256), ByteAt(n % 256)]
  }

  /** `u32::from_be_bytes`. */
  function DecodeU32(s: string): (n: nat)
    requires |s| == 4
    ensures IsBytes(s) ==> n < 0x1_0000_0000
  {
    s[0] as int * 0x100_0000 + s[1] as int * 0x1_0000 + s[2] as int * 256 + s[3] as int
  }

  lemma DecodeEncodeU32(n: nat)
    requires n < 0x1_0000_0000
    ensures DecodeU32(EncodeU32(n)) == n
  {
    var high := n / 256;
    var top := high / 256;
    assert n == 256 * high + n % 256 && high == 256 * top + high % 256 && top == 256 * (top / 256) + top % 256;
    assert n / 0x1_0000 == top && n / 0x100_0000 == top / 256;
  }

  lemma EncodeDecodeU32(s: string)
    requires |s| == 4 && IsBytes(s)
    ensures EncodeU32(DecodeU32(s)) == s
  {
    var n := DecodeU32(s);
    assert n / 0x100_0000 == s[0] as int;
    assert n / 0x1_0000 == s[0] as int * 256 + s[1] as int;
    assert n / 256 == (s[0] as int * 256 + s[1] as int) * 256 + s[2] as int;
  }
}
