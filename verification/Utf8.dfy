/**
  Text encodings. A Rust `String` is a sequence of Unicode scalar values, which is what a
  Dafny `string` is; its bytes are its UTF-8 encoding.
 */
module Utf8 {
  import opened Bytes

  const REPLACEMENT: char := '\U{FFFD}'

  predicate Continuation(b: int) { 0x80 <= b < 0xC0 }

  /** The UTF-8 bytes of one scalar value. */
  function EncodeChar(c: char): (b: seq<U8>)
    ensures 1 <= |b| <= 4
  {
    var n := c as int;
    if n < 0x80 then [n]
    else if n < 0x800 then [0xC0 + n / 64, 0x80 + n % 64]
    else if n < 0x1_0000 then [0xE0 + n / 4096, 0x80 + n / 64 % 64, 0x80 + n % 64]
    else [0xF0 + n / 262144, 0x80 + n / 4096 % 64, 0x80 + n / 64 % 64, 0x80 + n % 64]
  }

  /** `as_bytes`. */
  function Encode(s: string): seq<U8> {
    if s == [] then [] else EncodeChar(s[0]) + Encode(s[1..])
  }

  /** What the front of a byte string holds: one scalar value, or a maximal ill-formed subpart. */
  datatype Chunk = Scalar(c: char, len: nat) | Invalid(len: nat)

  /** The byte at `i`, or 0 past the end, which continues nothing. */
  function ByteAt(b: seq<U8>, i: nat): int { if i < |b| then b[i] else 0 }

  /** The low six bits of a continuation byte. */
  function Low6(b: int): int { b - 0x80 }

  /** The second byte each lead byte of a longer sequence admits. */
  predicate SecondByte(lead: int, b: int) {
    match lead
    case 0xE0 => 0xA0 <= b < 0xC0
    case 0xED => 0x80 <= b < 0xA0
    case 0xF0 => 0x90 <= b < 0xC0
    case 0xF4 => 0x80 <= b < 0x90
    case _ => Continuation(b)
  }

  function Front(b: seq<U8>): (r: Chunk)
    requires b != []
    ensures 1 <= r.len <= |b|
  {
    var lead: int := b[0];
    if lead < 0x80 then Scalar(lead as char, 1)
    else if 0xC2 <= lead < 0xE0 then
      if !Continuation(ByteAt(b, 1)) then Invalid(1)
      else Scalar(((lead - 0xC0) * 64 + Low6(b[1])) as char, 2)
    else if 0xE0 <= lead < 0xF0 then
      if !SecondByte(lead, ByteAt(b, 1)) then Invalid(1)
      else if !Continuation(ByteAt(b, 2)) then Invalid(2)
      else Scalar(((lead - 0xE0) * 4096 + Low6(b[1]) * 64 + Low6(b[2])) as char, 3)
    else if 0xF0 <= lead < 0xF5 then
      if !SecondByte(lead, ByteAt(b, 1)) then Invalid(1)
      else if !Continuation(ByteAt(b, 2)) then Invalid(2)
      else if !Continuation(ByteAt(b, 3)) then Invalid(3)
      else Scalar(((lead - 0xF0) * 262144 + Low6(b[1]) * 4096 + Low6(b[2]) * 64 + Low6(b[3])) as char, 4)
    else Invalid(1)
  }

  /** `String::from_utf8_lossy`. */
  function Lossy(b: seq<U8>): string {
    if b == [] then []
    else
      var f := Front(b);
      [if f.Scalar? then f.c else REPLACEMENT] + Lossy(b[f.len..])
  }

  /** Whether `std::str::from_utf8` accepts. */
  predicate Valid(b: seq<U8>) {
    b == [] || (Front(b).Scalar? && Valid(b[Front(b).len..]))
  }

  /** Base-64 digits of a scalar value. */
  lemma Digits(n: nat)
    ensures n == (n / 64) * 64 + n % 64
    ensures n / 64 == (n / 4096) * 64 + n / 64 % 64
    ensures n / 4096 == (n / 262144) * 64 + n / 4096 % 64
  {
    assert n / 64 / 64 == n / 4096;
    assert n / 4096 / 64 == n / 262144;
  }

  lemma FrontOfEncode(c: char, rest: seq<U8>)
    ensures Front(EncodeChar(c) + rest) == Scalar(c, |EncodeChar(c)|)
  {
    var n := c as int;
    var e := EncodeChar(c);
    var b := e + rest;
    assert forall i :: 0 <= i < |e| ==> b[i] == e[i];
    Digits(n);
    if n < 0x80 {
      assert b[0] == n;
    } else if n < 0x800 {
      FrontTwo(b, n);
    } else if n < 0x1_0000 {
      FrontThree(b, n);
    } else {
      FrontFour(b, n);
    }
  }

  lemma FrontTwo(b: seq<U8>, n: nat)
    requires 0x80 <= n < 0x800 && |b| >= 2
    requires b[0] == 0xC0 + n / 64 && b[1] == 0x80 + n % 64
    ensures Front(b) == Scalar(n as char, 2)
  {
  }

  lemma FrontThree(b: seq<U8>, n: nat)
    requires 0x800 <= n < 0x1_0000 && !(0xD800 <= n < 0xE000) && |b| >= 3
    requires b[0] == 0xE0 + n / 4096 && b[1] == 0x80 + n / 64 % 64 && b[2] == 0x80 + n % 64
    ensures Front(b) == Scalar(n as char, 3)
  {
    Digits(n);
    var hi, mid, lo := n / 4096, n / 64 % 64, n % 64;
    assert n == hi * 4096 + mid * 64 + lo;
    assert SecondByte(b[0], b[1]);
  }

  lemma FrontFour(b: seq<U8>, n: nat)
    requires 0x1_0000 <= n < 0x11_0000 && |b| >= 4
    requires b[0] == 0xF0 + n / 262144 && b[1] == 0x80 + n / 4096 % 64
    requires b[2] == 0x80 + n / 64 % 64 && b[3] == 0x80 + n % 64
    ensures Front(b) == Scalar(n as char, 4)
  {
    Digits(n);
    var top, hi, mid, lo := n / 262144, n / 4096 % 64, n / 64 % 64, n % 64;
    assert n == top * 262144 + hi * 4096 + mid * 64 + lo;
    assert SecondByte(b[0], b[1]);
  }

  /** Valid text survives the lossy decoder unchanged. */
  lemma {:induction false} LossyRoundTrip(s: string)
    ensures Lossy(Encode(s)) == s
    ensures Valid(Encode(s))
  {
    if s != [] {
      FrontOfEncode(s[0], Encode(s[1..]));
      Slices(EncodeChar(s[0]), Encode(s[1..]));
      LossyRoundTrip(s[1..]);
    }
  }

  predicate Ascii(s: string) {
    forall i :: 0 <= i < |s| ==> s[i] as int < 0x80
  }

  lemma {:induction false} AsciiLength(s: string)
    requires Ascii(s)
    ensures |Encode(s)| == |s|
  {
    if s != [] {
      assert Ascii(s[1..]);
      AsciiLength(s[1..]);
    }
  }

  /** `encode_utf16`. */
  function Units(c: char): (u: seq<U16>)
    ensures 1 <= |u| <= 2
  {
    var n := c as int;
    if n < 0x1_0000 then [n]
    else [0xD800 + (n - 0x1_0000) / 1024, 0xDC00 + (n - 0x1_0000) % 1024]
  }

  function Encode16(s: string): seq<U16> {
    if s == [] then [] else Units(s[0]) + Encode16(s[1..])
  }

  predicate High(u: U16) { 0xD800 <= u < 0xDC00 }

  predicate Low(u: U16) { 0xDC00 <= u < 0xE000 }

  function Pair(high: int, low: int): char
    requires 0xD800 <= high < 0xDC00 <= low < 0xE000
  {
    (0x1_0000 + (high - 0xD800) * 1024 + (low - 0xDC00)) as char
  }

  /** `String::from_utf16_lossy`: an unpaired surrogate becomes U+FFFD. */
  function Lossy16(u: seq<U16>): string {
    if u == [] then []
    else if !High(u[0]) && !Low(u[0]) then [u[0] as char] + Lossy16(u[1..])
    else if High(u[0]) && |u| > 1 && Low(u[1]) then
      [Pair(u[0], u[1])] + Lossy16(u[2..])
    else [REPLACEMENT] + Lossy16(u[1..])
  }

  lemma {:induction false} Lossy16RoundTrip(s: string)
    ensures Lossy16(Encode16(s)) == s
  {
    if s != [] {
      var u := Units(s[0]);
      Slices(u, Encode16(s[1..]));
      Lossy16RoundTrip(s[1..]);
    }
  }

  /** At most two code units a character, and at most four bytes. */
  lemma {:induction false} EncodeBounds(s: string)
    ensures |s| <= |Encode(s)| <= 4 * |s|
    ensures |s| <= |Encode16(s)| <= 2 * |s|
    ensures |Encode(s)| <= 3 * |Encode16(s)|
  {
    if s != [] {
      EncodeBounds(s[1..]);
    }
  }

  /** The lossy decoders make no more of their input than it has. */
  lemma {:induction false} LossyShrinks(b: seq<U8>)
    ensures |Lossy(b)| <= |b|
    decreases |b|
  {
    hide Front;
    if b != [] {
      LossyShrinks(b[Front(b).len..]);
    }
  }

  lemma {:induction false} Lossy16Shrinks(u: seq<U16>)
    ensures |Encode16(Lossy16(u))| <= |u|
    decreases |u|
  {
    if u != [] {
      var s := Lossy16(u);
      if High(u[0]) && |u| > 1 && Low(u[1]) {
        assert s[1..] == Lossy16(u[2..]);
        Lossy16Shrinks(u[2..]);
      } else {
        assert s[1..] == Lossy16(u[1..]);
        Lossy16Shrinks(u[1..]);
      }
    }
  }
}
