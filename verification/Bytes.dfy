/** Machine integers, byte strings and the result types shared by every module. */
module Bytes {

  type U8 = x: int | 0 <= x < 0x100
  type U16 = x: int | 0 <= x < 0x1_0000
  type U32 = x: int | 0 <= x < 0x1_0000_0000
  type U64 = x: int | 0 <= x < 0x1_0000_0000_0000_0000
  type I32 = x: int | -0x8000_0000 <= x < 0x8000_0000
  type I64 = x: int | -0x8000_0000_0000_0000 <= x < 0x8000_0000_0000_0000

  const TWO_32 := 0x1_0000_0000
  const TWO_63 := 0x8000_0000_0000_0000
  const TWO_64 := 0x1_0000_0000_0000_0000

  datatype Option<+T> = None | Some(value: T) {
    predicate IsFailure() { None? }

    function PropagateFailure<U>(): Option<U>
      requires None?
    {
      None
    }

    function Extract(): T
      requires Some?
    {
      value
    }

    function GetOr(default: T): T {
      if Some? then value else default
    }
  }

  datatype Result<+T, +E> = Ok(value: T) | Err(error: E) {
    predicate IsFailure() { Err? }

    function PropagateFailure<U>(): Result<U, E>
      requires Err?
    {
      Err(error)
    }

    function Extract(): T
      requires Ok?
    {
      value
    }
  }

  /** Rust's `as u64` on a signed 64-bit value, and back. */
  function U64OfI64(v: I64): U64 {
    if v < 0 then v + TWO_64 else v
  }

  function I64OfU64(v: U64): I64 {
    if v >= TWO_63 then v - TWO_64 else v
  }

  /** `v as i64 as u64` on a signed 32-bit value: sign extension. */
  function U64OfI32(v: I32): U64 {
    if v < 0 then v + TWO_64 else v
  }

  /** `v as i64 as i32`: the low 32 bits, read as two's complement. */
  function I32OfU64(v: U64): I32 {
    var low := v % TWO_32;
    if low >= 0x8000_0000 then low - TWO_32 else low
  }

  lemma SignedRoundTrip(v: I64, w: I32)
    ensures I64OfU64(U64OfI64(v)) == v
    ensures I32OfU64(U64OfI32(w)) == w
  {
  }

  /** `to_be_bytes`, keeping the low `width` bytes. */
  function BigEndian(v: nat, width: nat): (b: seq<U8>)
    ensures |b| == width
  {
    if width == 0 then [] else BigEndian(v / 256, width - 1) + [v % 256]
  }

  function Pow256(n: nat): (p: nat)
    ensures p >= 1
  {
    if n == 0 then 1 else 256 * Pow256(n - 1)
  }

  /** A big-endian integer folded into a `u64`; bits shifted past the top are lost. */
  function FromBigEndian(b: seq<U8>): (v: U64) {
    if |b| == 0 then 0
    else (FromBigEndian(b[..|b| - 1]) * 256) % TWO_64 + b[|b| - 1]
  }

  lemma {:induction false} BigEndianRoundTrip(v: nat, width: nat)
    requires width <= 8 && v < Pow256(width)
    ensures FromBigEndian(BigEndian(v, width)) == v
  {
    if width > 0 {
      BigEndianRoundTrip(v / 256, width - 1);
      var b := BigEndian(v, width);
      assert b[..|b| - 1] == BigEndian(v / 256, width - 1);
      assert v / 256 < Pow256(7) by { Pow256Monotone(width - 1, 7); }
      assert Pow256(7) == 0x100_0000_0000_0000 by { Pow256Values(); }
    }
  }

  lemma {:induction false} Pow256Monotone(m: nat, n: nat)
    requires m <= n
    ensures Pow256(m) <= Pow256(n)
    decreases n
  {
    if m < n {
      Pow256Monotone(m, n - 1);
    }
  }

  lemma Pow256Values()
    ensures Pow256(1) == 0x100 && Pow256(2) == 0x1_0000 && Pow256(4) == 0x1_0000_0000
    ensures Pow256(7) == 0x100_0000_0000_0000 && Pow256(8) == TWO_64
  {
    assert Pow256(4) == 256 * (256 * (256 * (256 * Pow256(0))));
    assert Pow256(8) == 256 * (256 * (256 * (256 * Pow256(4))));
  }

  lemma Associate<T>(a: seq<T>, b: seq<T>, c: seq<T>)
    ensures (a + b) + c == a + (b + c)
  {
  }

  lemma Slices<T>(a: seq<T>, b: seq<T>)
    ensures (a + b)[..|a|] == a && (a + b)[|a|..] == b
  {
  }

  function Max(a: nat, b: nat): nat { if a < b then b else a }

  /** These bytes stand at this position. */
  predicate At(buf: seq<U8>, at: nat, b: seq<U8>) { at + |b| <= |buf| && buf[at..at + |b|] == b }

  lemma AtSplit(buf: seq<U8>, at: nat, a: seq<U8>, b: seq<U8>)
    requires At(buf, at, a + b)
    ensures At(buf, at, a) && At(buf, at + |a|, b)
  {
    Slices(a, b);
    assert buf[at..at + |a|] == (a + b)[..|a|];
    assert buf[at + |a|..at + |a| + |b|] == (a + b)[|a|..];
  }

  lemma WholeAt(buf: seq<U8>)
    ensures At(buf, 0, buf)
  {
  }
}
