/** HKDF as in RFC 5869, over any HMAC of 32-byte output, which may fail. */
module Hkdf {
  import opened Bytes

  const HASH_LEN := 32
  const MAX_OUTPUT_LEN := 255 * HASH_LEN

  /** One-shot HMAC: a key and data to a digest, unless the library reports an error. */
  type Hmac = (seq<U8>, seq<U8>) -> Option<seq<U8>>

  ghost predicate IsHmac(hmac: Hmac) {
    forall key: seq<U8>, data: seq<U8> :: hmac(key, data).Some? ==> |hmac(key, data).value| == HASH_LEN
  }

  function Extract(hmac: Hmac, salt: seq<U8>, ikm: seq<U8>): Option<seq<U8>> {
    hmac(if salt == [] then seq(HASH_LEN, _ => 0) else salt, ikm)
  }

  /** Section 2.2: no salt is 32 zero octets, and any other is itself. */
  lemma NoSaltIsZeros(hmac: Hmac, salt: seq<U8>, ikm: seq<U8>)
    ensures exists zeros: seq<U8> :: (
      |zeros| == 32 && (forall i :: 0 <= i < 32 ==> zeros[i] == 0) && Extract(hmac, [], ikm) == Extract(hmac, zeros, ikm))
    ensures salt != [] ==> Extract(hmac, salt, ikm) == hmac(salt, ikm)
  {
    var zeros: seq<U8> := seq(32, _ => 0);
    assert |zeros| == 32 && Extract(hmac, [], ikm) == Extract(hmac, zeros, ikm);
  }

  /** T(n) of section 2.3: T(0) is empty, and each block is keyed to the one before and its own number. */
  function T(hmac: Hmac, prk: seq<U8>, info: seq<U8>, n: nat): Option<seq<U8>>
    requires n <= 255
  {
    if n == 0 then Some([])
    else
      var before :- T(hmac, prk, info, n - 1);
      hmac(prk, before + info + [n])
  }

  /** T(1) to T(n), one after another, if HMAC fails for none of them. */
  function Stream(hmac: Hmac, prk: seq<U8>, info: seq<U8>, n: nat): Option<seq<U8>>
    requires n <= 255
  {
    if n == 0 then Some([])
    else
      var before :- Stream(hmac, prk, info, n - 1);
      var t :- T(hmac, prk, info, n);
      Some(before + t)
  }

  lemma {:induction false} StreamLength(hmac: Hmac, prk: seq<U8>, info: seq<U8>, n: nat)
    requires n <= 255 && IsHmac(hmac)
    ensures Stream(hmac, prk, info, n).Some? ==> |Stream(hmac, prk, info, n).value| == n * HASH_LEN
  {
    if n > 0 {
      StreamLength(hmac, prk, info, n - 1);
    }
  }

  lemma {:induction false} StreamPrefix(hmac: Hmac, prk: seq<U8>, info: seq<U8>, m: nat, n: nat)
    requires m <= n <= 255 && Stream(hmac, prk, info, n).Some?
    ensures Stream(hmac, prk, info, m).Some? && Stream(hmac, prk, info, m).value <= Stream(hmac, prk, info, n).value
    decreases n
  {
    if m < n {
      StreamPrefix(hmac, prk, info, m, n - 1);
    }
  }

  /** How many blocks hold `length` bytes. */
  function Blocks(length: nat): (n: nat)
    ensures length <= n * HASH_LEN < length + HASH_LEN
    ensures length <= MAX_OUTPUT_LEN ==> n <= 255
  {
    (length + HASH_LEN - 1) / HASH_LEN
  }

  /** The first `length` bytes of the blocks that hold them. */
  ghost function Okm(hmac: Hmac, prk: seq<U8>, info: seq<U8>, length: nat): Option<seq<U8>>
    requires IsHmac(hmac) && length <= MAX_OUTPUT_LEN
  {
    var s :- Stream(hmac, prk, info, Blocks(length));
    StreamLength(hmac, prk, info, Blocks(length));
    Some(s[..length])
  }

  /**
    The loop of `expand`: it fails when HMAC fails for a block it needs. Its counter is a byte
    and is stepped once more after its last use: `wrapped` says whether that stepped past 255.
   */
  method Expand(hmac: Hmac, prk: seq<U8>, info: seq<U8>, length: nat) returns (out: Option<seq<U8>>, wrapped: bool)
    requires IsHmac(hmac) && length <= MAX_OUTPUT_LEN
    ensures out == Okm(hmac, prk, info, length)
    ensures wrapped <==> out.Some? && length > 254 * HASH_LEN
  {
    hide IsHmac, T, Stream, Blocks;
    StreamStarts(hmac, prk, info);
    BlocksHold(length);
    var done: seq<U8> := [];
    wrapped := false;
    var t: seq<U8> := [];
    var counter: U8 := 1;
    ghost var n := 0;
    ghost var s: seq<U8> := [];
    while |done| < length
      invariant n <= Blocks(length) && |done| == (if n * HASH_LEN < length then n * HASH_LEN else length)
      invariant Stream(hmac, prk, info, n) == Some(s) && |s| == n * HASH_LEN && Some(t) == T(hmac, prk, info, n)
      invariant done == s[..|done|]
      invariant wrapped == (n == 255) && counter == (n + 1) % 256
      decreases length - |done|
    {
      StreamNext(hmac, prk, info, n);
      n := n + 1;
      var block := hmac(prk, t + info + [counter]);
      if block.None? {
        NoneBeyond(hmac, prk, info, n, Blocks(length));
        return None, false;
      }
      t := block.value;
      var take := if length - |done| < |t| then length - |done| else |t|;
      Longer(done, s, t, take);
      done := done + t[..take];
      s := s + t;
      wrapped := counter == 255;
      counter := (counter + 1) % 256;
    }
    out := Some(done);
  }

  lemma StreamStarts(hmac: Hmac, prk: seq<U8>, info: seq<U8>)
    ensures T(hmac, prk, info, 0) == Some([]) && Stream(hmac, prk, info, 0) == Some([])
  {
  }

  lemma BlocksHold(length: nat)
    ensures length <= Blocks(length) * HASH_LEN < length + HASH_LEN
    ensures length <= MAX_OUTPUT_LEN ==> Blocks(length) <= 255
  {
  }

  /** The block after the `n`th, and the stream with it. */
  lemma StreamNext(hmac: Hmac, prk: seq<U8>, info: seq<U8>, n: nat)
    requires n < 255 && IsHmac(hmac) && T(hmac, prk, info, n).Some? && Stream(hmac, prk, info, n).Some?
    ensures var block := hmac(prk, T(hmac, prk, info, n).value + info + [n + 1]);
      && T(hmac, prk, info, n + 1) == block
      && (block.None? ==> Stream(hmac, prk, info, n + 1).None?)
      && (block.Some? ==> |block.value| == HASH_LEN && Stream(hmac, prk, info, n + 1) == Some(Stream(hmac, prk, info, n).value + block.value))
  {
  }

  lemma Longer(done: seq<U8>, s: seq<U8>, t: seq<U8>, take: nat)
    requires done == s && take <= |t|
    ensures done + t[..take] == (s + t)[..|done| + take]
  {
  }

  lemma NoneBeyond(hmac: Hmac, prk: seq<U8>, info: seq<U8>, m: nat, n: nat)
    requires m <= n <= 255 && Stream(hmac, prk, info, m).None?
    ensures Stream(hmac, prk, info, n).None?
  {
    if Stream(hmac, prk, info, n).Some? {
      StreamPrefix(hmac, prk, info, m, n);
    }
  }

  method Derive(hmac: Hmac, ikm: seq<U8>, salt: seq<U8>, info: seq<U8>, length: nat) returns (out: Option<seq<U8>>)
    requires IsHmac(hmac) && length <= MAX_OUTPUT_LEN
    ensures out == match Extract(hmac, salt, ikm) case None => None case Some(prk) => Okm(hmac, prk, info, length)
  {
    var prk := Extract(hmac, salt, ikm);
    if prk.None? {
      return None;
    }
    var wrapped;
    out, wrapped := Expand(hmac, prk.value, info, length);
  }

  /** Where a longer output is given, so is a shorter one, and it is the front of it. */
  lemma ShorterIsPrefix(hmac: Hmac, prk: seq<U8>, info: seq<U8>, short: nat, long: nat)
    requires IsHmac(hmac) && short <= long <= MAX_OUTPUT_LEN && Okm(hmac, prk, info, long).Some?
    ensures Okm(hmac, prk, info, short).Some? && Okm(hmac, prk, info, short).value <= Okm(hmac, prk, info, long).value
  {
    StreamPrefix(hmac, prk, info, Blocks(short), Blocks(long));
    StreamLength(hmac, prk, info, Blocks(short));
    StreamLength(hmac, prk, info, Blocks(long));
    Fronts(Stream(hmac, prk, info, Blocks(short)).value, Stream(hmac, prk, info, Blocks(long)).value, short, long);
  }

  lemma Fronts(a: seq<U8>, b: seq<U8>, short: nat, long: nat)
    requires a <= b && short <= |a| && short <= long <= |b|
    ensures a[..short] <= b[..long]
  {
  }
}
