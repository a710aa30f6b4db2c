/**
  The protobuf wire format: varints, length-delimited fields, and fixed-width fields that
  are skipped. The functions say what a buffer means; the Writer and Reader classes are
  the cursor objects that produce and consume it.
 */
module Protobuf {
  import opened Bytes

  const WIRE_VARINT := 0
  const WIRE_I64 := 1
  const WIRE_BYTES := 2
  const WIRE_I32 := 5

  datatype Error = Truncated | VarintTooLong | UnsupportedWireType(wire: nat)

  datatype Field = Varint(field: U32, v: U64) | Bytes(field: U32, b: seq<U8>)

  // ------------------------------------------------------------- meaning of bytes ---

  function EncodeVarint(v: nat): (b: seq<U8>)
    ensures |b| >= 1
  {
    if v < 128 then [v] else [v % 128 + 128] + EncodeVarint(v / 128)
  }

  /** Little-endian groups of seven bits, at most `groups` of them; no truncation yet. */
  function VarintGroups(b: seq<U8>, groups: nat): (r: Result<(nat, seq<U8>), Error>)
    ensures r.Ok? ==> |r.value.1| < |b|
  {
    if b == [] then Err(Truncated)
    else if groups == 0 then Err(VarintTooLong)
    else if b[0] < 128 then Ok((b[0], b[1..]))
    else
      var (v, rest) :- VarintGroups(b[1..], groups - 1);
      Ok(((b[0] - 128) + 128 * v, rest))
  }

  /** Ten groups fill a `u64`; bits of the tenth past the top are shifted out. */
  function ReadVarint(b: seq<U8>): (r: Result<(U64, seq<U8>), Error>)
    ensures r.Ok? ==> |r.value.1| < |b|
  {
    var (v, rest) :- VarintGroups(b, 10);
    Ok((v % TWO_64, rest))
  }

  /** One step of the field reader. */
  datatype Next = End | Bad(error: Error) | Got(f: Field, rest: seq<U8>)

  /** How many bytes a wire type we never construct occupies. */
  function SkippedWidth(wire: nat): Option<nat> {
    if wire == WIRE_I64 then Some(8) else if wire == WIRE_I32 then Some(4) else None
  }

  function VarintBody(field: U32, b: seq<U8>): (n: Next)
    ensures n.Got? ==> |n.rest| < |b|
    ensures !n.End?
  {
    match ReadVarint(b)
    case Err(e) => Bad(e)
    case Ok((v, rest)) => Got(Varint(field, v), rest)
  }

  function BytesBody(field: U32, b: seq<U8>): (n: Next)
    ensures n.Got? ==> |n.rest| < |b|
    ensures !n.End?
  {
    match ReadVarint(b)
    case Err(e) => Bad(e)
    case Ok((len, rest)) =>
      if len > |rest| then Bad(Truncated) else Got(Bytes(field, rest[..len]), rest[len..])
  }

  function TagField(tag: U64): U32 { tag / 8 % TWO_32 }

  function TagWire(tag: U64): nat { tag % 8 }

  function NextField(b: seq<U8>): (n: Next)
    ensures n.Got? ==> |n.rest| < |b|
    decreases |b|
  {
    if b == [] then End
    else match ReadVarint(b)
      case Err(e) => Bad(e)
      case Ok((tag, rest)) => FieldBody(tag, rest)
  }

  function FieldBody(tag: U64, rest: seq<U8>): (n: Next)
    ensures n.Got? ==> |n.rest| < |rest|
    decreases |rest|, 1
  {
    var wire := TagWire(tag);
    if wire == WIRE_VARINT then VarintBody(TagField(tag), rest)
    else if wire == WIRE_BYTES then BytesBody(TagField(tag), rest)
    else
      match SkippedWidth(wire)
      case None => Bad(UnsupportedWireType(wire))
      case Some(w) => if |rest| < w then Bad(Truncated) else NextField(rest[w..])
  }

  function Tag(field: U32, wire: nat): (t: U64)
    requires wire < 8
    ensures TagField(t) == field && TagWire(t) == wire
  {
    field * 8 + wire
  }

  /** Every modelled field of a message, or the first error. */
  function Fields(b: seq<U8>): Result<seq<Field>, Error>
    decreases |b|
  {
    match NextField(b)
    case End => Ok([])
    case Bad(e) => Err(e)
    case Got(f, rest) =>
      var fs :- Fields(rest);
      Ok([f] + fs)
  }

  function LastBytes(fs: seq<Field>, n: U32): Option<seq<U8>> {
    if fs == [] then None
    else if fs[|fs| - 1].Bytes? && fs[|fs| - 1].field == n then Some(fs[|fs| - 1].b)
    else LastBytes(fs[..|fs| - 1], n)
  }

  function LastVarint(fs: seq<Field>, n: U32): Option<U64> {
    if fs == [] then None
    else if fs[|fs| - 1].Varint? && fs[|fs| - 1].field == n then Some(fs[|fs| - 1].v)
    else LastVarint(fs[..|fs| - 1], n)
  }

  /** `first_bytes`: despite the name, the last occurrence wins. */
  function FirstBytes(b: seq<U8>, n: U32): Result<Option<seq<U8>>, Error> {
    var fs :- Fields(b);
    Ok(LastBytes(fs, n))
  }

  function FirstVarint(b: seq<U8>, n: U32): Result<Option<U64>, Error> {
    var fs :- Fields(b);
    Ok(LastVarint(fs, n))
  }

  function EncodeField(f: Field): (b: seq<U8>)
    ensures |b| >= 2
  {
    match f
    case Varint(n, v) => EncodeVarint(Tag(n, WIRE_VARINT)) + EncodeVarint(v)
    case Bytes(n, d) => EncodeVarint(Tag(n, WIRE_BYTES)) + EncodeVarint(|d|) + d
  }

  function Encode(fs: seq<Field>): seq<U8> {
    if fs == [] then [] else EncodeField(fs[0]) + Encode(fs[1..])
  }

  // -------------------------------------------------------------------- round trip ---

  function Pow128(n: nat): nat {
    if n == 0 then 1 else 128 * Pow128(n - 1)
  }

  lemma {:induction false} VarintRoundTrip(v: nat, rest: seq<U8>, groups: nat)
    requires groups >= 1 && v < Pow128(groups)
    ensures VarintGroups(EncodeVarint(v) + rest, groups) == Ok((v, rest))
    ensures |EncodeVarint(v)| <= groups
  {
    var b := EncodeVarint(v) + rest;
    if v < 128 {
      assert b[1..] == rest;
    } else {
      assert groups >= 2;
      VarintRoundTrip(v / 128, rest, groups - 1);
      assert b[1..] == EncodeVarint(v / 128) + rest;
    }
  }

  /** Every `u64` reads back from at most ten bytes. */
  lemma ReadVarintRoundTrip(v: U64, rest: seq<U8>)
    ensures ReadVarint(EncodeVarint(v) + rest) == Ok((v, rest))
    ensures |EncodeVarint(v)| <= 10
  {
    hide Pow128, VarintGroups, EncodeVarint;
    Pow128Ten();
    VarintRoundTrip(v, rest, 10);
  }

  lemma Pow128Ten()
    ensures Pow128(10) == 64 * TWO_64
  {
    assert Pow128(5) == 128 * (128 * (128 * (128 * (128 * Pow128(0)))));
    assert Pow128(10) == 128 * (128 * (128 * (128 * (128 * Pow128(5)))));
  }

  predicate Fits(f: Field) { f.Bytes? ==> |f.b| < TWO_64 }

  lemma FieldRoundTrip(f: Field, rest: seq<U8>)
    requires Fits(f)
    ensures NextField(EncodeField(f) + rest) == Got(f, rest)
  {
    match f
    case Varint(n, v) =>
      var tail := EncodeVarint(v) + rest;
      assert EncodeField(f) + rest == EncodeVarint(Tag(n, WIRE_VARINT)) + tail;
      ReadVarintRoundTrip(Tag(n, WIRE_VARINT), tail);
      ReadVarintRoundTrip(v, rest);
    case Bytes(n, d) =>
      var tail := EncodeVarint(|d|) + (d + rest);
      assert EncodeField(f) + rest == EncodeVarint(Tag(n, WIRE_BYTES)) + tail;
      ReadVarintRoundTrip(Tag(n, WIRE_BYTES), tail);
      ReadVarintRoundTrip(|d|, d + rest);
      Slices(d, rest);
  }

  /** A field the reader must step over: a tag of a fixed-width wire type and its body. */
  datatype Item = Known(f: Field) | Fixed64(field: U32, body: seq<U8>) | Fixed32(field: U32, body: seq<U8>)

  predicate WellFormed(i: Item) {
    match i
    case Known(f) => Fits(f)
    case Fixed64(_, body) => |body| == 8
    case Fixed32(_, body) => |body| == 4
  }

  function EncodeItem(i: Item): seq<U8> {
    match i
    case Known(f) => EncodeField(f)
    case Fixed64(n, body) => EncodeVarint(Tag(n, WIRE_I64)) + body
    case Fixed32(n, body) => EncodeVarint(Tag(n, WIRE_I32)) + body
  }

  function EncodeItems(items: seq<Item>): seq<U8> {
    if items == [] then [] else EncodeItem(items[0]) + EncodeItems(items[1..])
  }

  function KnownFields(items: seq<Item>): seq<Field> {
    if items == [] then []
    else (if items[0].Known? then [items[0].f] else []) + KnownFields(items[1..])
  }

  lemma SkipFixed(i: Item, rest: seq<U8>)
    requires WellFormed(i) && !i.Known?
    ensures NextField(EncodeItem(i) + rest) == NextField(rest)
  {
    var wire := if i.Fixed64? then WIRE_I64 else WIRE_I32;
    assert EncodeItem(i) + rest == EncodeVarint(Tag(i.field, wire)) + (i.body + rest);
    ReadVarintRoundTrip(Tag(i.field, wire), i.body + rest);
    Slices(i.body, rest);
  }

  /** Any mix of written fields and skipped ones reads back as exactly the written ones. */
  lemma {:induction false} ItemsRoundTrip(items: seq<Item>)
    requires forall i :: 0 <= i < |items| ==> WellFormed(items[i])
    ensures Fields(EncodeItems(items)) == Ok(KnownFields(items))
  {
    if items != [] {
      var rest := EncodeItems(items[1..]);
      ItemsRoundTrip(items[1..]);
      if items[0].Known? {
        FieldRoundTrip(items[0].f, rest);
      } else {
        SkipFixed(items[0], rest);
        SameNextSameFields(EncodeItem(items[0]) + rest, rest);
        assert [] + KnownFields(items[1..]) == KnownFields(items[1..]);
      }
    }
  }

  lemma SameNextSameFields(a: seq<U8>, b: seq<U8>)
    requires NextField(a) == NextField(b)
    ensures Fields(a) == Fields(b)
  {
  }

  lemma {:induction false} FieldsAreItems(fs: seq<Field>)
    ensures EncodeItems(seq(|fs|, i requires 0 <= i < |fs| => Known(fs[i]))) == Encode(fs)
    ensures KnownFields(seq(|fs|, i requires 0 <= i < |fs| => Known(fs[i]))) == fs
  {
    if fs != [] {
      var items := seq(|fs|, i requires 0 <= i < |fs| => Known(fs[i]));
      var t := fs[1..];
      assert items[1..] == seq(|t|, i requires 0 <= i < |t| => Known(t[i]));
      FieldsAreItems(t);
    }
  }

  lemma {:induction false} PartsShorter(fs: seq<Field>, k: nat)
    requires k < |fs| && fs[k].Bytes?
    ensures |fs[k].b| < |Encode(fs)|
  {
    if k > 0 {
      PartsShorter(fs[1..], k - 1);
    }
  }

  /**
    The reader returns exactly what the writer wrote. The one hypothesis is that the message
    is shorter than 2^64 bytes, as anything in memory is.
   */
  lemma FieldsRoundTrip(fs: seq<Field>)
    requires |Encode(fs)| < TWO_64
    ensures Fields(Encode(fs)) == Ok(fs)
  {
    var items := seq(|fs|, i requires 0 <= i < |fs| => Known(fs[i]));
    forall i | 0 <= i < |items| ensures WellFormed(items[i]) {
      if fs[i].Bytes? {
        PartsShorter(fs, i);
      }
    }
    ItemsRoundTrip(items);
    FieldsAreItems(fs);
  }

  lemma FieldLength(f: Field)
    requires Fits(f)
    ensures |EncodeField(f)| <= 20 + if f.Bytes? then |f.b| else 0
  {
    match f
    case Varint(n, v) =>
      ReadVarintRoundTrip(Tag(n, WIRE_VARINT), []);
      ReadVarintRoundTrip(v, []);
    case Bytes(n, d) =>
      ReadVarintRoundTrip(Tag(n, WIRE_BYTES), []);
      ReadVarintRoundTrip(|d|, []);
  }

  /** Part-way through a varint: `out` so far, `scale` the weight of the groups still `left`. */
  ghost predicate PartlyRead(all: seq<U8>, left: seq<U8>, groups: nat, out: nat, scale: nat) {
    match VarintGroups(left, groups)
    case Ok((v, rest)) => VarintGroups(all, 10) == Ok((out + scale * v, rest))
    case Err(e) => VarintGroups(all, 10) == Err(e)
  }

  lemma PartlyReadStep(all: seq<U8>, left: seq<U8>, groups: nat, out: nat, scale: nat)
    requires PartlyRead(all, left, groups, out, scale)
    requires left != [] && groups > 0 && left[0] >= 128
    ensures PartlyRead(all, left[1..], groups - 1, out + (left[0] - 128) * scale, scale * 128)
  {
    var next := VarintGroups(left[1..], groups - 1);
    if next.Ok? {
      var g, v := left[0] - 128, next.value.0;
      assert out + g * scale + scale * 128 * v == out + scale * (g + 128 * v);
    }
  }

  lemma PartlyReadLast(all: seq<U8>, left: seq<U8>, groups: nat, out: nat, scale: nat)
    requires PartlyRead(all, left, groups, out, scale)
    requires left != [] && groups > 0 && left[0] < 128
    ensures ReadVarint(all) == Ok(((out + left[0] * scale) % TWO_64, left[1..]))
  {
  }

  // --------------------------------------------------------------- cursor objects ---

  class Writer {
    var buf: seq<U8>

    constructor ()
      ensures buf == []
    {
      buf := [];
    }

    method PutVarint(v: U64)
      modifies this
      ensures buf == old(buf) + EncodeVarint(v)
    {
      var left: U64 := v;
      while left >= 0x80
        invariant buf + EncodeVarint(left) == old(buf) + EncodeVarint(v)
      {
        buf := buf + [left % 0x80 + 0x80];
        left := left / 0x80;
      }
      buf := buf + [left];
    }

    method PutTag(field: U32, wire: nat)
      requires wire < 8
      modifies this
      ensures buf == old(buf) + EncodeVarint(Tag(field, wire))
    {
      PutVarint(Tag(field, wire));
    }

    method PutVarintField(field: U32, v: U64)
      modifies this
      ensures buf == old(buf) + EncodeField(Varint(field, v))
    {
      PutTag(field, WIRE_VARINT);
      PutVarint(v);
      Associate(old(buf), EncodeVarint(Tag(field, WIRE_VARINT)), EncodeVarint(v));
    }

    method PutBytesField(field: U32, v: seq<U8>)
      requires |v| < TWO_64
      modifies this
      ensures buf == old(buf) + EncodeField(Bytes(field, v))
    {
      PutTag(field, WIRE_BYTES);
      PutVarint(|v|);
      buf := buf + v;
      Associate(old(buf), EncodeVarint(Tag(field, WIRE_BYTES)), EncodeVarint(|v|));
      Associate(old(buf), EncodeVarint(Tag(field, WIRE_BYTES)) + EncodeVarint(|v|), v);
    }

    method Put(f: Field)
      requires Fits(f)
      modifies this
      ensures buf == old(buf) + EncodeField(f)
    {
      match f
      case Varint(n, v) => PutVarintField(n, v);
      case Bytes(n, d) => PutBytesField(n, d);
    }
  }

  class Reader {
    const buf: seq<U8>
    var pos: nat

    ghost predicate Valid()
      reads this
    {
      pos <= |buf|
    }

    ghost function Left(): seq<U8>
      requires Valid()
      reads this
    {
      buf[pos..]
    }

    constructor (b: seq<U8>)
      ensures Valid() && buf == b && pos == 0
    {
      buf := b;
      pos := 0;
    }

    /** Seven bits at a time; `scale` is the weight `1 << shift` of the next group. */
    method ReadVarintField() returns (r: Result<U64, Error>)
      requires Valid()
      modifies this
      ensures Valid() && pos >= old(pos)
      ensures match ReadVarint(old(Left()))
        case Ok((v, rest)) => r == Ok(v) && Left() == rest
        case Err(e) => r == Err(e)
    {
      var out: nat := 0;
      var shift := 0;
      var scale: nat := 1;
      ghost var all := Left();
      ghost var groups: nat := 10;
      while true
        invariant Valid() && pos >= old(pos)
        invariant groups <= 10 && shift == 7 * (10 - groups)
        invariant PartlyRead(all, Left(), groups, out, scale)
        decreases |buf| - pos
      {
        if pos >= |buf| {
          return Err(Truncated);
        }
        if shift > 63 {
          return Err(VarintTooLong);
        }
        var b: int := buf[pos];
        ghost var left := Left();
        pos := pos + 1;
        assert Left() == left[1..];
        if b < 0x80 {
          PartlyReadLast(all, left, groups, out, scale);
          return Ok((out + b * scale) % TWO_64);
        }
        PartlyReadStep(all, left, groups, out, scale);
        out := out + (b - 0x80) * scale;
        shift := shift + 7;
        scale := scale * 0x80;
        groups := groups - 1;
      }
    }

    method Take(n: nat) returns (r: Result<seq<U8>, Error>)
      requires Valid()
      modifies this
      ensures Valid() && pos >= old(pos)
      ensures if n > |old(Left())| then r == Err(Truncated) && pos == old(pos)
        else r == Ok(old(Left())[..n]) && Left() == old(Left())[n..]
    {
      var end := pos + n;
      if end > |buf| {
        return Err(Truncated);
      }
      r := Ok(buf[pos..end]);
      assert buf[pos..][..n] == buf[pos..end] && buf[pos..][n..] == buf[end..];
      pos := end;
    }

    /** The next field, `None` at the end. Fixed-width fields are stepped over. */
    method Next() returns (r: Option<Result<Field, Error>>)
      requires Valid()
      modifies this
      ensures Valid() && pos >= old(pos)
      ensures match NextField(old(Left()))
        case End => r == None
        case Bad(e) => r == Some(Err(e))
        case Got(f, rest) => r == Some(Ok(f)) && Left() == rest && pos > old(pos)
      decreases |buf| - pos
    {
      if pos >= |buf| {
        return None;
      }
      ghost var start, all := pos, Left();
      var tag := ReadVarintField();
      if tag.Err? {
        return Some(Err(tag.error));
      }
      assert pos > start;
      ghost var rest := Left();
      assert NextField(all) == FieldBody(tag.value, rest);
      var field := TagField(tag.value);
      var wire := TagWire(tag.value);
      if wire == WIRE_VARINT {
        assert NextField(all) == VarintBody(field, rest);
        var v := ReadVarintField();
        return Some(if v.Ok? then Ok(Varint(field, v.value)) else Err(v.error));
      }
      if wire == WIRE_BYTES {
        assert NextField(all) == BytesBody(field, rest);
        var len := ReadVarintField();
        if len.Err? {
          return Some(Err(len.error));
        }
        var b := Take(len.value);
        return Some(if b.Ok? then Ok(Bytes(field, b.value)) else Err(b.error));
      }
      var width := SkippedWidth(wire);
      if width.None? {
        return Some(Err(UnsupportedWireType(wire)));
      }
      var skipped := Take(width.value);
      if skipped.Err? {
        return Some(Err(skipped.error));
      }
      r := Next();
    }
  }

  /** Reading the whole buffer is what has been read already, followed by reading what is left. */
  ghost predicate ReadSoFar(buf: seq<U8>, seen: seq<Field>, left: seq<U8>) {
    match Fields(left)
    case Ok(fs) => Fields(buf) == Ok(seen + fs)
    case Err(e) => Fields(buf) == Err(e)
  }

  lemma NothingRead(buf: seq<U8>, n: U32)
    ensures ReadSoFar(buf, [], buf) && buf[0..] == buf && LastBytes([], n) == None && LastVarint([], n) == None
  {
    assert Fields(buf).Ok? ==> [] + Fields(buf).value == Fields(buf).value;
  }

  lemma ReadNext(buf: seq<U8>, seen: seq<Field>, left: seq<U8>)
    requires ReadSoFar(buf, seen, left)
    ensures var next := NextField(left);
      && (next.End? ==> Fields(buf) == Ok(seen))
      && (next.Bad? ==> Fields(buf) == Err(next.error))
      && (next.Got? ==> ReadSoFar(buf, seen + [next.f], next.rest))
  {
    hide NextField;
    var next := NextField(left);
    if next.End? {
      assert seen + [] == seen;
    } else if next.Got? && Fields(next.rest).Ok? {
      Associate(seen, [next.f], Fields(next.rest).value);
    }
  }

  lemma LastSnoc(seen: seq<Field>, f: Field, n: U32)
    ensures LastBytes(seen + [f], n) == if f.Bytes? && f.field == n then Some(f.b) else LastBytes(seen, n)
    ensures LastVarint(seen + [f], n) == if f.Varint? && f.field == n then Some(f.v) else LastVarint(seen, n)
  {
    assert (seen + [f])[..|seen|] == seen;
  }

  /** The scanning loop of `first_bytes`, against its meaning. */
  method ScanBytes(buf: seq<U8>, field: U32) returns (r: Result<Option<seq<U8>>, Error>)
    ensures r == FirstBytes(buf, field)
  {
    hide Fields, NextField, LastBytes, ReadSoFar;
    var reader := new Reader(buf);
    var found: Option<seq<U8>> := None;
    ghost var seen: seq<Field> := [];
    NothingRead(buf, field);
    while true
      invariant reader.Valid() && reader.buf == buf
      invariant found == LastBytes(seen, field) && ReadSoFar(buf, seen, reader.Left())
      decreases |buf| - reader.pos
    {
      ReadNext(buf, seen, reader.Left());
      var f := reader.Next();
      if f.None? {
        return Ok(found);
      }
      if f.value.Err? {
        return Err(f.value.error);
      }
      var got := f.value.value;
      LastSnoc(seen, got, field);
      if got.Bytes? && got.field == field {
        found := Some(got.b);
      }
      seen := seen + [got];
    }
  }

  method ScanVarint(buf: seq<U8>, field: U32) returns (r: Result<Option<U64>, Error>)
    ensures r == FirstVarint(buf, field)
  {
    hide Fields, NextField, LastVarint, ReadSoFar;
    var reader := new Reader(buf);
    var found: Option<U64> := None;
    ghost var seen: seq<Field> := [];
    NothingRead(buf, field);
    while true
      invariant reader.Valid() && reader.buf == buf
      invariant found == LastVarint(seen, field) && ReadSoFar(buf, seen, reader.Left())
      decreases |buf| - reader.pos
    {
      ReadNext(buf, seen, reader.Left());
      var f := reader.Next();
      if f.None? {
        return Ok(found);
      }
      if f.value.Err? {
        return Err(f.value.error);
      }
      var got := f.value.value;
      LastSnoc(seen, got, field);
      if got.Varint? && got.field == field {
        found := Some(got.v);
      }
      seen := seen + [got];
    }
  }

  /** Skipped fields are invisible to the scans, and a repeated field reads as its last value. */
  lemma ScansSeeLastWrite(items: seq<Item>, n: U32)
    requires forall i :: 0 <= i < |items| ==> WellFormed(items[i])
    ensures FirstBytes(EncodeItems(items), n) == Ok(LastBytes(KnownFields(items), n))
    ensures FirstVarint(EncodeItems(items), n) == Ok(LastVarint(KnownFields(items), n))
  {
    ItemsRoundTrip(items);
  }

  ghost predicate LastAt(fs: seq<Field>, n: U32, k: nat)
    requires k < |fs|
  {
    && fs[k].Bytes? && fs[k].field == n
    && forall i :: k < i < |fs| ==> !(fs[i].Bytes? && fs[i].field == n)
  }

  /** What "last" means: the value at some index, with no later field of that kind and number. */
  lemma {:induction false} LastBytesIsLast(fs: seq<Field>, n: U32)
    ensures LastBytes(fs, n).None? <==> forall i :: 0 <= i < |fs| ==> !(fs[i].Bytes? && fs[i].field == n)
    ensures LastBytes(fs, n).Some? ==>
        exists k :: 0 <= k < |fs| && LastAt(fs, n, k) && fs[k].b == LastBytes(fs, n).value
  {
    if fs != [] {
      var last := |fs| - 1;
      LastBytesIsLast(fs[..last], n);
      if fs[last].Bytes? && fs[last].field == n {
        assert LastAt(fs, n, last);
      } else {
        assert forall k :: 0 <= k < last && LastAt(fs[..last], n, k) ==> LastAt(fs, n, k);
        assert forall i :: 0 <= i < last ==> fs[..last][i] == fs[i];
      }
    }
  }

  /** Which field a scan finds, when no two fields share a number. */
  ghost predicate Distinct(fs: seq<Field>) {
    forall i, j :: 0 <= i < j < |fs| ==> fs[i].field != fs[j].field
  }

  ghost predicate Absent(fs: seq<Field>, n: U32) {
    forall k :: 0 <= k < |fs| ==> fs[k].field != n
  }

  lemma {:induction false} Lookup(fs: seq<Field>)
    requires Distinct(fs)
    ensures forall k :: 0 <= k < |fs| && fs[k].Bytes? ==> LastBytes(fs, fs[k].field) == Some(fs[k].b)
    ensures forall k :: 0 <= k < |fs| && fs[k].Varint? ==> LastVarint(fs, fs[k].field) == Some(fs[k].v)
    ensures forall n: U32 :: Absent(fs, n) ==> LastBytes(fs, n) == None && LastVarint(fs, n) == None
  {
    if fs != [] {
      var init := fs[..|fs| - 1];
      Lookup(init);
      assert forall n: U32 :: Absent(fs, n) ==> Absent(init, n);
      assert forall k :: 0 <= k < |init| ==> init[k] == fs[k];
    }
  }

  /** A scan of a concatenation prefers the later part. */
  lemma {:induction false} LookupAppend(a: seq<Field>, b: seq<Field>)
    ensures forall n: U32 :: LastBytes(a + b, n) == if LastBytes(b, n).Some? then LastBytes(b, n) else LastBytes(a, n)
    ensures forall n: U32 :: LastVarint(a + b, n) == if LastVarint(b, n).Some? then LastVarint(b, n) else LastVarint(a, n)
  {
    if b == [] {
      assert a + b == a;
    } else {
      var init := b[..|b| - 1];
      LookupAppend(a, init);
      assert (a + b)[..|a + b| - 1] == a + init;
    }
  }
}
