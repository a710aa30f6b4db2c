/** The block-framed container around an archive: a streaming reader and the writer, with zlib as any inverse pair. */
module Framed {
  import opened Bytes

  const MAX_BLOCK := 8 * 1024 * 1024
  const BLOCK := 128 * 1024
  const STORED := 0x8000_0000

  datatype Zlib = Zlib(deflate: seq<U8> -> seq<U8>, inflate: seq<U8> -> Option<seq<U8>>)

  /** Inflating undoes deflating, and no block of ours deflates to nothing or past what a reader takes. */
  ghost predicate Sound(z: Zlib) {
    forall b: seq<U8> :: z.inflate(z.deflate(b)) == Some(b) && (|b| <= BLOCK ==> 0 < |z.deflate(b)| <= MAX_BLOCK)
  }

  /** What is decoded before the stream stops, and whether it stops on an error. */
  datatype Decoded = Decoded(data: seq<U8>, failed: bool)

  datatype Block = NoMore | Broken | Body(decoded: seq<U8>, rest: seq<U8>)

  /** A header cut short, a length of zero or a block cut short is the end; an oversized or undecodable block is an error. */
  function NextBlock(z: Zlib, s: seq<U8>): (b: Block)
    ensures b.Body? ==> |b.rest| < |s|
  {
    if |s| < 4 then NoMore
    else
      var header := FromBigEndian(s[..4]);
      var len := header % STORED;
      if len == 0 then NoMore
      else if len > MAX_BLOCK then Broken
      else if |s| < 4 + len then NoMore
      else if header >= STORED then Body(s[4..4 + len], s[4 + len..])
      else
        match z.inflate(s[4..4 + len])
        case None => Broken
        case Some(d) => Body(d, s[4 + len..])
  }

  /**
    A block by the number in its header: the top bit marks one kept as it is, the rest is its
    length, of at most 8 MiB. Where that is zero, or more than is left, the stream is at its end.
   */
  lemma BlockMeans(z: Zlib, header: nat, after: seq<U8>)
    requires header < 0x1_0000_0000
    ensures var len := header % 0x8000_0000; var b := NextBlock(z, BigEndian(header, 4) + after);
      && (b == NoMore <==> len == 0 || (len <= 8_388_608 && |after| < len))
      && (len > 8_388_608 ==> b == Broken)
      && (0 < len <= 8_388_608 && len <= |after| ==>
            b == if header >= 0x8000_0000 then Body(after[..len], after[len..])
                 else if z.inflate(after[..len]).Some? then Body(z.inflate(after[..len]).value, after[len..]) else Broken)
  {
    hide BigEndian, FromBigEndian;
    var s := BigEndian(header, 4) + after;
    Pow256Values();
    BigEndianRoundTrip(header, 4);
    assert s[..4] == BigEndian(header, 4);
    var len := header % 0x8000_0000;
    if len <= |after| {
      assert s[4..4 + len] == after[..len] && s[4 + len..] == after[len..];
    }
  }

  function Decode(z: Zlib, s: seq<U8>): Decoded
    decreases |s|
  {
    match NextBlock(z, s)
    case NoMore => Decoded([], false)
    case Broken => Decoded([], true)
    case Body(d, rest) => var more := Decode(z, rest); Decoded(d + more.data, more.failed)
  }

  // ----------------------------------------------------------------------- reading ---

  /** What one read of a source does: give at most this much, be interrupted, or fail. */
  datatype Whim = Give(n: nat) | Interrupt | Fail

  datatype Taken = Bytes(b: seq<U8>) | Interrupted | Failed

  datatype Fault = SourceFailed | BadBlock

  predicate Among(a: seq<Whim>, b: seq<Whim>) { forall w :: w in a ==> w in b }

  /** A source that does what it likes at each read, and gives something while anything is left once it has no more whims. */
  class Source {
    const data: seq<U8>
    var at: nat
    var whims: seq<Whim>

    ghost predicate Valid()
      reads this
    {
      at <= |data|
    }

    constructor (data: seq<U8>, whims: seq<Whim>)
      ensures Valid() && this.data == data && at == 0 && this.whims == whims
    {
      this.data := data;
      this.whims := whims;
      at := 0;
    }

    method Read(n: nat) returns (got: Taken)
      requires Valid()
      modifies this
      ensures Valid() && old(at) <= at && Among(whims, old(whims))
      ensures got.Bytes? ==> got.b == data[old(at)..at] && |got.b| <= n && (got.b == [] <==> n == 0 || old(at) == |data|)
      ensures !got.Bytes? ==> at == old(at)
      ensures got.Interrupted? ==> |whims| < |old(whims)|
      ensures got.Failed? ==> Fail in old(whims)
    {
      var take := if |data| - at < n then |data| - at else n;
      if whims != [] {
        var whim := whims[0];
        whims := whims[1..];
        match whim
        case Interrupt => return Interrupted;
        case Fail => return Failed;
        case Give(some) =>
          if 0 < some < take {
            take := some;
          }
      }
      got := Bytes(data[at..at + take]);
      at := at + take;
    }

    /** `read_full`: however the source splits or interrupts it, all that is asked or all that is left, unless the source fails. */
    method ReadFull(n: nat) returns (got: Option<seq<U8>>)
      requires Valid()
      modifies this
      ensures Valid() && old(at) <= at && Among(whims, old(whims))
      ensures got.Some? ==> got.value == data[old(at)..at] && |got.value| == if |data| - old(at) < n then |data| - old(at) else n
      ensures got.None? ==> Fail in old(whims)
    {
      var have: seq<U8> := [];
      while |have| < n
        invariant Valid() && old(at) <= at && have == data[old(at)..at] && |have| <= n && Among(whims, old(whims))
        decreases n - |have|, |whims|
      {
        var more := Read(n - |have|);
        match more
        case Interrupted => continue;
        case Failed => return None;
        case Bytes(b) =>
          if b == [] {
            break;
          }
          have := have + b;
      }
      got := Some(have);
    }
  }

  /** A part of what is left is a part of the whole. */
  lemma Within(data: seq<U8>, at: nat, i: nat, n: nat)
    requires at + i + n <= |data|
    ensures data[at..][i..i + n] == data[at + i..at + i + n] && data[at..][i + n..] == data[at + i + n..]
  {
  }

  class FramedReader {
    const z: Zlib
    const inner: Source
    var buf: seq<U8>
    var pos: nat
    var ended: bool

    ghost predicate Valid()
      reads this, inner
    {
      inner.Valid() && pos <= |buf|
    }

    /** Everything still to come out, and whether it ends in an error. */
    ghost function Left(): Decoded
      requires Valid()
      reads this, inner
    {
      var more := if ended then Decoded([], false) else Decode(z, inner.data[inner.at..]);
      Decoded(buf[pos..] + more.data, more.failed)
    }

    constructor (z: Zlib, inner: Source)
      requires inner.Valid()
      ensures Valid() && this.z == z && this.inner == inner && Left() == Decode(z, inner.data[inner.at..])
    {
      this.z := z;
      this.inner := inner;
      buf := [];
      pos := 0;
      ended := false;
      new;
      var more := Decode(z, inner.data[inner.at..]);
      assert [] + more.data == more.data;
    }

    /** `next_block`. What a source that fails part-way had given of the block is lost. */
    method Advance() returns (more: Result<bool, Fault>)
      requires Valid()
      modifies this, inner
      ensures Valid() && ended == old(ended) && Among(inner.whims, old(inner.whims))
      ensures more == Err(SourceFailed) ==> Fail in old(inner.whims)
      ensures more != Err(SourceFailed) ==> match NextBlock(z, old(inner.data[inner.at..]))
        case NoMore => more == Ok(false) && buf == old(buf) && pos == old(pos)
        case Broken => more == Err(BadBlock) && buf == old(buf) && pos == old(pos)
        case Body(d, rest) => more == Ok(true) && buf == d && pos == 0 && inner.data[inner.at..] == rest
    {
      hide FromBigEndian;
      ghost var start, s := inner.at, inner.data[inner.at..];
      var read := inner.ReadFull(4);
      if read.None? {
        return Err(SourceFailed);
      }
      var header := read.value;
      if |header| < 4 {
        return Ok(false);
      }
      Within(inner.data, start, 0, 4);
      var h := FromBigEndian(header);
      var len := h % STORED;
      if len == 0 {
        return Ok(false);
      }
      if len > MAX_BLOCK {
        return Err(BadBlock);
      }
      read := inner.ReadFull(len);
      if read.None? {
        return Err(SourceFailed);
      }
      var block := read.value;
      if |block| != len {
        return Ok(false);
      }
      Within(inner.data, start, 4, len);
      if h >= STORED {
        buf := block;
      } else {
        var d := z.inflate(block);
        if d.None? {
          return Err(BadBlock);
        }
        buf := d.value;
      }
      pos := 0;
      return Ok(true);
    }

    /** At most `n` bytes. Nothing, asked for something, is the end. */
    method Read(n: nat) returns (got: Result<seq<U8>, Fault>)
      requires Valid()
      modifies this, inner
      ensures Valid() && Among(inner.whims, old(inner.whims))
      ensures got.Ok? ==> |got.value| <= n && old(Left()) == Decoded(got.value + Left().data, Left().failed)
      ensures got == Ok([]) && n > 0 ==> Left() == Decoded([], false)
      ensures got == Err(BadBlock) ==> old(Left()) == Decoded([], true)
      ensures got == Err(SourceFailed) ==> Fail in old(inner.whims)
    {
      hide NextBlock, FromBigEndian;
      while pos >= |buf|
        invariant Valid() && Left() == old(Left()) && Among(inner.whims, old(inner.whims))
        decreases |inner.data| - inner.at
      {
        if ended {
          return Ok([]);
        }
        var more := Advance();
        if more.Err? {
          return Err(more.error);
        }
        if !more.value {
          ended := true;
          return Ok([]);
        }
      }
      var take := if |buf| - pos < n then |buf| - pos else n;
      got := Ok(buf[pos..pos + take]);
      assert buf[pos..] == buf[pos..pos + take] + buf[pos + take..];
      pos := pos + take;
    }
  }

  /**
    Read to the end with whatever buffer sizes; an unlisted size is one byte. What comes out is
    the whole decoding, and an error there is one in the stream; or the front of it, where the source failed.
   */
  method ReadAll(r: FramedReader, sizes: seq<nat>) returns (out: seq<U8>, fault: Option<Fault>)
    requires r.Valid() && forall k :: 0 <= k < |sizes| ==> sizes[k] > 0
    modifies r, r.inner
    ensures fault != Some(SourceFailed) ==> old(r.Left()) == Decoded(out, fault.Some?)
    ensures fault == Some(SourceFailed) ==> out <= old(r.Left()).data && Fail in old(r.inner.whims)
  {
    hide Decode, FramedReader.Left, FramedReader.Valid;
    out := [];
    var k := 0;
    ghost var whole := r.Left();
    NothingYet(whole);
    while true
      invariant r.Valid() && 0 <= k && Among(r.inner.whims, old(r.inner.whims))
      invariant whole == Decoded(out + r.Left().data, r.Left().failed)
      decreases |r.Left().data|
    {
      ghost var before := r.Left();
      var got := r.Read(if k < |sizes| then sizes[k] else 1);
      k := k + 1;
      match got
      case Err(SourceFailed) => return out, Some(SourceFailed);
      case Err(BadBlock) =>
        NothingMore(out);
        return out, Some(BadBlock);
      case Ok(piece) =>
        if piece == [] {
          NothingMore(out);
          return out, None;
        }
        Associate(out, piece, r.Left().data);
        out := out + piece;
    }
  }

  lemma NothingYet(d: Decoded)
    ensures d == Decoded([] + d.data, d.failed)
  {
  }

  lemma NothingMore(out: seq<U8>)
    ensures out + [] == out
  {
  }

  lemma NextTruncated(z: Zlib, s: seq<U8>, k: nat)
    requires k <= |s|
    ensures match NextBlock(z, s)
      case NoMore => NextBlock(z, s[..k]) == NoMore
      case Broken => !NextBlock(z, s[..k]).Body?
      case Body(d, rest) =>
        NextBlock(z, s[..k]) == if k < |s| - |rest| then NoMore else Body(d, rest[..k - (|s| - |rest|)])
  {
    if k >= 4 {
      assert s[..k][..4] == s[..4];
      var len := FromBigEndian(s[..4]) % STORED;
      if 0 < len <= MAX_BLOCK && k >= 4 + len {
        assert s[..k][4..4 + len] == s[4..4 + len];
        assert s[..k][4 + len..] == s[4 + len..][..k - (4 + len)];
      }
    }
  }

  /** A stream cut anywhere decodes to the front of what the whole decodes to, with no error of its own. */
  lemma {:induction false} TruncationPrefix(z: Zlib, s: seq<U8>, k: nat)
    requires k <= |s|
    ensures Decode(z, s[..k]).data <= Decode(z, s).data
    ensures Decode(z, s[..k]).failed ==> Decode(z, s).failed
    decreases |s|
  {
    hide NextBlock;
    NextTruncated(z, s, k);
    var b := NextBlock(z, s);
    if b.Body? && k >= |s| - |b.rest| {
      TruncationPrefix(z, b.rest, k - (|s| - |b.rest|));
    }
  }

  // ----------------------------------------------------------------------- writing ---

  function Frame(z: Zlib, b: seq<U8>): seq<U8> { BigEndian(|z.deflate(b)|, 4) + z.deflate(b) }

  /** The whole container: full blocks, then what is left over. */
  function Container(z: Zlib, data: seq<U8>): seq<U8>
    decreases |data|
  {
    if data == [] then []
    else if |data| <= BLOCK then Frame(z, data)
    else Frame(z, data[..BLOCK]) + Container(z, data[BLOCK..])
  }

  class FramedWriter {
    const z: Zlib
    var inner: seq<U8>
    var buf: seq<U8>

    /** So far `data` has been written: all but the tail is out, framed. */
    ghost predicate Wrote(data: seq<U8>)
      reads this
    {
      |buf| < BLOCK && forall more: seq<U8> {:trigger data + more} {:trigger buf + more} ::
        inner + Container(z, buf + more) == Container(z, data + more)
    }

    constructor (z: Zlib)
      ensures this.z == z && Wrote([])
    {
      this.z := z;
      inner := [];
      buf := [];
      new;
      forall more: seq<U8> ensures inner + Container(z, buf + more) == Container(z, [] + more) {
        assert [] + more == more && [] + Container(z, more) == Container(z, more);
      }
    }

    /** Refuses a block too large to frame, and leaves it where it was. */
    method Emit() returns (ok: bool)
      modifies this
      ensures ok == (old(buf) == [] || |z.deflate(old(buf))| < STORED)
      ensures buf == if ok then [] else old(buf)
      ensures inner == old(inner) + if old(buf) == [] || !ok then [] else Frame(z, old(buf))
    {
      if buf == [] {
        return true;
      }
      var block := z.deflate(buf);
      if |block| >= STORED {
        return false;
      }
      inner := inner + BigEndian(|block|, 4);
      inner := inner + block;
      buf := [];
      ok := true;
    }

    /** Room for the whole piece is there already. */
    method Push(piece: seq<U8>, ghost before: seq<U8>) returns (ok: bool)
      requires Wrote(before) && |buf| + |piece| <= BLOCK
      modifies this
      ensures ok ==> Wrote(before + piece)
      ensures Sound(z) ==> ok
    {
      hide Container, Frame;
      ghost var was, wasInner := buf, inner;
      buf := buf + piece;
      ghost var full := buf;
      ok := true;
      if |buf| == BLOCK {
        ok := Emit();
      }
      if ok {
        forall more: seq<U8> ensures inner + Container(z, buf + more) == Container(z, before + piece + more) {
          Associate(before, piece, more);
          Associate(was, piece, more);
          assert wasInner + Container(z, was + (piece + more)) == Container(z, before + (piece + more));
          if |full| == BLOCK {
            FullBlock(z, full, more);
            assert [] + more == more;
            Associate(wasInner, Frame(z, full), Container(z, more));
          }
        }
      }
    }

    /** As many bytes as were given, or the error of a block too large to frame. */
    method Write(data: seq<U8>, ghost before: seq<U8>) returns (n: Option<nat>)
      requires Wrote(before)
      modifies this
      ensures n.Some? ==> n.value == |data| && Wrote(before + data)
      ensures Sound(z) ==> n.Some?
    {
      hide Wrote, Sound;
      var i := 0;
      assert before + data[..0] == before;
      while i < |data|
        invariant i <= |data| && Wrote(before + data[..i])
      {
        RoomLeft(this, before + data[..i]);
        var space := BLOCK - |buf|;
        var take := if space < |data| - i then space else |data| - i;
        assert before + data[..i] + data[i..i + take] == before + data[..i + take];
        var ok := Push(data[i..i + take], before + data[..i]);
        if !ok {
          return None;
        }
        i := i + take;
      }
      assert data[..|data|] == data;
      n := Some(|data|);
    }

    method Finish(ghost data: seq<U8>) returns (out: Option<seq<U8>>)
      requires Wrote(data)
      modifies this
      ensures out.Some? ==> out.value == Container(z, data)
      ensures Sound(z) ==> out.Some?
    {
      assert inner + Container(z, buf + []) == Container(z, data + []);
      assert buf + [] == buf && data + [] == data;
      var ok := Emit();
      out := if ok then Some(inner) else None;
    }
  }

  lemma RoomLeft(w: FramedWriter, data: seq<U8>)
    requires w.Wrote(data)
    ensures |w.buf| < BLOCK
  {
  }

  lemma FullBlock(z: Zlib, full: seq<U8>, more: seq<U8>)
    requires |full| == BLOCK
    ensures Container(z, full + more) == Frame(z, full) + Container(z, more)
  {
    if more == [] {
      assert full + more == full;
    } else {
      Slices(full, more);
    }
  }

  lemma FrameRead(z: Zlib, b: seq<U8>, rest: seq<U8>)
    requires Sound(z) && 0 < |b| <= BLOCK
    ensures NextBlock(z, Frame(z, b) + rest) == Body(b, rest)
  {
    hide BigEndian, FromBigEndian, Pow256;
    var d := z.deflate(b);
    var head := BigEndian(|d|, 4);
    var s := Frame(z, b) + rest;
    assert z.inflate(d) == Some(b);
    Pow256Values();
    BigEndianRoundTrip(|d|, 4);
    assert s == head + (d + rest);
    Slices(head, d + rest);
    Slices(d, rest);
    assert s[4..4 + |d|] == (d + rest)[..|d|];
    assert s[4 + |d|..] == (d + rest)[|d|..];
  }

  /** What the writer made decodes, with no error, to what was written. */
  lemma {:induction false} ContainerRoundTrip(z: Zlib, data: seq<U8>)
    requires Sound(z)
    ensures Decode(z, Container(z, data)) == Decoded(data, false)
    decreases |data|
  {
    hide NextBlock, Frame;
    if data == [] {
      assert NextBlock(z, []).NoMore? by { Empty(z); }
    } else if |data| <= BLOCK {
      FrameRead(z, data, []);
      assert Frame(z, data) + [] == Frame(z, data);
      ContainerRoundTrip(z, []);
      assert data + [] == data;
    } else {
      FrameRead(z, data[..BLOCK], Container(z, data[BLOCK..]));
      ContainerRoundTrip(z, data[BLOCK..]);
      assert data[..BLOCK] + data[BLOCK..] == data;
    }
  }

  lemma Empty(z: Zlib)
    ensures NextBlock(z, []).NoMore?
  {
  }

  /** Written in any pieces and read back in any: the same bytes, whatever the pieces were, unless the source fails. */
  method ThroughBoth(z: Zlib, pieces: seq<seq<U8>>, whims: seq<Whim>, sizes: seq<nat>) returns (out: Option<seq<U8>>)
    requires forall k :: 0 <= k < |sizes| ==> sizes[k] > 0
    ensures Sound(z) && out.Some? ==> out.value == Flat(pieces)
    ensures Sound(z) && Fail !in whims ==> out.Some?
  {
    hide Sound, Container, Decode;
    var w := new FramedWriter(z);
    ghost var so: seq<U8> := [];
    for i := 0 to |pieces|
      invariant w.z == z && fresh(w) && w.Wrote(so) && so + Flat(pieces[i..]) == Flat(pieces)
    {
      assert pieces[i..][1..] == pieces[i + 1..];
      var n := w.Write(pieces[i], so);
      if n.None? {
        return None;
      }
      Associate(so, pieces[i], Flat(pieces[i + 1..]));
      so := so + pieces[i];
    }
    assert pieces[|pieces|..] == [] && so + [] == so;
    var container := w.Finish(so);
    if container.None? {
      return None;
    }
    if Sound(z) {
      ContainerRoundTrip(z, so);
    }
    var source := new Source(container.value, whims);
    assert container.value[0..] == container.value;
    var r := new FramedReader(z, source);
    var data, fault := ReadAll(r, sizes);
    out := if fault.Some? then None else Some(data);
  }

  function Flat(pieces: seq<seq<U8>>): seq<U8> { if pieces == [] then [] else pieces[0] + Flat(pieces[1..]) }
}
