/**
  Length-prefixed framing: whole messages out of a byte stream. The functions say which
  frames a stream of bytes holds; the Decoder hands them out as bytes arrive.
 */
module Framing {
  import opened Bytes

  const LENGTH_PREFIX := 4
  const MAX_FRAME := 5 * 1024 * 1024

  datatype Error = Oversize(declared: nat)

  function Encode(payload: seq<U8>): (b: seq<U8>)
    ensures |b| == LENGTH_PREFIX + |payload|
  {
    BigEndian(|payload| % TWO_32, LENGTH_PREFIX) + payload
  }

  function EncodeAll(frames: seq<seq<U8>>): seq<U8> {
    if frames == [] then [] else Encode(frames[0]) + EncodeAll(frames[1..])
  }

  /** What one call of `next_frame` finds at the front of the buffered bytes. */
  datatype Front = NeedMore | Refused(declared: nat) | Frame(payload: seq<U8>, rest: seq<U8>)

  function FrontOf(b: seq<U8>): (r: Front)
    ensures r.Frame? ==> |r.rest| < |b|
  {
    if |b| < LENGTH_PREFIX then NeedMore
    else
      var len: nat := FromBigEndian(b[..LENGTH_PREFIX]);
      if len >= MAX_FRAME then Refused(len)
      else if |b| < LENGTH_PREFIX + len then NeedMore
      else Frame(b[LENGTH_PREFIX..LENGTH_PREFIX + len], b[LENGTH_PREFIX + len..])
  }

  /** Draining: every frame available, and the bytes left over. */
  function Drain(b: seq<U8>): (seq<seq<U8>>, seq<U8>)
    decreases |b|
  {
    match FrontOf(b)
    case NeedMore => ([], b)
    case Refused(_) => ([], b)
    case Frame(p, rest) =>
      var (ps, left) := Drain(rest);
      ([p] + ps, left)
  }

  lemma {:induction false} BigEndianOfPrefix(b: seq<U8>)
    requires |b| <= 7
    ensures FromBigEndian(b) < Pow256(|b|)
    ensures BigEndian(FromBigEndian(b), |b|) == b
  {
    if b != [] {
      var init := b[..|b| - 1];
      BigEndianOfPrefix(init);
      Pow256Monotone(|init|, 6);
      Pow256Values();
      assert Pow256(7) == 256 * Pow256(6);
      assert FromBigEndian(b) == FromBigEndian(init) * 256 + b[|b| - 1];
      assert FromBigEndian(b) / 256 == FromBigEndian(init);
      assert b == init + [b[|b| - 1]];
    }
  }

  /** A frame taken off the front is exactly the bytes it was encoded as. */
  lemma FrontIsEncoding(b: seq<U8>)
    requires FrontOf(b).Frame?
    ensures b == Encode(FrontOf(b).payload) + FrontOf(b).rest
    ensures |FrontOf(b).payload| < MAX_FRAME
  {
    hide BigEndian, FromBigEndian, Pow256;
    var prefix := b[..LENGTH_PREFIX];
    BigEndianOfPrefix(prefix);
    var p := FrontOf(b).payload;
    assert BigEndian(|p|, LENGTH_PREFIX) == prefix;
    assert b == prefix + p + FrontOf(b).rest;
  }

  lemma FrontRoundTrip(payload: seq<U8>, rest: seq<U8>)
    requires |payload| < MAX_FRAME
    ensures FrontOf(Encode(payload) + rest) == Frame(payload, rest)
  {
    hide BigEndian, FromBigEndian, Pow256;
    Pow256Values();
    BigEndianRoundTrip(|payload|, LENGTH_PREFIX);
    var prefix, b := BigEndian(|payload|, LENGTH_PREFIX), Encode(payload) + rest;
    Associate(prefix, payload, rest);
    Slices(prefix, payload + rest);
    Slices(payload, rest);
    assert b[LENGTH_PREFIX..LENGTH_PREFIX + |payload|] == b[LENGTH_PREFIX..][..|payload|];
    assert b[LENGTH_PREFIX + |payload|..] == b[LENGTH_PREFIX..][|payload|..];
  }

  /** Later bytes never change a verdict already reached. */
  lemma FrontStable(b: seq<U8>, more: seq<U8>)
    requires !FrontOf(b).NeedMore?
    ensures match FrontOf(b)
      case NeedMore => true
      case Refused(n) => FrontOf(b + more) == Refused(n)
      case Frame(p, rest) => FrontOf(b + more) == Frame(p, rest + more)
  {
    hide BigEndian, FromBigEndian, Pow256;
    assert (b + more)[..LENGTH_PREFIX] == b[..LENGTH_PREFIX];
    if FrontOf(b).Frame? {
      var end := LENGTH_PREFIX + |FrontOf(b).payload|;
      assert (b + more)[LENGTH_PREFIX..end] == b[LENGTH_PREFIX..end];
      assert (b + more)[end..] == b[end..] + more;
    }
  }

  lemma Glue(a: seq<U8>, b: seq<U8>, c: seq<U8>, rest: seq<U8>)
    requires b + c == rest
    ensures (a + b) + c == a + rest
  {
  }

  lemma EncodeAllCons(p: seq<U8>, ps: seq<seq<U8>>)
    ensures EncodeAll([p] + ps) == Encode(p) + EncodeAll(ps)
  {
    assert ([p] + ps)[1..] == ps;
  }

  lemma {:induction false} DrainConserves(b: seq<U8>)
    ensures EncodeAll(Drain(b).0) + Drain(b).1 == b
    decreases |b|
  {
    hide FrontOf, Encode;
    var f := FrontOf(b);
    if f.Frame? {
      FrontIsEncoding(b);
      DrainConserves(f.rest);
      var ps, left := Drain(f.rest).0, Drain(f.rest).1;
      EncodeAllCons(f.payload, ps);
      Glue(Encode(f.payload), EncodeAll(ps), left, f.rest);
    }
  }

  lemma {:induction false} DrainExhausts(b: seq<U8>)
    ensures !FrontOf(Drain(b).1).Frame?
    decreases |b|
  {
    hide FrontOf, Encode;
    if FrontOf(b).Frame? {
      DrainExhausts(FrontOf(b).rest);
    }
  }

  /** Draining as bytes arrive and draining once at the end give the same frames. */
  lemma {:induction false} DrainTwice(b: seq<U8>, more: seq<U8>)
    ensures Drain(b + more).0 == Drain(b).0 + Drain(Drain(b).1 + more).0
    ensures Drain(b + more).1 == Drain(Drain(b).1 + more).1
    decreases |b|
  {
    hide FrontOf, Encode;
    match FrontOf(b)
    case NeedMore =>
    case Refused(_) =>
    case Frame(p, rest) =>
      FrontStable(b, more);
      DrainTwice(rest, more);
  }

  function Join(pieces: seq<seq<U8>>): seq<U8> {
    if pieces == [] then [] else pieces[0] + Join(pieces[1..])
  }

  /** Frames handed out by a reader that drains after every arrival, starting from `held`. */
  function DrainEach(held: seq<U8>, pieces: seq<seq<U8>>): (seq<seq<U8>>, seq<U8>)
    decreases |pieces|
  {
    if pieces == [] then ([], held)
    else
      var (ps, left) := Drain(held + pieces[0]);
      var (qs, end) := DrainEach(left, pieces[1..]);
      (ps + qs, end)
  }

  lemma {:induction false} FragmentationIrrelevant(held: seq<U8>, pieces: seq<seq<U8>>)
    requires !FrontOf(held).Frame?
    ensures DrainEach(held, pieces) == Drain(held + Join(pieces))
    decreases |pieces|
  {
    if pieces == [] {
      assert held + [] == held;
    } else {
      var first, more := held + pieces[0], Join(pieces[1..]);
      DrainExhausts(first);
      FragmentationIrrelevant(Drain(first).1, pieces[1..]);
      DrainTwice(first, more);
      JoinCons(held, pieces[0], more);
    }
  }

  lemma JoinCons(held: seq<U8>, piece: seq<U8>, more: seq<U8>)
    ensures held + (piece + more) == (held + piece) + more
  {
  }

  /** Every way of cutting a stream of encodings gives back exactly the frames. */
  lemma {:induction false} DrainRoundTrip(frames: seq<seq<U8>>)
    requires forall i :: 0 <= i < |frames| ==> |frames[i]| < MAX_FRAME
    ensures Drain(EncodeAll(frames)) == (frames, [])
  {
    if frames != [] {
      FrontRoundTrip(frames[0], EncodeAll(frames[1..]));
      DrainRoundTrip(frames[1..]);
      assert frames == [frames[0]] + frames[1..];
    }
  }

  lemma {:induction false} EncodeAllAppend(a: seq<seq<U8>>, b: seq<seq<U8>>)
    ensures EncodeAll(a + b) == EncodeAll(a) + EncodeAll(b)
  {
    if a == [] {
      assert a + b == b;
    } else {
      assert (a + b)[1..] == a[1..] + b;
      EncodeAllAppend(a[1..], b);
    }
  }

  /** The calls a client makes on a decoder, and what a run of them leaves behind. */
  datatype Call = Push(bytes: seq<U8>) | Next

  datatype Outcome = Outcome(pushed: seq<U8>, frames: seq<seq<U8>>, buf: seq<U8>, refused: bool)

  function Step(o: Outcome, c: Call): Outcome {
    match c
    case Push(b) => o.(pushed := o.pushed + b, buf := o.buf + b)
    case Next =>
      match FrontOf(o.buf)
      case NeedMore => o
      case Refused(_) => o.(refused := true)
      case Frame(p, rest) => o.(frames := o.frames + [p], buf := rest)
  }

  function Run(calls: seq<Call>): Outcome {
    if calls == [] then Outcome([], [], [], false)
    else Step(Run(calls[..|calls| - 1]), calls[|calls| - 1])
  }

  /**
    Conservation over every sequence of calls: the encodings of the frames returned,
    followed by the bytes still held, are everything pushed. Once a call has refused, the
    offending prefix stays at the front.
   */
  lemma {:induction false} RunConserves(calls: seq<Call>)
    ensures var o := Run(calls); o.pushed == EncodeAll(o.frames) + o.buf
    ensures var o := Run(calls); o.refused ==> FrontOf(o.buf).Refused?
  {
    if calls != [] {
      var before := Run(calls[..|calls| - 1]);
      RunConserves(calls[..|calls| - 1]);
      match calls[|calls| - 1]
      case Push(b) =>
        if before.refused {
          FrontStable(before.buf, b);
        }
      case Next =>
        if FrontOf(before.buf).Frame? {
          var p := FrontOf(before.buf).payload;
          FrontIsEncoding(before.buf);
          EncodeAllAppend(before.frames, [p]);
          assert EncodeAll([p]) == Encode(p) + EncodeAll([]);
        }
    }
  }

  /** Refusal is final: no later call of any kind produces another frame. */
  lemma {:induction false} RefusalIsFinal(calls: seq<Call>, later: seq<Call>)
    requires Run(calls).refused
    ensures Run(calls + later).refused && Run(calls + later).frames == Run(calls).frames
  {
    if later == [] {
      assert calls + later == calls;
    } else {
      var init := later[..|later| - 1];
      RefusalIsFinal(calls, init);
      assert (calls + later)[..|calls + later| - 1] == calls + init;
      RunConserves(calls + init);
    }
  }

  class Decoder {
    var buf: seq<U8>

    constructor ()
      ensures buf == []
    {
      buf := [];
    }

    method PushBytes(bytes: seq<U8>)
      modifies this
      ensures buf == old(buf) + bytes
    {
      buf := buf + bytes;
    }

    method NextFrame() returns (r: Result<Option<seq<U8>>, Error>)
      modifies this
      ensures match FrontOf(old(buf))
        case NeedMore => r == Ok(None) && buf == old(buf)
        case Refused(n) => r == Err(Oversize(n)) && buf == old(buf)
        case Frame(p, rest) => r == Ok(Some(p)) && buf == rest
    {
      if |buf| < LENGTH_PREFIX {
        return Ok(None);
      }
      var len: nat := FromBigEndian(buf[..LENGTH_PREFIX]);
      if len >= MAX_FRAME {
        return Err(Oversize(len));
      }
      if |buf| < LENGTH_PREFIX + len {
        return Ok(None);
      }
      var frame := buf[LENGTH_PREFIX..LENGTH_PREFIX + len];
      buf := buf[LENGTH_PREFIX + len..];
      r := Ok(Some(frame));
    }
  }
}
