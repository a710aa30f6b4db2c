/**
  The layers composed: a sender that cuts, wraps, encrypts and prefixes; a receiver that
  takes whatever bytes arrive and undoes all of it.
 */
module EndToEnd {
  import opened Bytes
  import SM = SecureMessage
  import C = Channel
  import F = Frames
  import Framing
  import P = Payload
  import S = Schedule

  datatype Received =
    | Sharing(data: seq<U8>)
    | Offline(frame: F.Frame)
    | File(name: string, offset: I64, data: seq<U8>, last: bool)

  /** Where the source unwraps and would stop. */
  datatype Trouble =
    | BadStream(stream: Framing.Error)
    | BadChannel(channel: C.Error)
    | BadFrame(frame: F.Error)
    | BadPayload(payload: P.Error)

  datatype Receiver = Receiver(recvSeq: I32, held: seq<U8>, table: P.Table)

  type Keys = (seq<U8>, seq<U8>)

  function Surface(e: P.Event): seq<Received> {
    match e
    case BytesEvent(_, data) => [Sharing(data)]
    case FileChunk(_, offset, data, last, header) => [File(header.fileName, offset, data, last)]
    case _ => []
  }

  datatype Handled = Handled(recvSeq: I32, table: P.Table, out: seq<Received>, trouble: Option<Trouble>)

  /** One whole frame: decrypt, parse, reassemble. */
  function Handle(c: SM.Crypto, k: Keys, recvSeq: I32, table: P.Table, frame: seq<U8>): (h: Handled)
    requires P.WellKept(table)
    ensures P.WellKept(h.table)
  {
    var (next, plain) := C.Accept(c, k, recvSeq, frame);
    if plain.Err? then Handled(next, table, [], Some(BadChannel(plain.error)))
    else match F.Parse(plain.value)
      case Err(e) => Handled(next, table, [], Some(BadFrame(e)))
      case Ok(TransferFrame(pt)) =>
        P.AcceptKept(table, pt);
        var (table', reply) := P.Accept(table, pt);
        if reply.Ok? then Handled(next, table', Surface(reply.value), None)
        else Handled(next, table', [], Some(BadPayload(reply.error)))
      case Ok(other) => Handled(next, table, [Offline(other)], None)
  }

  predicate Ready(st: Receiver) { P.WellKept(st.table) }

  /** Everything the held bytes allow: the loop of `receive`. */
  function Pump(c: SM.Crypto, k: Keys, st: Receiver): (r: (Receiver, seq<Received>, Option<Trouble>))
    requires Ready(st)
    ensures Ready(r.0)
    decreases |st.held|
  {
    match Framing.FrontOf(st.held)
    case NeedMore => (st, [], None)
    case Refused(n) => (st, [], Some(BadStream(Framing.Oversize(n))))
    case Frame(p, rest) =>
      var h := Handle(c, k, st.recvSeq, st.table, p);
      if h.trouble.Some? then (Receiver(h.recvSeq, rest, h.table), h.out, h.trouble)
      else
        var (st', out, trouble) := Pump(c, k, Receiver(h.recvSeq, rest, h.table));
        (st', h.out + out, trouble)
  }

  /** A wire delivered in pieces, one `receive` call each. */
  function ReceiveAll(c: SM.Crypto, k: Keys, st: Receiver, pieces: seq<seq<U8>>): (r: (Receiver, seq<Received>, Option<Trouble>))
    requires Ready(st)
    decreases |pieces|
  {
    if pieces == [] then (st, [], None)
    else
      var (st1, out1, trouble) := Pump(c, k, st.(held := st.held + pieces[0]));
      if trouble.Some? then (st1, out1, trouble)
      else
        var (st2, out2, trouble2) := ReceiveAll(c, k, st1, pieces[1..]);
        (st2, out1 + out2, trouble2)
  }

  // ------------------------------------------------------------- frames one at a time ---

  function HandleAll(c: SM.Crypto, k: Keys, recvSeq: I32, table: P.Table, frames: seq<seq<U8>>): (h: Handled)
    requires P.WellKept(table)
    ensures P.WellKept(h.table)
    decreases |frames|
  {
    if frames == [] then Handled(recvSeq, table, [], None)
    else
      var h := Handle(c, k, recvSeq, table, frames[0]);
      if h.trouble.Some? then h
      else
        var t := HandleAll(c, k, h.recvSeq, h.table, frames[1..]);
        t.(out := h.out + t.out)
  }

  lemma {:induction false} HandleAllAppend(c: SM.Crypto, k: Keys, recvSeq: I32, table: P.Table, a: seq<seq<U8>>, b: seq<seq<U8>>)
    requires P.WellKept(table)
    ensures var h := HandleAll(c, k, recvSeq, table, a);
      HandleAll(c, k, recvSeq, table, a + b) ==
        if h.trouble.Some? then h
        else var t := HandleAll(c, k, h.recvSeq, h.table, b); t.(out := h.out + t.out)
    decreases |a|
  {
    hide Handle;
    if a == [] {
      assert a + b == b;
      var t := HandleAll(c, k, recvSeq, table, b);
      assert [] + t.out == t.out;
    } else {
      assert (a + b)[1..] == a[1..] + b;
      var h := Handle(c, k, recvSeq, table, a[0]);
      if h.trouble.None? {
        HandleAllAppend(c, k, h.recvSeq, h.table, a[1..], b);
        var m := HandleAll(c, k, h.recvSeq, h.table, a[1..]);
        if m.trouble.None? {
          var t := HandleAll(c, k, m.recvSeq, m.table, b);
          assert h.out + (m.out + t.out) == (h.out + m.out) + t.out;
        }
      }
    }
  }

  /** Pumping is draining and then handling, as long as nothing goes wrong. */
  lemma {:induction false} PumpHandles(c: SM.Crypto, k: Keys, st: Receiver)
    requires Ready(st) && Framing.FrontOf(Framing.Drain(st.held).1).NeedMore?
    requires HandleAll(c, k, st.recvSeq, st.table, Framing.Drain(st.held).0).trouble.None?
    ensures var (frames, left) := Framing.Drain(st.held);
      var h := HandleAll(c, k, st.recvSeq, st.table, frames);
      Pump(c, k, st) == (Receiver(h.recvSeq, left, h.table), h.out, None)
    decreases |st.held|
  {
    hide Handle, Framing.FrontOf;
    match Framing.FrontOf(st.held)
    case NeedMore =>
    case Refused(_) =>
    case Frame(p, rest) =>
      var frames := Framing.Drain(rest).0;
      assert ([p] + frames)[1..] == frames;
      var h := Handle(c, k, st.recvSeq, st.table, p);
      PumpHandles(c, k, Receiver(h.recvSeq, rest, h.table));
  }

  lemma {:induction false} RefusedStays(held: seq<U8>, pieces: seq<seq<U8>>)
    requires Framing.FrontOf(held).Refused?
    ensures Framing.FrontOf(Framing.DrainEach(held, pieces).1).Refused?
    decreases |pieces|
  {
    if pieces != [] {
      Framing.FrontStable(held, pieces[0]);
      RefusedStays(held + pieces[0], pieces[1..]);
    }
  }

  /** However the bytes are cut, receiving them is handling the frames they hold. */
  lemma {:induction false} ReceiveHandles(c: SM.Crypto, k: Keys, st: Receiver, pieces: seq<seq<U8>>)
    requires Ready(st) && Framing.FrontOf(Framing.DrainEach(st.held, pieces).1).NeedMore?
    requires HandleAll(c, k, st.recvSeq, st.table, Framing.DrainEach(st.held, pieces).0).trouble.None?
    ensures var (frames, left) := Framing.DrainEach(st.held, pieces);
      var h := HandleAll(c, k, st.recvSeq, st.table, frames);
      ReceiveAll(c, k, st, pieces) == (Receiver(h.recvSeq, left, h.table), h.out, None)
    decreases |pieces|
  {
    hide Handle, Framing.FrontOf;
    if pieces != [] {
      var first := st.(held := st.held + pieces[0]);
      var ps, left := Framing.Drain(first.held).0, Framing.Drain(first.held).1;
      var qs := Framing.DrainEach(left, pieces[1..]).0;
      Framing.DrainExhausts(first.held);
      if Framing.FrontOf(left).Refused? {
        RefusedStays(left, pieces[1..]);
      }
      HandleAllAppend(c, k, st.recvSeq, st.table, ps, qs);
      PumpHandles(c, k, first);
      var h := HandleAll(c, k, st.recvSeq, st.table, ps);
      ReceiveHandles(c, k, Receiver(h.recvSeq, left, h.table), pieces[1..]);
    }
  }

  // ------------------------------------------------------------------- the sender's side ---

  /** Frames numbered from `n`, each sealed with the randomness of its own call. */
  function SealAll(c: SM.Crypto, k: Keys, iv: nat -> seq<U8>, n: nat, plains: seq<seq<U8>>): seq<seq<U8>> {
    seq(|plains|, i requires 0 <= i < |plains| => C.WireOf(c, k, n + i, C.Sent(plains[i], iv(n + i))))
  }

  predicate DataOp(op: P.Op) {
    op.Feed? && op.pt.packetType.Data? && op.pt.chunk.Some? && op.pt.control.None?
  }

  /** The offline frame that carries one chunk. */
  function Plain(op: P.Op): seq<U8> {
    if DataOp(op) then F.PayloadData(op.pt.header, op.pt.chunk.value) else []
  }

  function Plains(ops: seq<P.Op>): seq<seq<U8>> {
    seq(|ops|, j requires 0 <= j < |ops| => Plain(ops[j]))
  }

  /** Every frame, once sealed, is one the peer's framing layer will take. */
  predicate Carriable(c: SM.Crypto, k: Keys, iv: nat -> seq<U8>, n: nat, plain: seq<U8>) {
    && C.Sendable(c, k, n, C.Sent(plain, iv(n)))
    && |C.WireOf(c, k, n, C.Sent(plain, iv(n)))| < Framing.MAX_FRAME
    && |plain| < TWO_64
  }

  function SurfaceAll(replies: seq<P.Reply>): seq<Received> {
    if replies == [] then [] else SurfaceAll(replies[..|replies| - 1]) + SurfaceReply(replies[|replies| - 1])
  }

  function SurfaceReply(r: P.Reply): seq<Received> {
    if r.Ok? then Surface(r.value) else []
  }

  /** The next frame of an interleaving, sealed in turn, goes through every layer. */
  lemma FrameGoesThrough(c: SM.Crypto, k: Keys, iv: nat -> seq<U8>, n: nat, table: P.Table, op: P.Op)
    requires SM.Inverts(c) && |k.0| == SM.AES_KEY_SIZE && P.WellKept(table)
    requires DataOp(op) && Carriable(c, k, iv, n, Plain(op)) && P.Accept(table, op.pt).1.Ok?
    ensures Handle(c, k, C.Counter(n), table, C.WireOf(c, k, n, C.Sent(Plain(op), iv(n))))
      == Handled(C.Counter(n + 1), P.Accept(table, op.pt).0, Surface(P.Accept(table, op.pt).1.value), None)
  {
    hide C.Accept, F.Parse, F.PayloadData, C.WireOf, C.Counter;
    C.InOrderAccepted(c, k, n, C.Sent(Plain(op), iv(n)));
    F.PayloadDataRoundTrip(op.pt.header, op.pt.chunk.value);
    assert op.pt == F.PayloadTransfer(F.Data, op.pt.header, Some(op.pt.chunk.value), None);
  }

  lemma StepTable(s: P.State, pt: F.PayloadTransfer)
    requires P.NonNegative(s.table)
    ensures P.Step(s, P.Feed(pt)).table == P.Accept(s.table, pt).0
  {
  }

  lemma SurfaceNext(replies: seq<P.Reply>, j: nat)
    requires j < |replies| && replies[j].Ok?
    ensures SurfaceAll(replies[..j + 1]) == SurfaceAll(replies[..j]) + Surface(replies[j].value)
  {
    assert replies[..j + 1][..j] == replies[..j];
  }

  lemma HandleOne(c: SM.Crypto, k: Keys, recvSeq: I32, table: P.Table, frame: seq<U8>)
    requires P.WellKept(table)
    ensures HandleAll(c, k, recvSeq, table, [frame]) == Handle(c, k, recvSeq, table, frame)
  {
    hide Handle;
    var h := Handle(c, k, recvSeq, table, frame);
    if h.trouble.None? {
      assert HandleAll(c, k, h.recvSeq, h.table, []) == Handled(h.recvSeq, h.table, [], None);
      assert h.out + [] == h.out;
    }
  }

  lemma ReplyOk(plans: S.Plans, ops: seq<P.Op>, j: nat)
    requires S.Interleaving(plans, ops) && j < |ops|
    ensures ops[j].Feed? && P.WellKept(P.Run(ops[..j]).table)
    ensures P.Accept(P.Run(ops[..j]).table, ops[j].pt).1.Ok?
    ensures |S.Replies(plans, ops)| == |ops| && S.Replies(plans, ops)[j] == P.Accept(P.Run(ops[..j]).table, ops[j].pt).1
  {
    S.EveryReplyExpected(plans, ops, j);
  }

  function Seals(c: SM.Crypto, k: Keys, iv: nat -> seq<U8>, ops: seq<P.Op>): seq<seq<U8>> {
    SealAll(c, k, iv, 0, Plains(ops))
  }

  lemma SealAt(c: SM.Crypto, k: Keys, iv: nat -> seq<U8>, ops: seq<P.Op>, i: nat)
    requires i < |ops|
    ensures |Seals(c, k, iv, ops)| == |ops| && Seals(c, k, iv, ops)[i] == C.WireOf(c, k, i, C.Sent(Plain(ops[i]), iv(i)))
    ensures Seals(c, k, iv, ops)[..i + 1] == Seals(c, k, iv, ops)[..i] + [Seals(c, k, iv, ops)[i]]
  {
    hide C.WireOf, Plain;
  }

  /** Data frames all, and every one of them carriable. */
  ghost predicate AllCarriable(c: SM.Crypto, k: Keys, iv: nat -> seq<U8>, ops: seq<P.Op>) {
    forall i :: 0 <= i < |ops| ==> DataOp(ops[i]) && Carriable(c, k, iv, i, Plain(ops[i]))
  }

  lemma CarriableAt(c: SM.Crypto, k: Keys, iv: nat -> seq<U8>, ops: seq<P.Op>, i: nat)
    requires AllCarriable(c, k, iv, ops) && i < |ops|
    ensures DataOp(ops[i]) && Carriable(c, k, iv, i, Plain(ops[i]))
  {
    hide DataOp, Carriable, Plain;
  }

  lemma NothingInFlight()
    ensures P.WellKept(map[])
  {
  }

  lemma NoneHandled(c: SM.Crypto, k: Keys, seals: seq<seq<U8>>, ops: seq<P.Op>, replies: seq<P.Reply>)
    ensures P.WellKept(map[])
    ensures HandleAll(c, k, 0, map[], seals[..0]) == Handled(C.Counter(0), P.Run(ops[..0]).table, SurfaceAll(replies[..0]), None)
  {
    C.CounterSucc(0);
    assert seals[..0] == [] && ops[..0] == [] && replies[..0] == [];
  }

  lemma {:induction false} SealsHandled(c: SM.Crypto, k: Keys, iv: nat -> seq<U8>, plans: S.Plans, ops: seq<P.Op>, j: nat)
    requires SM.Inverts(c) && |k.0| == SM.AES_KEY_SIZE && S.Interleaving(plans, ops) && j <= |ops|
    requires AllCarriable(c, k, iv, ops) && |Seals(c, k, iv, ops)| == |S.Replies(plans, ops)| == |ops|
    ensures HandleAll(c, k, 0, map[], Seals(c, k, iv, ops)[..j])
      == Handled(C.Counter(j), P.Run(ops[..j]).table, SurfaceAll(S.Replies(plans, ops)[..j]), None)
  {
    hide *;
    S.AllFeeds(plans, ops);
    if j == 0 {
      NoneHandled(c, k, Seals(c, k, iv, ops), ops, S.Replies(plans, ops));
    } else {
      var i := j - 1;
      CarriableAt(c, k, iv, ops, i);
      P.RunKept(ops[..i]);
      NothingInFlight();
      SealAt(c, k, iv, ops, i);
      ReplyOk(plans, ops, i);
      SealsHandled(c, k, iv, plans, ops, i);
      var seals, table := Seals(c, k, iv, ops), P.Run(ops[..i]).table;
      HandleAllAppend(c, k, 0, map[], seals[..i], [seals[i]]);
      FrameGoesThrough(c, k, iv, i, table, ops[i]);
      HandleOne(c, k, C.Counter(i), table, seals[i]);
      S.RunNext(ops, i);
      StepTable(P.Run(ops[..i]), ops[i].pt);
      SurfaceNext(S.Replies(plans, ops), i);
    }
  }

  lemma Whole<T>(s: seq<T>)
    ensures s[..|s|] == s && [] + s == s
  {
  }

  /** The wire as the receiver sees it, whatever the cuts. */
  lemma WireDrains(c: SM.Crypto, k: Keys, iv: nat -> seq<U8>, ops: seq<P.Op>, pieces: seq<seq<U8>>)
    requires AllCarriable(c, k, iv, ops) && Framing.Join(pieces) == Framing.EncodeAll(Seals(c, k, iv, ops))
    ensures Framing.DrainEach([], pieces) == (Seals(c, k, iv, ops), [])
    ensures |Seals(c, k, iv, ops)| == |ops|
  {
    var seals := Seals(c, k, iv, ops);
    forall i | 0 <= i < |seals| ensures |seals[i]| < Framing.MAX_FRAME {
      SealAt(c, k, iv, ops, i);
      assert Carriable(c, k, iv, i, Plain(ops[i]));
    }
    hide Seals, C.WireOf;
    Framing.DrainRoundTrip(seals);
    Framing.FragmentationIrrelevant([], pieces);
    Whole(Framing.Join(pieces));
  }

  /** The sharing frames among what a receiver handed up. */
  function Sharings(out: seq<Received>): seq<seq<U8>> {
    if out == [] then [] else (if out[0].Sharing? then [out[0].data] else []) + Sharings(out[1..])
  }

  /** The bodies of the BYTES payloads finished by the first `j` frames, in the order they finish. */
  function Finished(plans: S.Plans, ops: seq<P.Op>, j: nat): seq<seq<U8>>
    requires j <= |ops| && forall i :: 0 <= i < |ops| ==> ops[i].Feed? && ops[i].pt.header.id in plans
  {
    if j == 0 then []
    else
      var id := ops[j - 1].pt.header.id;
      Finished(plans, ops, j - 1)
      + if plans[id].header.payloadType.BytesPayload? && S.Finishes(plans, ops, j - 1, id) then [S.Body(plans[id].chunks)] else []
  }

  lemma {:induction false} SharingsAppend(a: seq<Received>, b: seq<Received>)
    ensures Sharings(a + b) == Sharings(a) + Sharings(b)
  {
    if a == [] {
      assert a + b == b;
    } else {
      assert (a + b)[1..] == a[1..] + b;
      SharingsAppend(a[1..], b);
    }
  }

  lemma SharingOfOne(e: P.Event)
    ensures Sharings(Surface(e)) == if e.BytesEvent? then [e.data] else []
  {
    var out := Surface(e);
    if out != [] {
      assert out[1..] == [];
    }
  }

  lemma OneMoreSharing(plans: S.Plans, ops: seq<P.Op>, j: nat)
    requires S.Interleaving(plans, ops) && j < |ops|
    ensures S.Replies(plans, ops)[j].Ok?
    ensures var id := ops[j].pt.header.id;
      Sharings(Surface(S.Replies(plans, ops)[j].value)) ==
        if plans[id].header.payloadType.BytesPayload? && S.Finishes(plans, ops, j, id) then [S.Body(plans[id].chunks)] else []
  {
    S.ReplyAt(plans, ops, j);
    SharingOfOne(S.Replies(plans, ops)[j].value);
  }

  lemma FinishedNext(plans: S.Plans, ops: seq<P.Op>, j: nat)
    requires j < |ops| && forall i :: 0 <= i < |ops| ==> ops[i].Feed? && ops[i].pt.header.id in plans
    ensures Finished(plans, ops, 0) == []
    ensures var id := ops[j].pt.header.id;
      Finished(plans, ops, j + 1) == Finished(plans, ops, j)
        + if plans[id].header.payloadType.BytesPayload? && S.Finishes(plans, ops, j, id) then [S.Body(plans[id].chunks)] else []
  {
  }

  lemma NoSharings(replies: seq<P.Reply>)
    ensures Sharings(SurfaceAll(replies[..0])) == []
  {
  }

  lemma NoneFinished(plans: S.Plans, ops: seq<P.Op>)
    requires forall i :: 0 <= i < |ops| ==> ops[i].Feed? && ops[i].pt.header.id in plans
    ensures Finished(plans, ops, 0) == []
  {
  }

  lemma {:induction false} SharingsAreFinished(plans: S.Plans, ops: seq<P.Op>, j: nat)
    requires S.Interleaving(plans, ops) && j <= |ops|
    ensures Sharings(SurfaceAll(S.Replies(plans, ops)[..j])) == Finished(plans, ops, j)
  {
    hide *;
    S.AllFeeds(plans, ops);
    S.AllPlanned(plans, ops);
    if j == 0 {
      NoSharings(S.Replies(plans, ops));
      NoneFinished(plans, ops);
    } else {
      SharingsAreFinished(plans, ops, j - 1);
      OneMoreSharing(plans, ops, j - 1);
      FinishedNext(plans, ops, j - 1);
      var replies := S.Replies(plans, ops);
      SurfaceNext(replies, j - 1);
      SharingsAppend(SurfaceAll(replies[..j - 1]), Surface(replies[j - 1].value));
    }
  }

  /**
    The whole stack. For any payloads, any cut of them into chunks, any interleaving with at
    most 32 in flight and any fragmentation of the wire: the receiver never stops, holds no
    bytes back, and what comes out is what the assembler makes of the frames in order.
   */
  lemma WholeStack(c: SM.Crypto, k: Keys, iv: nat -> seq<U8>, plans: S.Plans, ops: seq<P.Op>, pieces: seq<seq<U8>>)
    requires SM.Inverts(c) && |k.0| == SM.AES_KEY_SIZE && S.Interleaving(plans, ops)
    requires AllCarriable(c, k, iv, ops)
    requires Framing.Join(pieces) == Framing.EncodeAll(Seals(c, k, iv, ops))
    ensures ReceiveAll(c, k, Receiver(0, [], map[]), pieces)
      == (Receiver(C.Counter(|ops|), [], P.Run(ops).table), SurfaceAll(S.Replies(plans, ops)), None)
    ensures Sharings(ReceiveAll(c, k, Receiver(0, [], map[]), pieces).1) == Finished(plans, ops, |ops|)
    ensures forall id :: id in plans ==> S.Received(S.Replies(plans, ops), id) == S.Body(plans[id].chunks)
  {
    SharingsAreFinished(plans, ops, |ops|);
    var start := Receiver(0, [], map[]);
    assert Ready(start);
    assert |S.Replies(plans, ops)| == |ops|;
    assert Framing.FrontOf([]).NeedMore?;
    forall id | id in plans ensures S.Received(S.Replies(plans, ops), id) == S.Body(plans[id].chunks) {
      S.EveryPayloadWhole(plans, ops, id);
    }
    WireDrains(c, k, iv, ops, pieces);
    Whole(Seals(c, k, iv, ops));
    Whole(ops);
    Whole(S.Replies(plans, ops));
    hide *;
    SealsHandled(c, k, iv, plans, ops, |ops|);
    ReceiveHandles(c, k, start, pieces);
  }

  /** ... and each of those replies is the one the frame's own payload calls for. */
  lemma WholeStackReplies(plans: S.Plans, ops: seq<P.Op>, j: nat)
    requires S.Interleaving(plans, ops) && j < |ops|
    ensures var id := ops[j].pt.header.id;
      && S.Progress(ops, j, id) < |plans[id].chunks|
      && S.Replies(plans, ops)[j] == S.Expected(plans[id], S.Progress(ops, j, id))
  {
    S.ReplyAt(plans, ops, j);
  }

  // ------------------------------------------------------------------------- one peer ---

  /** The chunks the file loop cuts, from `offset` on. */
  function Cut(body: seq<U8>, size: nat, offset: nat): (cs: seq<F.PayloadChunk>)
    requires size > 0 && offset <= |body| <= P.I64_MAX
    decreases |body| - offset
  {
    if offset == |body| then []
    else
      var end := if offset + size < |body| then offset + size else |body|;
      [F.PayloadChunk(if end == |body| then 1 else 0, offset, body[offset..end])] + Cut(body, size, end)
  }

  function FileHeader(id: I64, name: string, size: I64): F.PayloadHeader {
    F.PayloadHeader(id, F.FilePayload, size, false, name, "")
  }

  predicate CutFrom(cs: seq<F.PayloadChunk>, body: seq<U8>, offset: nat) {
    && offset <= |body|
    && (cs == [] <==> offset == |body|)
    && S.Body(cs) == body[offset..]
    && forall k :: 0 <= k < |cs| ==> cs[k].offset == offset + |S.Body(cs[..k])| && (cs[k].IsLast() <==> k == |cs| - 1)
  }

  lemma {:induction false} BodyCons(c: F.PayloadChunk, cs: seq<F.PayloadChunk>)
    ensures S.Body([c] + cs) == c.body + S.Body(cs)
  {
    hide S.Body;
    if cs == [] {
      assert [c] + cs == [] + [c];
      BodyEnd([], c);
    } else {
      var init, last := cs[..|cs| - 1], cs[|cs| - 1];
      BodyCons(c, init);
      BodyEnd(init, last);
      BodyEnd([c] + init, last);
      assert cs == init + [last];
      assert [c] + cs == ([c] + init) + [last];
      Framing.Glue(c.body, S.Body(init), last.body, S.Body(cs));
    }
  }

  lemma BodyEnd(cs: seq<F.PayloadChunk>, c: F.PayloadChunk)
    ensures S.Body([]) == [] && S.Body(cs + [c]) == S.Body(cs) + c.body
  {
    assert (cs + [c])[..|cs|] == cs;
  }

  lemma CutFromCons(c: F.PayloadChunk, cs: seq<F.PayloadChunk>, body: seq<U8>, offset: nat, end: nat)
    requires offset < end <= |body| && CutFrom(cs, body, end)
    requires c.offset == offset && c.body == body[offset..end] && (c.IsLast() <==> end == |body|)
    ensures CutFrom([c] + cs, body, offset)
  {
    var all := [c] + cs;
    BodyCons(c, cs);
    assert body[offset..] == body[offset..end] + body[end..];
    forall k | 0 <= k < |all|
      ensures all[k].offset == offset + |S.Body(all[..k])| && (all[k].IsLast() <==> k == |all| - 1)
    {
      if k == 0 {
        assert all[..0] == [];
      } else {
        assert all[..k] == [c] + cs[..k - 1];
        BodyCons(c, cs[..k - 1]);
        assert all[k] == cs[k - 1];
      }
    }
  }

  lemma {:induction false} CutRight(body: seq<U8>, size: nat, offset: nat)
    requires size > 0 && offset <= |body| <= P.I64_MAX
    ensures CutFrom(Cut(body, size, offset), body, offset)
    decreases |body| - offset
  {
    if offset < |body| {
      var end := if offset + size < |body| then offset + size else |body|;
      CutRight(body, size, end);
      var c := F.PayloadChunk(if end == |body| then 1 else 0, offset, body[offset..end]);
      CutFromCons(c, Cut(body, size, end), body, offset, end);
    }
  }

  /** The file loop cuts a non-empty file into chunks the whole-stack theorem covers. */
  lemma FileIsWellCut(id: I64, name: string, body: seq<U8>, size: nat)
    requires size > 0 && 0 < |body| <= P.I64_MAX
    ensures S.WellCut(S.Plan(FileHeader(id, name, |body|), Cut(body, size, 0)))
    ensures S.Body(Cut(body, size, 0)) == body
  {
    CutRight(body, size, 0);
  }

  function SharingHeader(id: I64, size: I64): F.PayloadHeader {
    F.PayloadHeader(id, F.BytesPayload, size, false, "", "")
  }

  /** ... and a sharing frame, sent as one chunk, is covered too. */
  lemma SharingIsWellCut(id: I64, data: seq<U8>)
    requires |data| <= P.MAX_BYTES_PAYLOAD
    ensures S.WellCut(S.Plan(SharingHeader(id, |data|), [F.PayloadChunk(1, 0, data)]))
    ensures S.Body([F.PayloadChunk(1, 0, data)]) == data
  {
    BodyCons(F.PayloadChunk(1, 0, data), []);
    assert [F.PayloadChunk(1, 0, data)] + [] == [F.PayloadChunk(1, 0, data)];
    assert [F.PayloadChunk(1, 0, data)][..0] == [];
  }

  function DataFrames(header: F.PayloadHeader, cs: seq<F.PayloadChunk>): seq<seq<U8>> {
    seq(|cs|, i requires 0 <= i < |cs| => F.PayloadData(header, cs[i]))
  }

  function WireFrom(c: SM.Crypto, k: Keys, iv: nat -> seq<U8>, n: nat, plains: seq<seq<U8>>): seq<U8> {
    Framing.EncodeAll(SealAll(c, k, iv, n, plains))
  }

  lemma WireOne(c: SM.Crypto, k: Keys, iv: nat -> seq<U8>, n: nat, plain: seq<U8>)
    ensures WireFrom(c, k, iv, n, [plain]) == Framing.Encode(C.WireOf(c, k, n, C.Sent(plain, iv(n))))
  {
    hide C.WireOf;
    var w := C.WireOf(c, k, n, C.Sent(plain, iv(n)));
    assert SealAll(c, k, iv, n, [plain]) == [w];
    assert Framing.EncodeAll([w]) == Framing.Encode(w) + Framing.EncodeAll([]);
  }

  lemma WireAppend(c: SM.Crypto, k: Keys, iv: nat -> seq<U8>, n: nat, plains: seq<seq<U8>>, more: seq<seq<U8>>)
    ensures WireFrom(c, k, iv, n, plains + more)
      == WireFrom(c, k, iv, n, plains) + WireFrom(c, k, iv, n + |plains|, more)
  {
    hide C.WireOf;
    var a, b := SealAll(c, k, iv, n, plains), SealAll(c, k, iv, n + |plains|, more);
    assert SealAll(c, k, iv, n, plains + more) == a + b;
    Framing.EncodeAllAppend(a, b);
  }

  lemma CutStep(body: seq<U8>, size: nat, offset: nat)
    requires size > 0 && offset < |body| <= P.I64_MAX
    ensures var end := if offset + size < |body| then offset + size else |body|;
      Cut(body, size, offset) == [F.PayloadChunk(if end == |body| then 1 else 0, offset, body[offset..end])] + Cut(body, size, end)
  {
  }

  lemma WireNone(c: SM.Crypto, k: Keys, iv: nat -> seq<U8>, n: nat, header: F.PayloadHeader)
    ensures WireFrom(c, k, iv, n, DataFrames(header, [])) == []
  {
  }

  lemma FileStep(c: SM.Crypto, k: Keys, iv: nat -> seq<U8>, n: nat, header: F.PayloadHeader, sent: seq<F.PayloadChunk>, chunk: F.PayloadChunk)
    ensures WireFrom(c, k, iv, n, DataFrames(header, sent + [chunk]))
      == WireFrom(c, k, iv, n, DataFrames(header, sent)) + WireFrom(c, k, iv, n + |sent|, [F.PayloadData(header, chunk)])
  {
    hide F.PayloadData, C.WireOf;
    assert DataFrames(header, sent + [chunk]) == DataFrames(header, sent) + [F.PayloadData(header, chunk)];
    WireAppend(c, k, iv, n, DataFrames(header, sent), [F.PayloadData(header, chunk)]);
  }

  lemma Regroup<T>(a: seq<T>, x: T, b: seq<T>)
    ensures a + ([x] + b) == (a + [x]) + b
  {
  }

  class Peer {
    const channel: C.SecureChannel
    const decoder: Framing.Decoder
    const assembler: P.Assembler
    /** The random source, by how often it has been asked. */
    const random: nat -> seq<U8>
    var calls: nat
    var nextPayloadId: I64

    ghost predicate Valid()
      reads this, channel, decoder, assembler
    {
      && assembler.Valid()
      && channel.sendSeq == C.Counter(calls)
      && channel.keys.WellSized()
      && forall n :: |random(n)| == SM.IV_SIZE
    }

    function Held(): Receiver
      reads channel, decoder, assembler
    {
      Receiver(channel.recvSeq, decoder.buf, assembler.inFlight)
    }

    function SendKeys(): Keys { channel.keys.Send(channel.role) }

    function RecvKeys(): Keys { channel.keys.Recv(channel.role) }

    constructor (crypto: SM.Crypto, keys: C.SessionKeys, role: C.Role, random: nat -> seq<U8>)
      requires keys.WellSized() && forall n :: |random(n)| == SM.IV_SIZE
      ensures Valid() && fresh(channel) && fresh(decoder) && fresh(assembler)
      ensures calls == 0 && nextPayloadId == 0 && Held() == Receiver(0, [], map[])
      ensures channel.crypto == crypto && channel.keys == keys && channel.role == role && this.random == random
    {
      channel := new C.SecureChannel(crypto, keys, role);
      decoder := new Framing.Decoder();
      assembler := new P.Assembler();
      this.random := random;
      calls := 0;
      nextPayloadId := 0;
      new;
      C.CounterSucc(0);
    }

    /** Encrypt one offline frame under the next number and prefix its length. */
    method SendFrame(plain: seq<U8>) returns (wire: seq<U8>)
      requires Valid()
      modifies this`calls, channel`sendSeq
      ensures Valid() && calls == old(calls) + 1
      ensures wire == WireFrom(channel.crypto, SendKeys(), random, old(calls), [plain])
    {
      hide WireFrom, Framing.Encode, C.Counter;
      C.CounterSucc(calls);
      WireOne(channel.crypto, SendKeys(), random, calls, plain);
      var sealed := channel.Encrypt(plain, Some(random(calls)));
      calls := calls + 1;
      wire := Framing.Encode(sealed.value);
    }

    method SendSharing(frame: seq<U8>) returns (wire: seq<U8>)
      requires Valid() && nextPayloadId < P.I64_MAX && |frame| <= P.I64_MAX
      modifies this, channel`sendSeq
      ensures Valid() && nextPayloadId == old(nextPayloadId) + 1 && calls == old(calls) + 1
      ensures wire == WireFrom(channel.crypto, SendKeys(), random, old(calls), [F.PayloadData(
          SharingHeader(nextPayloadId, |frame|), F.PayloadChunk(1, 0, frame))])
    {
      nextPayloadId := nextPayloadId + 1;
      var header := SharingHeader(nextPayloadId, |frame|);
      wire := SendFrame(F.PayloadData(header, F.PayloadChunk(1, 0, frame)));
    }

    /** With a chunk size of zero the source's loop never ends. */
    method SendFile(payloadId: I64, name: string, body: seq<U8>, chunkSize: nat) returns (wire: seq<U8>)
      requires Valid() && chunkSize > 0 && |body| <= P.I64_MAX
      modifies this`calls, channel`sendSeq
      ensures Valid() && calls == old(calls) + |Cut(body, chunkSize, 0)|
      ensures wire == WireFrom(channel.crypto, SendKeys(), random, old(calls),
          DataFrames(FileHeader(payloadId, name, |body|), Cut(body, chunkSize, 0)))
    {
      hide C.WireOf, F.PayloadData, SealAll;
      var header := FileHeader(payloadId, name, |body|);
      wire := [];
      var offset: nat := 0;
      ghost var sent: seq<F.PayloadChunk> := [];
      ghost var all := Cut(body, chunkSize, 0);
      Whole(all);
      WireNone(channel.crypto, SendKeys(), random, calls, header);
      while offset < |body|
        invariant Valid() && offset <= |body|
        invariant all == sent + Cut(body, chunkSize, offset)
        invariant calls == old(calls) + |sent|
        invariant wire == WireFrom(channel.crypto, SendKeys(), random, old(calls), DataFrames(header, sent))
      {
        var end := if offset + chunkSize < |body| then offset + chunkSize else |body|;
        var chunk := F.PayloadChunk(if end == |body| then 1 else 0, offset, body[offset..end]);
        CutStep(body, chunkSize, offset);
        FileStep(channel.crypto, SendKeys(), random, old(calls), header, sent, chunk);
        var piece := SendFrame(F.PayloadData(header, chunk));
        Regroup(sent, chunk, Cut(body, chunkSize, end));
        wire := wire + piece;
        sent := sent + [chunk];
        offset := end;
      }
      assert sent + [] == sent;
    }

    /** Everything that just arrived, decoded as far as it goes. */
    method Receive(wire: seq<U8>) returns (out: seq<Received>, trouble: Option<Trouble>)
      requires Valid()
      modifies channel`recvSeq, decoder, assembler
      ensures Valid()
      ensures (Held(), out, trouble) == Pump(channel.crypto, RecvKeys(), old(Held()).(held := old(decoder.buf) + wire))
    {
      hide Handle, Framing.FrontOf, C.Counter, C.Accept;
      decoder.PushBytes(wire);
      out := [];
      ghost var start := Held();
      Whole(Pump(channel.crypto, RecvKeys(), start).1);
      while true
        invariant Valid() && channel.sendSeq == old(channel.sendSeq)
        invariant Pump(channel.crypto, RecvKeys(), start) ==
          var (st, more, t) := Pump(channel.crypto, RecvKeys(), Held()); (st, out + more, t)
        decreases |decoder.buf|
      {
        ghost var st := Held();
        var frame := decoder.NextFrame();
        if frame.Err? {
          return out, Some(BadStream(frame.error));
        }
        if frame.value.None? {
          return out, None;
        }
        ghost var h := Handle(channel.crypto, RecvKeys(), st.recvSeq, st.table, frame.value.value);
        var more, t := HandleFrame(frame.value.value);
        assert Held() == Receiver(h.recvSeq, decoder.buf, h.table);
        if t.Some? {
          return out + more, t;
        }
        PumpStep(out, more, channel.crypto, RecvKeys(), Held());
        out := out + more;
      }
    }

    method HandleFrame(frame: seq<U8>) returns (out: seq<Received>, trouble: Option<Trouble>)
      requires Valid()
      modifies channel`recvSeq, assembler
      ensures Valid() && channel.sendSeq == old(channel.sendSeq)
      ensures Handled(channel.recvSeq, assembler.inFlight, out, trouble)
        == Handle(channel.crypto, RecvKeys(), old(channel.recvSeq), old(assembler.inFlight), frame)
    {
      hide C.Accept, F.Parse, P.Accept, Surface, C.Counter;
      var plain := channel.Decrypt(frame);
      if plain.Err? {
        return [], Some(BadChannel(plain.error));
      }
      var offline := F.Parse(plain.value);
      if offline.Err? {
        return [], Some(BadFrame(offline.error));
      }
      if !offline.value.TransferFrame? {
        return [Offline(offline.value)], None;
      }
      var reply := assembler.AcceptFrame(offline.value.transfer);
      if reply.Err? {
        return [], Some(BadPayload(reply.error));
      }
      return Surface(reply.value), None;
    }
  }

  lemma PumpStep(out: seq<Received>, more: seq<Received>, c: SM.Crypto, k: Keys, st: Receiver)
    requires Ready(st)
    ensures out + (more + Pump(c, k, st).1) == (out + more) + Pump(c, k, st).1
  {
  }
}
