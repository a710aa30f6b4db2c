/** One peer sending a list of frames and files to another, end to end. */
module Session {
  import opened Bytes
  import SM = SecureMessage
  import C = Channel
  import F = Frames
  import Framing
  import P = Payload
  import S = Schedule
  import E = EndToEnd

  /** A call of `send_sharing` or `send_file`. */
  datatype Order =
    | Share(frame: seq<U8>)
    | SendFile(id: I64, name: string, body: seq<U8>, chunkSize: nat)

  /** The payload an order becomes, as the `shared`th sharing frame if it is one. An empty file is no chunks. */
  function PlanOf(o: Order, shared: nat): S.Plan
    requires WellFormed(o) && shared <= P.I64_MAX
  {
    match o
    case Share(frame) => S.Plan(E.SharingHeader(shared, |frame|), [F.PayloadChunk(1, 0, frame)])
    case SendFile(id, name, body, size) => S.Plan(E.FileHeader(id, name, |body|), E.Cut(body, size, 0))
  }

  predicate WellFormed(o: Order) {
    match o
    case Share(frame) => |frame| <= P.MAX_BYTES_PAYLOAD
    case SendFile(_, _, body, size) => size > 0 && |body| <= P.I64_MAX
  }

  /** What has been sent: the payloads, their frames in order, and how many sharing frames there were. */
  datatype Sent = Sent(plans: S.Plans, ops: seq<P.Op>, shared: nat)

  function Shared(s: Sent, o: Order): nat { if o.Share? then s.shared + 1 else s.shared }

  /** An order may follow: it is well formed, and its payload id is not yet taken. */
  predicate Fits(s: Sent, o: Order) {
    WellFormed(o) && Shared(s, o) <= P.I64_MAX && PlanOf(o, Shared(s, o)).header.id !in s.plans
  }

  function SendOne(s: Sent, o: Order): Sent
    requires Fits(s, o)
  {
    var p := PlanOf(o, Shared(s, o));
    Sent(if p.chunks == [] then s.plans else s.plans[p.header.id := p], s.ops + S.Feeds(p), Shared(s, o))
  }

  /** All of the orders, if each may follow those before it. */
  function SendAll(orders: seq<Order>): Option<Sent> {
    if orders == [] then Some(Sent(map[], [], 0))
    else
      var s :- SendAll(orders[..|orders| - 1]);
      var o := orders[|orders| - 1];
      if Fits(s, o) then Some(SendOne(s, o)) else None
  }

  /** What the far end should hand up for an order: the frame, or each chunk of the file where it belongs. */
  function Arrival(o: Order): seq<E.Received>
    requires WellFormed(o)
  {
    match o
    case Share(frame) => [E.Sharing(frame)]
    case SendFile(_, name, body, size) =>
      var cs := E.Cut(body, size, 0);
      seq(|cs|, k requires 0 <= k < |cs| => E.File(name, cs[k].offset, cs[k].body, k == |cs| - 1))
  }

  function Arrivals(orders: seq<Order>): seq<E.Received>
    requires forall k :: 0 <= k < |orders| ==> WellFormed(orders[k])
  {
    if orders == [] then [] else Arrivals(orders[..|orders| - 1]) + Arrival(orders[|orders| - 1])
  }

  lemma {:induction false} AllWellFormed(orders: seq<Order>)
    requires SendAll(orders).Some?
    ensures forall k :: 0 <= k < |orders| ==> WellFormed(orders[k])
    decreases |orders|
  {
    hide WellFormed;
    if orders != [] {
      AllWellFormed(orders[..|orders| - 1]);
    }
  }

  // ------------------------------------------------------------- what orders come to ---

  lemma PlanIsCut(o: Order, shared: nat)
    requires WellFormed(o) && shared <= P.I64_MAX
    ensures var p := PlanOf(o, shared); p.chunks != [] ==> S.WellCut(p)
    ensures PlanOf(o, shared).chunks == [] ==> o.SendFile? && Arrival(o) == []
  {
    match o
    case Share(frame) => E.SharingIsWellCut(shared, frame);
    case SendFile(id, name, body, size) =>
      if body != [] {
        E.FileIsWellCut(id, name, body, size);
      }
  }

  lemma {:induction false} SurfaceAppend(a: seq<P.Reply>, b: seq<P.Reply>)
    ensures E.SurfaceAll(a + b) == E.SurfaceAll(a) + E.SurfaceAll(b)
    decreases |b|
  {
    hide E.SurfaceReply;
    if b == [] {
      assert a + b == a;
    } else {
      var n := |b| - 1;
      assert (a + b)[..|a + b| - 1] == a + b[..n];
      SurfaceAppend(a, b[..n]);
    }
  }

  lemma SurfaceOne(r: P.Reply)
    ensures E.SurfaceAll([r]) == E.SurfaceReply(r)
  {
    assert [r][..0] == [];
  }

  /** The replies to a payload, handed up, are what its order should bring. */
  lemma ArrivalOfPlan(o: Order, shared: nat)
    requires WellFormed(o) && shared <= P.I64_MAX
    ensures E.SurfaceAll(S.ExpectedAll(PlanOf(o, shared))) == Arrival(o)
  {
    var p := PlanOf(o, shared);
    match o
    case Share(frame) =>
      E.SharingIsWellCut(shared, frame);
      assert S.ExpectedAll(p) == [S.Expected(p, 0)];
      SurfaceOne(S.Expected(p, 0));
    case SendFile(_, _, _, _) =>
      FileArrives(o, p, |p.chunks|);
      assert S.ExpectedAll(p)[..|p.chunks|] == S.ExpectedAll(p);
      assert Arrival(o)[..|p.chunks|] == Arrival(o);
  }

  lemma {:induction false} FileArrives(o: Order, p: S.Plan, k: nat)
    requires WellFormed(o) && o.SendFile? && p == PlanOf(o, 0) && k <= |p.chunks|
    ensures |S.ExpectedAll(p)| == |Arrival(o)| == |p.chunks|
    ensures E.SurfaceAll(S.ExpectedAll(p)[..k]) == Arrival(o)[..k]
    decreases k
  {
    hide E.Cut;
    if k > 0 {
      FileArrives(o, p, k - 1);
      E.SurfaceNext(S.ExpectedAll(p), k - 1);
      assert Arrival(o)[..k] == Arrival(o)[..k - 1] + [Arrival(o)[k - 1]];
    }
  }

  lemma NothingSent()
    ensures S.Interleaving(map[], []) && S.Replies(map[], []) == [] && E.SurfaceAll([]) == []
  {
  }

  /** Orders carried out one after another are an interleaving, and bring what each should. */
  lemma {:induction false} OrdersInterleave(orders: seq<Order>)
    requires SendAll(orders).Some?
    ensures forall k :: 0 <= k < |orders| ==> WellFormed(orders[k])
    ensures var s := SendAll(orders).value;
      S.Interleaving(s.plans, s.ops) && E.SurfaceAll(S.Replies(s.plans, s.ops)) == Arrivals(orders)
    decreases |orders|
  {
    hide S.Interleaving, S.Replies, Arrival, WellFormed, PlanOf, S.Feeds, E.SurfaceAll, S.WellCut;
    AllWellFormed(orders);
    if orders == [] {
      NothingSent();
    } else {
      var init, o := orders[..|orders| - 1], orders[|orders| - 1];
      var s := SendAll(init).value;
      OrdersInterleave(init);
      OrderFollows(s, o);
    }
  }

  lemma OrderFollows(s: Sent, o: Order)
    requires S.Interleaving(s.plans, s.ops) && Fits(s, o)
    ensures var t := SendOne(s, o);
      && S.Interleaving(t.plans, t.ops)
      && (forall j :: 0 <= j < |s.ops| ==> s.ops[j].Feed?) && (forall j :: 0 <= j < |t.ops| ==> t.ops[j].Feed?)
      && E.SurfaceAll(S.Replies(t.plans, t.ops)) == E.SurfaceAll(S.Replies(s.plans, s.ops)) + Arrival(o)
  {
    hide S.Interleaving, S.Replies, Arrival, WellFormed, PlanOf, S.Feeds, E.SurfaceAll, S.ExpectedAll, S.WellCut;
    var p := PlanOf(o, Shared(s, o));
    PlanIsCut(o, Shared(s, o));
    S.AllFeeds(s.plans, s.ops);
    if p.chunks == [] {
      NoFeeds(p);
      assert s.ops + [] == s.ops;
      assert E.SurfaceAll(S.Replies(s.plans, s.ops)) + [] == E.SurfaceAll(S.Replies(s.plans, s.ops));
    } else {
      S.Then(s.plans, s.ops, p);
      S.ThenReplies(s.plans, s.ops, p);
      S.AllFeeds(s.plans[p.header.id := p], s.ops + S.Feeds(p));
      SurfaceAppend(S.Replies(s.plans, s.ops), S.ExpectedAll(p));
      ArrivalOfPlan(o, Shared(s, o));
    }
  }

  lemma NoFeeds(p: S.Plan)
    requires p.chunks == []
    ensures S.Feeds(p) == []
  {
  }

  // ------------------------------------------------------------------------- the wire ---

  lemma PlainsOfPlan(p: S.Plan)
    ensures E.Plains(S.Feeds(p)) == E.DataFrames(p.header, p.chunks)
  {
    hide F.PayloadData;
  }

  lemma PlainsAppend(a: seq<P.Op>, b: seq<P.Op>)
    ensures E.Plains(a + b) == E.Plains(a) + E.Plains(b)
  {
    hide E.Plain;
  }

  /** The wire after one more order is the wire before it and that order's own. */
  lemma WireFollows(c: SM.Crypto, k: E.Keys, iv: nat -> seq<U8>, s: Sent, o: Order)
    requires Fits(s, o)
    ensures var p := PlanOf(o, Shared(s, o));
      E.WireFrom(c, k, iv, 0, E.Plains(SendOne(s, o).ops)) ==
        E.WireFrom(c, k, iv, 0, E.Plains(s.ops)) + E.WireFrom(c, k, iv, |s.ops|, E.DataFrames(p.header, p.chunks))
  {
    hide E.WireFrom, E.Plain, PlanOf, E.DataFrames;
    var p := PlanOf(o, Shared(s, o));
    PlainsOfPlan(p);
    PlainsAppend(s.ops, S.Feeds(p));
    E.WireAppend(c, k, iv, 0, E.Plains(s.ops), E.Plains(S.Feeds(p)));
  }

  lemma OneFrame(header: F.PayloadHeader, chunk: F.PayloadChunk)
    ensures E.DataFrames(header, [chunk]) == [F.PayloadData(header, chunk)]
  {
    hide F.PayloadData;
  }

  lemma WireOfNothing(c: SM.Crypto, k: E.Keys, iv: nat -> seq<U8>)
    ensures E.WireFrom(c, k, iv, 0, E.Plains([])) == []
  {
  }

  method Carry(sender: E.Peer, ghost s: Sent, o: Order) returns (wire: seq<U8>)
    requires sender.Valid() && Fits(s, o) && sender.calls == |s.ops| && sender.nextPayloadId == s.shared
    modifies sender, sender.channel`sendSeq
    ensures sender.Valid()
    ensures var t := SendOne(s, o); sender.calls == |t.ops| && sender.nextPayloadId == t.shared
    ensures E.WireFrom(sender.channel.crypto, sender.SendKeys(), sender.random, 0, E.Plains(SendOne(s, o).ops))
      == E.WireFrom(sender.channel.crypto, sender.SendKeys(), sender.random, 0, E.Plains(s.ops)) + wire
  {
    hide E.WireFrom, E.Plains, E.Cut, F.PayloadData, C.WireOf;
    WireFollows(sender.channel.crypto, sender.SendKeys(), sender.random, s, o);
    match o
    case Share(frame) =>
      OneFrame(E.SharingHeader(s.shared + 1, |frame|), F.PayloadChunk(1, 0, frame));
      wire := sender.SendSharing(frame);
    case SendFile(id, name, body, size) =>
      wire := sender.SendFile(id, name, body, size);
  }

  lemma OrdersBefore(orders: seq<Order>, i: nat)
    requires SendAll(orders).Some? && i <= |orders|
    ensures SendAll(orders[..i]).Some?
    ensures i < |orders| ==> Fits(SendAll(orders[..i]).value, orders[i])
    ensures i < |orders| ==> SendAll(orders[..i + 1]) == Some(SendOne(SendAll(orders[..i]).value, orders[i]))
    decreases |orders|
  {
    hide Fits, SendOne;
    var n := |orders| - 1;
    if i < n {
      OrdersBefore(orders[..n], i);
      assert orders[..n][..i] == orders[..i] && orders[..n][..i + 1] == orders[..i + 1];
    } else if i == n {
      assert orders[..n + 1] == orders;
    } else {
      assert orders[..i] == orders;
    }
  }

  /** The sender's calls, one after another on one wire. */
  method CarryAll(sender: E.Peer, orders: seq<Order>) returns (wire: seq<U8>)
    requires sender.Valid() && sender.calls == 0 && sender.nextPayloadId == 0 && SendAll(orders).Some?
    modifies sender, sender.channel`sendSeq
    ensures sender.Valid()
    ensures wire == Framing.EncodeAll(E.Seals(sender.channel.crypto, sender.SendKeys(), sender.random, SendAll(orders).value.ops))
  {
    hide E.Plains, Fits, SendOne, E.SealAll;
    wire := [];
    ghost var s := Sent(map[], [], 0);
    WireOfNothing(sender.channel.crypto, sender.SendKeys(), sender.random);
    for i := 0 to |orders|
      invariant sender.Valid() && SendAll(orders[..i]) == Some(s)
      invariant sender.calls == |s.ops| && sender.nextPayloadId == s.shared
      invariant wire == E.WireFrom(sender.channel.crypto, sender.SendKeys(), sender.random, 0, E.Plains(s.ops))
    {
      OrdersBefore(orders, i);
      var piece := Carry(sender, s, orders[i]);
      wire := wire + piece;
      s := SendOne(s, orders[i]);
    }
    assert orders[..|orders|] == orders;
  }

  /** The receiver's calls, one for each piece of the wire, stopping where the source unwraps. */
  method Take(receiver: E.Peer, pieces: seq<seq<U8>>) returns (out: seq<E.Received>, trouble: Option<E.Trouble>)
    requires receiver.Valid()
    modifies receiver.channel`recvSeq, receiver.decoder, receiver.assembler
    ensures receiver.Valid()
    ensures (receiver.Held(), out, trouble) == E.ReceiveAll(receiver.channel.crypto, receiver.RecvKeys(), old(receiver.Held()), pieces)
  {
    hide E.Pump;
    out, trouble := [], None;
    ghost var c, k, start := receiver.channel.crypto, receiver.RecvKeys(), receiver.Held();
    E.Whole(E.ReceiveAll(c, k, start, pieces).1);
    for i := 0 to |pieces|
      invariant receiver.Valid() && trouble == None
      invariant E.ReceiveAll(c, k, start, pieces) == var (st, more, t) := E.ReceiveAll(c, k, receiver.Held(), pieces[i..]); (st, out + more, t)
    {
      assert pieces[i..][1..] == pieces[i + 1..];
      var more;
      ghost var st := receiver.Held();
      more, trouble := receiver.Receive(pieces[i]);
      if trouble.Some? {
        out := out + more;
        return;
      }
      Associate(out, more, E.ReceiveAll(c, k, receiver.Held(), pieces[i + 1..]).1);
      out := out + more;
    }
    assert pieces[|pieces|..] == [];
  }

  /**
    Two peers. Whatever frames and files one is told to send, and however the wire between
    them is cut, the other hands up every frame whole and every file chunk by chunk where it
    belongs, in the order they were sent, and never stops or holds a byte back.
   */
  method Exchange(sender: E.Peer, receiver: E.Peer, orders: seq<Order>, cut: seq<U8> -> seq<seq<U8>>)
    returns (out: seq<E.Received>, trouble: Option<E.Trouble>)
    requires sender.Valid() && sender.calls == 0 && sender.nextPayloadId == 0
    requires receiver.Valid() && receiver.Held() == E.Receiver(0, [], map[]) && receiver.channel != sender.channel
    requires SM.Inverts(sender.channel.crypto) && receiver.channel.crypto == sender.channel.crypto
    requires receiver.channel.keys == sender.channel.keys && receiver.channel.role == C.Peer(sender.channel.role)
    requires forall wire :: Framing.Join(cut(wire)) == wire
    requires SendAll(orders).Some?
    requires E.AllCarriable(sender.channel.crypto, sender.SendKeys(), sender.random, SendAll(orders).value.ops)
    modifies sender, sender.channel`sendSeq, receiver.channel`recvSeq, receiver.decoder, receiver.assembler
    ensures trouble == None && receiver.decoder.buf == []
    ensures (forall k :: 0 <= k < |orders| ==> WellFormed(orders[k])) && out == Arrivals(orders)
  {
    hide E.Seals, E.ReceiveAll, S.Interleaving, S.Replies, E.SurfaceAll, Arrivals, SendAll, WellFormed, SM.Inverts, E.AllCarriable;
    OrdersInterleave(orders);
    ghost var s := SendAll(orders).value;
    ghost var c, k := sender.channel.crypto, sender.SendKeys();
    KeySized(sender);
    C.DirectionsMeet(sender.channel.keys, sender.channel.role);
    var wire := CarryAll(sender, orders);
    out, trouble := Take(receiver, cut(wire));
    E.WholeStack(c, k, sender.random, s.plans, s.ops, cut(wire));
  }

  lemma KeySized(p: E.Peer)
    requires p.Valid()
    ensures |p.SendKeys().0| == SM.AES_KEY_SIZE
  {
  }
}
