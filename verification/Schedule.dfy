/**
  Payloads cut into chunks and interleaved on one connection, and what the assembler makes
  of them.
 */
module Schedule {
  import opened Bytes
  import F = Frames
  import opened Payload

  /** One payload: the header every frame repeats, and the chunks in order. */
  datatype Plan = Plan(header: F.PayloadHeader, chunks: seq<F.PayloadChunk>)

  function Body(chunks: seq<F.PayloadChunk>): seq<U8> {
    if chunks == [] then [] else Body(chunks[..|chunks| - 1]) + chunks[|chunks| - 1].body
  }

  /** Chunks tile the body in order and only the final one carries the last-chunk flag. */
  predicate WellCut(p: Plan) {
    && p.chunks != []
    && (p.header.payloadType.BytesPayload? || p.header.payloadType.FilePayload?)
    && p.header.totalSize == |Body(p.chunks)|
    && (p.header.payloadType.BytesPayload? ==> |Body(p.chunks)| <= MAX_BYTES_PAYLOAD)
    && forall k :: 0 <= k < |p.chunks| ==>
      p.chunks[k].offset == |Body(p.chunks[..k])| && (p.chunks[k].IsLast() <==> k == |p.chunks| - 1)
  }

  function FeedOf(p: Plan, k: nat): Op
    requires k < |p.chunks|
  {
    Feed(F.PayloadTransfer(F.Data, p.header, Some(p.chunks[k]), None))
  }

  function Feeds(p: Plan): seq<Op> {
    seq(|p.chunks|, k requires 0 <= k < |p.chunks| => FeedOf(p, k))
  }

  /** The reply each frame of a payload should draw. */
  function Expected(p: Plan, k: nat): Reply
    requires k < |p.chunks|
  {
    var c := p.chunks[k];
    if p.header.payloadType.BytesPayload? then
      if k == |p.chunks| - 1 then Ok(BytesEvent(p.header.id, Body(p.chunks))) else Ok(Pending)
    else Ok(FileChunk(p.header.id, c.offset, c.body, k == |p.chunks| - 1, p.header))
  }

  function Part(p: Plan, k: nat): Option<InFlight>
    requires k <= |p.chunks| && |Body(p.chunks[..k])| <= I64_MAX
  {
    if k == 0 || k == |p.chunks| then None
    else Some(InFlight(p.header, |Body(p.chunks[..k])|, if p.header.payloadType.BytesPayload? then Body(p.chunks[..k]) else []))
  }

  lemma BodySnoc(chunks: seq<F.PayloadChunk>, k: nat)
    requires k < |chunks|
    ensures Body(chunks[..k + 1]) == Body(chunks[..k]) + chunks[k].body
  {
    assert chunks[..k + 1][..k] == chunks[..k];
  }

  lemma {:induction false} BodyGrows(chunks: seq<F.PayloadChunk>, k: nat)
    requires k <= |chunks|
    ensures |Body(chunks[..k])| <= |Body(chunks)|
    decreases |chunks| - k
  {
    if k == |chunks| {
      assert chunks[..k] == chunks;
    } else {
      BodySnoc(chunks, k);
      BodyGrows(chunks, k + 1);
    }
  }

  lemma SlotExpected(p: Plan, k: nat)
    requires WellCut(p) && k < |p.chunks| && |Body(p.chunks[..k])| <= |Body(p.chunks[..k + 1])| <= |Body(p.chunks)|
    ensures Slot(Part(p, k), FeedOf(p, k).pt) == (Part(p, k + 1), Expected(p, k))
  {
    BodySnoc(p.chunks, k);
    assert p.chunks[..|p.chunks|] == p.chunks;
    var c := p.chunks[k];
    assert c.offset == |Body(p.chunks[..k])|;
    assert SaturatingAdd(c.offset, |c.body|) == |Body(p.chunks[..k + 1])|;
    if k == 0 {
      assert p.chunks[..0] == [];
      assert [] + c.body == c.body;
    }
  }

  /** A payload on its own: where its slot stands after `k` frames. */
  lemma {:induction false} Alone(p: Plan, k: nat)
    requires WellCut(p) && k <= |p.chunks|
    ensures |Body(p.chunks[..k])| <= I64_MAX
    ensures Get(Run(Feeds(p)[..k]).table, p.header.id) == Part(p, k)
  {
    hide *;
    CutFits(p, k);
    if k == 0 {
      AloneStart(p);
    } else {
      Alone(p, k - 1);
      CutFits(p, k - 1);
      BodyGrows(p.chunks, k - 1);
      BodySnoc(p.chunks, k - 1);
      SlotExpected(p, k - 1);
      FeedsNext(p, k - 1);
      var before, op := Feeds(p)[..k - 1], FeedOf(p, k - 1);
      RunSnoc(before, op);
      FeedsConcern(p, k - 1);
      AloneKeys(before, p.header.id);
      KeptIsNonNegative(Run(before).table);
      StepSlot(Run(before), op.pt);
    }
  }

  lemma CutFits(p: Plan, k: nat)
    requires WellCut(p) && k <= |p.chunks|
    ensures |Body(p.chunks[..k])| <= |Body(p.chunks)| <= I64_MAX
  {
    BodyGrows(p.chunks, k);
  }

  lemma AloneStart(p: Plan)
    requires WellCut(p)
    ensures Get(Run(Feeds(p)[..0]).table, p.header.id) == None
    ensures |Body(p.chunks[..0])| == 0 && Part(p, 0) == None
  {
  }

  lemma FeedsNext(p: Plan, k: nat)
    requires k < |p.chunks|
    ensures |Feeds(p)| == |p.chunks| && Feeds(p)[..k + 1] == Feeds(p)[..k] + [FeedOf(p, k)]
    ensures FeedOf(p, k).Feed? && FeedOf(p, k).pt.header.id == p.header.id
  {
  }

  lemma FeedsConcern(p: Plan, k: nat)
    requires k <= |p.chunks|
    ensures forall i :: 0 <= i < k ==> Concerns(Feeds(p)[..k][i], p.header.id)
  {
  }

  lemma StepSlot(s: State, pt: F.PayloadTransfer)
    requires NonNegative(s.table) && |s.table| <= 1
    ensures Get(Step(s, Feed(pt)).table, pt.header.id) == Slot(Get(s.table, pt.header.id), pt).0
  {
  }

  // ------------------------------------------------------------------ interleavings ---

  type Plans = map<I64, Plan>

  predicate WellPlanned(plans: Plans) {
    forall id :: id in plans ==> plans[id].header.id == id && WellCut(plans[id])
  }

  /** How many frames of payload `id` are among the first `j`. */
  function Progress(ops: seq<Op>, j: nat, id: I64): nat
    requires j <= |ops|
  {
    |Only(ops[..j], id)|
  }

  /** The payloads part-way through while frame `j` is handled, its own included. */
  function During(plans: Plans, ops: seq<Op>, j: nat): set<I64>
    requires j < |ops|
  {
    set id | id in plans && Progress(ops, j, id) < |plans[id].chunks|
      && (Progress(ops, j, id) > 0 || Concerns(ops[j], id))
  }

  /** Any interleaving of the payloads' frames with at most 32 payloads in flight at a time. */
  ghost predicate Interleaving(plans: Plans, ops: seq<Op>) {
    && WellPlanned(plans)
    && (forall j :: 0 <= j < |ops| ==> ops[j].Feed? && ops[j].pt.header.id in plans)
    && (forall id :: id in plans ==> Only(ops, id) == Feeds(plans[id]))
    && forall j :: 0 <= j < |ops| ==> |During(plans, ops, j)| <= MAX_IN_FLIGHT
  }

  lemma {:induction false} OnlyPrefix(ops: seq<Op>, j: nat, id: I64)
    requires j <= |ops|
    ensures Only(ops[..j], id) <= Only(ops, id)
    decreases |ops| - j
  {
    if j == |ops| {
      assert ops[..j] == ops;
    } else {
      assert ops[..j + 1] == ops[..j] + [ops[j]];
      OnlySnoc(ops[..j], ops[j], id);
      OnlyPrefix(ops, j + 1, id);
    }
  }

  /** Where a payload stands after the first `j` frames, as long as none was refused. */
  lemma TableAt(plans: Plans, ops: seq<Op>, j: nat, id: I64)
    requires Interleaving(plans, ops) && j <= |ops| && Uncapped(Run(ops[..j]).log) && id in plans
    ensures Progress(ops, j, id) <= |plans[id].chunks|
    ensures Only(ops[..j], id) == Feeds(plans[id])[..Progress(ops, j, id)]
    ensures id in Run(ops[..j]).table <==> 0 < Progress(ops, j, id) < |plans[id].chunks|
  {
    hide *;
    var only := Only(ops[..j], id);
    PlanOf(plans, ops, id);
    OnlyPrefix(ops, j, id);
    Front(only, Feeds(plans[id]));
    FeedsCount(plans[id]);
    ProgressIs(ops, j, id);
    Independence(ops[..j], id);
    Alone(plans[id], |only|);
    PartMeans(plans[id], |only|);
    GetMeans(Run(ops[..j]).table, id);
  }

  lemma PlanOf(plans: Plans, ops: seq<Op>, id: I64)
    requires Interleaving(plans, ops) && id in plans
    ensures WellCut(plans[id]) && plans[id].header.id == id && Only(ops, id) == Feeds(plans[id])
  {
    hide WellCut, Only, Feeds, During;
  }

  lemma Front<T>(a: seq<T>, b: seq<T>)
    requires a <= b
    ensures |a| <= |b| && a == b[..|a|]
  {
  }

  lemma FeedsCount(p: Plan)
    ensures |Feeds(p)| == |p.chunks|
  {
  }

  lemma ProgressIs(ops: seq<Op>, j: nat, id: I64)
    requires j <= |ops|
    ensures Progress(ops, j, id) == |Only(ops[..j], id)|
  {
  }

  lemma PartMeans(p: Plan, k: nat)
    requires k <= |p.chunks| && |Body(p.chunks[..k])| <= I64_MAX
    ensures Part(p, k).Some? <==> 0 < k < |p.chunks|
  {
    hide Body;
  }

  lemma GetMeans(m: Table, id: I64)
    ensures Get(m, id).Some? <==> id in m
  {
  }

  lemma StepKeys(s: State, op: Op)
    requires NonNegative(s.table) && op.Feed?
    ensures Step(s, op).table.Keys <= s.table.Keys + {op.pt.header.id}
  {
  }

  lemma {:induction false} OnlyKnown(plans: Plans, ops: seq<Op>, j: nat)
    requires j <= |ops| && forall i :: 0 <= i < |ops| ==> ops[i].Feed? && ops[i].pt.header.id in plans
    ensures Run(ops[..j]).table.Keys <= plans.Keys
  {
    hide Step;
    if j > 0 {
      OnlyKnown(plans, ops, j - 1);
      RunNext(ops, j - 1);
      StepKeys(Run(ops[..j - 1]), ops[j - 1]);
    }
  }

  lemma RunNext(ops: seq<Op>, j: nat)
    requires j < |ops|
    ensures Run(ops[..j + 1]) == Step(Run(ops[..j]), ops[j])
  {
    assert ops[..j + 1] == ops[..j] + [ops[j]];
    RunSnoc(ops[..j], ops[j]);
  }

  lemma OnlyNext(ops: seq<Op>, j: nat, id: I64)
    requires j < |ops|
    ensures Only(ops[..j + 1], id) == Only(ops[..j], id) + if Concerns(ops[j], id) then [ops[j]] else []
  {
    assert ops[..j + 1] == ops[..j] + [ops[j]];
    OnlySnoc(ops[..j], ops[j], id);
  }

  lemma OnlyAt(ops: seq<Op>, j: nat, id: I64)
    requires j < |ops| && Concerns(ops[j], id)
    ensures |Only(ops[..j], id)| < |Only(ops, id)|
    ensures Only(ops, id)[|Only(ops[..j], id)|] == ops[j]
  {
    OnlyNext(ops, j, id);
    OnlyPrefix(ops, j + 1, id);
    var a, b := Only(ops[..j], id), Only(ops[..j + 1], id);
    assert b[|a|] == ops[j];
  }

  lemma NewcomerFits(plans: Plans, ops: seq<Op>, j: nat)
    requires Interleaving(plans, ops) && j < |ops| && Uncapped(Run(ops[..j]).log)
    ensures !CapHit(Run(ops[..j]).table, ops[j].pt)
  {
    hide *;
    AllPlanned(plans, ops);
    DuringFits(plans, ops, j);
    NotYetDone(plans, ops, j);
    OnlyKnown(plans, ops, j);
    var m, id := Run(ops[..j]).table, ops[j].pt.header.id;
    if id !in m {
      var during := During(plans, ops, j);
      forall other | other in m ensures other in during {
        TableAt(plans, ops, j, other);
        InDuring(plans, ops, j, other);
      }
      OwnIsDuring(plans, ops, j);
      Smaller(m.Keys, during);
      assert |m| == |m.Keys|;
    }
    RoomLeft(m, ops[j].pt);
  }

  lemma RoomLeft(m: Table, pt: F.PayloadTransfer)
    requires pt.header.id in m || |m| < MAX_IN_FLIGHT
    ensures !CapHit(m, pt)
  {
  }

  lemma AllPlanned(plans: Plans, ops: seq<Op>)
    requires Interleaving(plans, ops)
    ensures forall i :: 0 <= i < |ops| ==> ops[i].Feed? && ops[i].pt.header.id in plans
  {
    hide WellPlanned, During, Only, Feeds;
  }

  lemma DuringFits(plans: Plans, ops: seq<Op>, j: nat)
    requires Interleaving(plans, ops) && j < |ops|
    ensures |During(plans, ops, j)| <= MAX_IN_FLIGHT
  {
    hide WellPlanned, During, Only, Feeds;
  }

  lemma InDuring(plans: Plans, ops: seq<Op>, j: nat, id: I64)
    requires j < |ops| && id in plans && 0 < Progress(ops, j, id) < |plans[id].chunks|
    ensures id in During(plans, ops, j)
  {
    hide Progress;
  }

  lemma OwnIsDuring(plans: Plans, ops: seq<Op>, j: nat)
    requires j < |ops| && ops[j].Feed? && ops[j].pt.header.id in plans
    requires Progress(ops, j, ops[j].pt.header.id) < |plans[ops[j].pt.header.id].chunks|
    ensures ops[j].pt.header.id in During(plans, ops, j)
  {
    hide Progress;
  }

  lemma NotYetDone(plans: Plans, ops: seq<Op>, j: nat)
    requires Interleaving(plans, ops) && j < |ops|
    ensures var id := ops[j].pt.header.id; Progress(ops, j, id) < |plans[id].chunks|
    ensures var id := ops[j].pt.header.id; ops[j] == FeedOf(plans[id], Progress(ops, j, id))
  {
    var id := ops[j].pt.header.id;
    OnlyAt(ops, j, id);
  }

  lemma {:induction false} Smaller(a: set<I64>, b: set<I64>)
    requires a < b
    ensures |a| < |b|
  {
    var x :| x in b && x !in a;
    Included(a, b - {x});
  }

  lemma {:induction false} Included(a: set<I64>, b: set<I64>)
    requires a <= b
    ensures |a| <= |b|
  {
    if a != {} {
      var x :| x in a;
      Included(a - {x}, b - {x});
    }
  }

  lemma UncappedStep(s: State, pt: F.PayloadTransfer)
    requires NonNegative(s.table) && Uncapped(s.log) && !CapHit(s.table, pt)
    ensures Uncapped(Step(s, Feed(pt)).log)
  {
    LogSnoc(s, Feed(pt));
  }

  lemma FrameAt(plans: Plans, ops: seq<Op>, j: nat)
    requires Interleaving(plans, ops) && j < |ops|
    ensures ops[j].Feed? && ops[j].pt.header.id in plans && WellKept(Run(ops[..j]).table)
  {
  }

  lemma UncappedAtFirst(ops: seq<Op>)
    ensures Uncapped(Run(ops[..0]).log)
  {
  }

  lemma KeptIsNonNegative(m: Table)
    requires WellKept(m)
    ensures NonNegative(m)
  {
  }

  lemma {:induction false} NeverCapped(plans: Plans, ops: seq<Op>, j: nat)
    requires Interleaving(plans, ops) && j <= |ops|
    ensures Uncapped(Run(ops[..j]).log)
  {
    hide *;
    if j == 0 {
      UncappedAtFirst(ops);
    } else {
      FrameAt(plans, ops, j - 1);
      KeptIsNonNegative(Run(ops[..j - 1]).table);
      NeverCapped(plans, ops, j - 1);
      NewcomerFits(plans, ops, j - 1);
      RunNext(ops, j - 1);
      UncappedStep(Run(ops[..j - 1]), ops[j - 1].pt);
      FeedIs(ops[j - 1]);
    }
  }

  lemma FeedIs(op: Op)
    requires op.Feed?
    ensures op == Feed(op.pt)
  {
  }

  /**
    Every interleaving within the cap: each frame draws exactly the reply its own payload
    would have drawn alone.
   */
  lemma EveryReplyExpected(plans: Plans, ops: seq<Op>, j: nat)
    requires Interleaving(plans, ops) && j < |ops|
    ensures var id := ops[j].pt.header.id;
      && Progress(ops, j, id) < |plans[id].chunks|
      && Accept(Run(ops[..j]).table, ops[j].pt).1 == Expected(plans[id], Progress(ops, j, id))
  {
    var id := ops[j].pt.header.id;
    var k := Progress(ops, j, id);
    NeverCapped(plans, ops, j);
    NewcomerFits(plans, ops, j);
    NotYetDone(plans, ops, j);
    TableAt(plans, ops, j, id);
    Independence(ops[..j], id);
    Alone(plans[id], k);
    BodyGrows(plans[id].chunks, k);
    BodyGrows(plans[id].chunks, k + 1);
    BodySnoc(plans[id].chunks, k);
    SlotExpected(plans[id], k);
  }

  // -------------------------------------------------------------- what comes out of it ---

  /** What one reply adds to payload `id`: file bytes as they come, BYTES payloads whole. */
  function Delivers(r: Reply, id: I64): seq<U8> {
    match r
    case Ok(FileChunk(i, _, data, _, _)) => if i == id then data else []
    case Ok(BytesEvent(i, data)) => if i == id then data else []
    case _ => []
  }

  function Received(replies: seq<Reply>, id: I64): seq<U8> {
    if replies == [] then [] else Received(replies[..|replies| - 1], id) + Delivers(replies[|replies| - 1], id)
  }

  function Replies(plans: Plans, ops: seq<Op>): seq<Reply>
    requires forall j :: 0 <= j < |ops| ==> ops[j].Feed?
  {
    seq(|ops|, j requires 0 <= j < |ops| => Accept(Run(ops[..j]).table, ops[j].pt).1)
  }

  function BytesSoFar(p: Plan, k: nat): seq<U8>
    requires k <= |p.chunks|
  {
    if p.header.payloadType.BytesPayload? then (if k == |p.chunks| then Body(p.chunks) else []) else Body(p.chunks[..k])
  }

  lemma ReceivedStep(p: Plan, k: nat)
    requires WellCut(p) && k < |p.chunks|
    ensures BytesSoFar(p, k) + Delivers(Expected(p, k), p.header.id) == BytesSoFar(p, k + 1)
  {
    BodySnoc(p.chunks, k);
  }

  lemma ReceivedNext(replies: seq<Reply>, j: nat, id: I64)
    requires j < |replies|
    ensures Received(replies[..j + 1], id) == Received(replies[..j], id) + Delivers(replies[j], id)
  {
    assert replies[..j + 1][..j] == replies[..j];
  }

  lemma ReplyAt(plans: Plans, ops: seq<Op>, j: nat)
    requires Interleaving(plans, ops) && j < |ops|
    ensures var id := ops[j].pt.header.id;
      Progress(ops, j, id) < |plans[id].chunks| && Replies(plans, ops)[j] == Expected(plans[id], Progress(ops, j, id))
  {
    hide Interleaving, Accept, Run, Only;
    EveryReplyExpected(plans, ops, j);
  }

  /** How frame `j` moves the count of payload `id` and what has been delivered for it. */
  lemma OneMore(plans: Plans, ops: seq<Op>, j: nat, id: I64)
    requires Interleaving(plans, ops) && j < |ops| && id in plans
    requires Progress(ops, j, id) <= |plans[id].chunks|
    ensures Progress(ops, j + 1, id) <= |plans[id].chunks|
    ensures BytesSoFar(plans[id], Progress(ops, j, id)) + Delivers(Replies(plans, ops)[j], id)
      == BytesSoFar(plans[id], Progress(ops, j + 1, id))
  {
    hide Accept, Run, Only;
    ReplyAt(plans, ops, j);
    OnlyNext(ops, j, id);
    var owner := ops[j].pt.header.id;
    if owner == id {
      ReceivedStep(plans[id], Progress(ops, j, id));
    } else {
      assert Delivers(Expected(plans[owner], Progress(ops, j, owner)), id) == [];
    }
  }

  lemma AllFeeds(plans: Plans, ops: seq<Op>)
    requires Interleaving(plans, ops)
    ensures forall j :: 0 <= j < |ops| ==> ops[j].Feed?
    ensures |Replies(plans, ops)| == |ops|
  {
  }

  lemma ReceivedAtFirst(plans: Plans, ops: seq<Op>, id: I64)
    requires Interleaving(plans, ops) && id in plans
    ensures Progress(ops, 0, id) == 0
    ensures Received(Replies(plans, ops)[..0], id) == BytesSoFar(plans[id], 0)
  {
    assert ops[..0] == [];
    assert plans[id].chunks[..0] == [];
  }

  lemma {:induction false} ReceivedSoFar(plans: Plans, ops: seq<Op>, j: nat, id: I64)
    requires Interleaving(plans, ops) && j <= |ops| && id in plans
    ensures Progress(ops, j, id) <= |plans[id].chunks|
    ensures Received(Replies(plans, ops)[..j], id) == BytesSoFar(plans[id], Progress(ops, j, id))
  {
    hide *;
    AllFeeds(plans, ops);
    if j == 0 {
      ReceivedAtFirst(plans, ops, id);
    } else {
      ReceivedSoFar(plans, ops, j - 1, id);
      ReceivedNext(Replies(plans, ops), j - 1, id);
      OneMore(plans, ops, j - 1, id);
    }
  }

  lemma AllProgress(plans: Plans, ops: seq<Op>, id: I64)
    requires Interleaving(plans, ops) && id in plans
    ensures Progress(ops, |ops|, id) == |plans[id].chunks| && plans[id].chunks != []
  {
    assert ops[..|ops|] == ops;
    assert Only(ops, id) == Feeds(plans[id]) && WellCut(plans[id]);
  }

  lemma AllBytes(p: Plan)
    ensures BytesSoFar(p, |p.chunks|) == Body(p.chunks)
  {
    hide Body;
    assert p.chunks[..|p.chunks|] == p.chunks;
  }

  /** Every payload arrives whole: the bytes delivered for it are exactly its body. */
  lemma EveryPayloadWhole(plans: Plans, ops: seq<Op>, id: I64)
    requires Interleaving(plans, ops) && id in plans
    ensures Received(Replies(plans, ops), id) == Body(plans[id].chunks)
  {
    hide *;
    AllFeeds(plans, ops);
    ReceivedSoFar(plans, ops, |ops|, id);
    assert Replies(plans, ops)[..|ops|] == Replies(plans, ops);
    AllProgress(plans, ops, id);
    AllBytes(plans[id]);
  }

  /** Frame `j` is the last one of payload `id`. */
  predicate Finishes(plans: Plans, ops: seq<Op>, j: nat, id: I64) {
    j < |ops| && id in plans && Concerns(ops[j], id) && Progress(ops, j, id) + 1 == |plans[id].chunks|
  }

  lemma {:induction false} ProgressGrows(ops: seq<Op>, i: nat, j: nat, id: I64)
    requires i <= j <= |ops|
    ensures Progress(ops, i, id) <= Progress(ops, j, id)
    decreases j
  {
    hide Only;
    if i < j {
      ProgressGrows(ops, i, j - 1, id);
      OnlyNext(ops, j - 1, id);
    }
  }

  lemma StartsAtZero(ops: seq<Op>, id: I64)
    ensures Progress(ops, 0, id) == 0
  {
    assert ops[..0] == [];
  }

  lemma {:induction false} ReachedBy(plans: Plans, ops: seq<Op>, m: nat, id: I64) returns (j: nat)
    requires id in plans && plans[id].chunks != [] && m <= |ops| && Progress(ops, m, id) == |plans[id].chunks|
    ensures Finishes(plans, ops, j, id)
    decreases m
  {
    hide Only;
    StartsAtZero(ops, id);
    OnlyNext(ops, m - 1, id);
    if Concerns(ops[m - 1], id) {
      j := m - 1;
    } else {
      j := ReachedBy(plans, ops, m - 1, id);
    }
  }

  lemma NotTwice(plans: Plans, ops: seq<Op>, i: nat, j: nat, id: I64)
    requires Finishes(plans, ops, i, id) && i < j
    ensures !Finishes(plans, ops, j, id)
  {
    hide Only;
    OnlyNext(ops, i, id);
    if j < |ops| {
      ProgressGrows(ops, i + 1, j, id);
    }
  }

  /** Every payload is finished, and only once. */
  lemma FinishesOnce(plans: Plans, ops: seq<Op>, id: I64) returns (j: nat)
    requires Interleaving(plans, ops) && id in plans
    ensures Finishes(plans, ops, j, id) && forall i: nat :: Finishes(plans, ops, i, id) ==> i == j
  {
    hide *;
    AllProgress(plans, ops, id);
    j := ReachedBy(plans, ops, |ops|, id);
    forall i: nat | Finishes(plans, ops, i, id) ensures i == j {
      if i < j {
        NotTwice(plans, ops, i, j, id);
      } else if j < i {
        NotTwice(plans, ops, j, i, id);
      }
    }
  }

  // ------------------------------------------------------------- one after another ---

  function ExpectedAll(p: Plan): seq<Reply> {
    seq(|p.chunks|, k requires 0 <= k < |p.chunks| => Expected(p, k))
  }

  lemma {:induction false} NoneOf(plans: Plans, ops: seq<Op>, id: I64)
    requires id !in plans && forall j :: 0 <= j < |ops| ==> ops[j].Feed? && ops[j].pt.header.id in plans
    ensures Only(ops, id) == []
    decreases |ops|
  {
    if ops != [] {
      NoneOf(plans, ops[..|ops| - 1], id);
    }
  }

  lemma {:induction false} OnlyThen(ops: seq<Op>, p: Plan, k: nat, id: I64)
    requires k <= |p.chunks|
    ensures Only(ops + Feeds(p)[..k], id) == Only(ops, id) + if id == p.header.id then Feeds(p)[..k] else []
    decreases k
  {
    hide Only, Feeds;
    if k == 0 {
      assert ops + Feeds(p)[..0] == ops;
    } else {
      OnlyThen(ops, p, k - 1, id);
      FeedsNext(p, k - 1);
      assert ops + Feeds(p)[..k] == (ops + Feeds(p)[..k - 1]) + [FeedOf(p, k - 1)];
      OnlySnoc(ops + Feeds(p)[..k - 1], FeedOf(p, k - 1), id);
    }
  }

  lemma ThenAt(ops: seq<Op>, p: Plan, j: nat, id: I64)
    requires j <= |ops| + |p.chunks|
    ensures |Feeds(p)| == |p.chunks|
    ensures j <= |ops| ==> (ops + Feeds(p))[..j] == ops[..j] && Progress(ops + Feeds(p), j, id) == Progress(ops, j, id)
    ensures j >= |ops| ==> Progress(ops + Feeds(p), j, id) == |Only(ops, id)| + if id == p.header.id then j - |ops| else 0
  {
    hide Only;
    if j <= |ops| {
      assert (ops + Feeds(p))[..j] == ops[..j];
    }
    if j >= |ops| {
      assert (ops + Feeds(p))[..j] == ops + Feeds(p)[..j - |ops|];
      OnlyThen(ops, p, j - |ops|, id);
    }
  }

  lemma DuringThen(plans: Plans, ops: seq<Op>, p: Plan, j: nat)
    requires Interleaving(plans, ops) && WellCut(p) && p.header.id !in plans && j < |ops| + |p.chunks|
    ensures |During(plans[p.header.id := p], ops + Feeds(p), j)| <= MAX_IN_FLIGHT
  {
    hide WellCut, Only, Progress, Concerns;
    var id, all, both := p.header.id, ops + Feeds(p), plans[p.header.id := p];
    forall other ensures j <= |ops| ==> Progress(all, j, other) == Progress(ops, j, other) {
      ThenAt(ops, p, j, other);
    }
    ThenAt(ops, p, j, id);
    NoneOf(plans, ops, id);
    if j < |ops| {
      ConcernsPlanned(plans, ops, j, id);
      NoProgress(plans, ops, j, id);
      assert During(both, all, j) == During(plans, ops, j);
    } else {
      forall other | other in plans ensures Progress(all, j, other) == |plans[other].chunks| {
        ThenAt(ops, p, j, other);
      }
      Included(During(both, all, j), {id});
    }
  }

  lemma ConcernsPlanned(plans: Plans, ops: seq<Op>, j: nat, id: I64)
    requires Interleaving(plans, ops) && j < |ops| && id !in plans
    ensures !Concerns(ops[j], id)
  {
  }

  lemma NoProgress(plans: Plans, ops: seq<Op>, j: nat, id: I64)
    requires Interleaving(plans, ops) && j <= |ops| && id !in plans
    ensures Progress(ops, j, id) == 0
  {
    NoneOf(plans, ops[..j], id);
  }

  /** A payload sent whole after an interleaving makes one again. */
  lemma Then(plans: Plans, ops: seq<Op>, p: Plan)
    requires Interleaving(plans, ops) && WellCut(p) && p.header.id !in plans
    ensures Interleaving(plans[p.header.id := p], ops + Feeds(p))
  {
    hide WellCut, Only, Progress, During;
    var id, all, both := p.header.id, ops + Feeds(p), plans[p.header.id := p];
    forall other | other in both ensures Only(all, other) == Feeds(both[other]) {
      OnlyThen(ops, p, |p.chunks|, other);
      assert Feeds(p)[..|p.chunks|] == Feeds(p);
      NoneOf(plans, ops, id);
    }
    forall j | 0 <= j < |all| ensures |During(both, all, j)| <= MAX_IN_FLIGHT {
      DuringThen(plans, ops, p, j);
    }
  }

  lemma SameReply(plans: Plans, both: Plans, ops: seq<Op>, all: seq<Op>, j: nat)
    requires j < |ops| <= |all| && ops[..j] == all[..j] && ops[j] == all[j]
    requires (forall j :: 0 <= j < |ops| ==> ops[j].Feed?) && forall j :: 0 <= j < |all| ==> all[j].Feed?
    ensures Replies(plans, ops)[j] == Replies(both, all)[j]
  {
  }

  lemma NextReply(plans: Plans, both: Plans, ops: seq<Op>, p: Plan, k: nat)
    requires k < |p.chunks| && p.header.id in both && both[p.header.id] == p && Interleaving(both, ops + Feeds(p))
    requires Only(ops, p.header.id) == []
    ensures |Replies(both, ops + Feeds(p))| == |ops| + |p.chunks|
    ensures Replies(both, ops + Feeds(p))[|ops| + k] == Expected(p, k)
  {
    hide Interleaving, Replies, Only, Progress, Expected;
    AllFeeds(both, ops + Feeds(p));
    ThenAt(ops, p, |ops| + k, p.header.id);
    ReplyAt(both, ops + Feeds(p), |ops| + k);
  }

  lemma FeedsLength(p: Plan)
    ensures |Feeds(p)| == |p.chunks| == |ExpectedAll(p)|
    ensures forall k :: 0 <= k < |p.chunks| ==> ExpectedAll(p)[k] == Expected(p, k)
  {
  }

  lemma Glue<T>(all: seq<T>, a: seq<T>, b: seq<T>)
    requires |all| == |a| + |b| && forall j :: 0 <= j < |all| ==> all[j] == if j < |a| then a[j] else b[j - |a|]
    ensures all == a + b
  {
  }

  lemma Untouched(plans: Plans, ops: seq<Op>, id: I64)
    requires Interleaving(plans, ops) && id !in plans
    ensures Only(ops, id) == []
  {
    NoneOf(plans, ops, id);
  }

  lemma ThenReply(plans: Plans, ops: seq<Op>, p: Plan, both: Plans, all: seq<Op>, j: nat)
    requires Interleaving(plans, ops) && p.header.id !in plans && j < |ops| + |p.chunks|
    requires both == plans[p.header.id := p] && all == ops + Feeds(p) && Interleaving(both, all)
    ensures |Replies(both, all)| == |ops| + |p.chunks| && |Replies(plans, ops)| == |ops|
    ensures Replies(both, all)[j] == if j < |ops| then Replies(plans, ops)[j] else Expected(p, j - |ops|)
  {
    hide *;
    AllFeeds(plans, ops);
    AllFeeds(both, all);
    FeedsLength(p);
    if j < |ops| {
      assert all[..j] == ops[..j];
      SameReply(plans, both, ops, all, j);
    } else {
      Untouched(plans, ops, p.header.id);
      NextReply(plans, both, ops, p, j - |ops|);
    }
  }

  /** ... and draws the replies it would draw alone. */
  lemma ThenReplies(plans: Plans, ops: seq<Op>, p: Plan)
    requires Interleaving(plans, ops) && p.header.id !in plans && Interleaving(plans[p.header.id := p], ops + Feeds(p))
    ensures Replies(plans[p.header.id := p], ops + Feeds(p)) == Replies(plans, ops) + ExpectedAll(p)
  {
    hide *;
    AllFeeds(plans, ops);
    AllFeeds(plans[p.header.id := p], ops + Feeds(p));
    var all, both := ops + Feeds(p), plans[p.header.id := p];
    FeedsLength(p);
    forall j | 0 <= j < |all| ensures Replies(both, all)[j] == if j < |ops| then Replies(plans, ops)[j] else Expected(p, j - |ops|) {
      ThenReply(plans, ops, p, both, all, j);
    }
    Glue(Replies(both, all), Replies(plans, ops), ExpectedAll(p));
  }
}
