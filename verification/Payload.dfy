/** Reassembling payloads from chunks, with every refusal the receiver makes. */
module Payload {
  import opened Bytes
  import F = Frames

  const MAX_BYTES_PAYLOAD := 1024 * 1024
  const MAX_IN_FLIGHT := 32
  const I64_MAX := 0x7FFF_FFFF_FFFF_FFFF

  datatype Event =
    | BytesEvent(id: I64, data: seq<U8>)
    | FileChunk(id: I64, offset: I64, data: seq<U8>, last: bool, header: F.PayloadHeader)
    | Cancelled(id: I64)
    | Failed(id: I64)
    | Pending

  datatype Error =
    | Offset(id: I64, expected: I64, got: I64)
    | Overrun(id: I64, declared: I64)
    | TooLarge(id: I64, limit: nat)
    | Negative(id: I64)
    | TooManyInFlight(id: I64, limit: nat)

  datatype InFlight = InFlight(header: F.PayloadHeader, received: I64, buffer: seq<U8>)

  type Table = map<I64, InFlight>
  type Reply = Result<Event, Error>

  function Get(m: Table, id: I64): Option<InFlight> {
    if id in m then Some(m[id]) else None
  }

  function Put(m: Table, id: I64, o: Option<InFlight>): Table {
    if o.Some? then m[id := o.value] else m - {id}
  }

  function SaturatingAdd(a: nat, b: nat): I64 {
    if a + b > I64_MAX then I64_MAX else a + b
  }

  /** A chunk meets the entry it belongs to, or a fresh one. */
  function Chunk(entry: InFlight, id: I64, chunk: F.PayloadChunk): (Option<InFlight>, Reply)
    requires entry.received >= 0
  {
    if chunk.offset != entry.received then (None, Err(Offset(id, entry.received, chunk.offset)))
    else
      var total := SaturatingAdd(entry.received, |chunk.body|);
      var isBytes := entry.header.payloadType.BytesPayload?;
      if entry.header.totalSize > 0 && total > entry.header.totalSize then (None, Err(Overrun(id, entry.header.totalSize)))
      else if isBytes && total > MAX_BYTES_PAYLOAD then (None, Err(TooLarge(id, MAX_BYTES_PAYLOAD)))
      else if isBytes then
        var buffer := entry.buffer + chunk.body;
        if chunk.IsLast() then (None, Ok(BytesEvent(id, buffer)))
        else (Some(InFlight(entry.header, total, buffer)), Ok(Pending))
      else
        (if chunk.IsLast() then None else Some(entry.(received := total)),
         Ok(FileChunk(id, chunk.offset, chunk.body, chunk.IsLast(), entry.header)))
  }

  /** What one frame does to its own payload's slot, the cap aside. */
  function Slot(o: Option<InFlight>, pt: F.PayloadTransfer): (Option<InFlight>, Reply)
    requires o.Some? ==> o.value.received >= 0
  {
    var id := pt.header.id;
    if pt.packetType.Control? then
      (None, Ok(if pt.control.Some? && pt.control.value.0 == 2 then Cancelled(id) else Failed(id)))
    else if !pt.packetType.Data? || pt.chunk.None? then (o, Ok(Pending))
    else if pt.chunk.value.offset < 0 || pt.header.totalSize < 0 then (o, Err(Negative(id)))
    else Chunk(o.GetOr(InFlight(pt.header, 0, [])), id, pt.chunk.value)
  }

  predicate CarriesChunk(pt: F.PayloadTransfer) {
    pt.packetType.Data? && pt.chunk.Some? && pt.chunk.value.offset >= 0 && pt.header.totalSize >= 0
  }

  predicate CapHit(m: Table, pt: F.PayloadTransfer) {
    CarriesChunk(pt) && pt.header.id !in m && |m| >= MAX_IN_FLIGHT
  }

  predicate NonNegative(m: Table) {
    forall id :: id in m ==> m[id].received >= 0
  }

  function Accept(m: Table, pt: F.PayloadTransfer): (Table, Reply)
    requires NonNegative(m)
  {
    var id := pt.header.id;
    if CapHit(m, pt) then (m, Err(TooManyInFlight(id, MAX_IN_FLIGHT)))
    else
      var (o, r) := Slot(Get(m, id), pt);
      (Put(m, id, o), r)
  }

  /** The table between calls. */
  predicate WellKept(m: Table) {
    && |m| <= MAX_IN_FLIGHT
    && forall id :: id in m ==> EntryKept(m[id])
  }

  predicate EntryKept(e: InFlight) {
    && e.received >= 0
    && (e.header.totalSize > 0 ==> e.received <= e.header.totalSize)
    && if e.header.payloadType.BytesPayload? then |e.buffer| == e.received && e.received <= MAX_BYTES_PAYLOAD else e.buffer == []
  }

  lemma SlotKept(o: Option<InFlight>, pt: F.PayloadTransfer)
    requires o.Some? ==> EntryKept(o.value)
    ensures var o' := Slot(o, pt).0; o'.Some? ==> EntryKept(o'.value)
  {
  }

  lemma PutSize(m: Table, id: I64, o: Option<InFlight>)
    ensures |Put(m, id, o)| <= if o.Some? && id !in m then |m| + 1 else |m|
  {
    if o.Some? {
      assert m[id := o.value].Keys == m.Keys + {id};
    } else {
      assert (m - {id}).Keys == m.Keys - {id};
    }
  }

  /** Every frame, from anyone, keeps the table bounded and every entry within its limits. */
  lemma AcceptKept(m: Table, pt: F.PayloadTransfer)
    requires WellKept(m)
    ensures WellKept(Accept(m, pt).0)
  {
    var id := pt.header.id;
    if !CapHit(m, pt) {
      var o := Slot(Get(m, id), pt).0;
      SlotKept(Get(m, id), pt);
      PutSize(m, id, o);
      assert o.Some? && id !in m ==> CarriesChunk(pt);
    }
  }

  ghost function Pick(m: Table): I64
    requires m != map[]
    ensures Pick(m) in m
  {
    var id :| id in m;
    id
  }

  ghost function Buffered(m: Table): nat {
    if m == map[] then 0 else |m[Pick(m)].buffer| + Buffered(m - {Pick(m)})
  }

  lemma {:induction false} BufferedBound(m: Table)
    requires forall id :: id in m ==> |m[id].buffer| <= MAX_BYTES_PAYLOAD
    ensures Buffered(m) <= |m| * MAX_BYTES_PAYLOAD
    decreases |m|
  {
    if m != map[] {
      var rest := m - {Pick(m)};
      assert rest.Keys == m.Keys - {Pick(m)};
      assert |rest| == |rest.Keys| == |m| - 1;
      BufferedBound(rest);
    }
  }

  /** The memory a peer can pin before consent: 32 MiB. */
  lemma MemoryBound(m: Table)
    requires WellKept(m)
    ensures Buffered(m) <= MAX_IN_FLIGHT * MAX_BYTES_PAYLOAD
  {
    BufferedBound(m);
  }

  // -------------------------------------------------------------- runs and lifetimes ---

  datatype Op = Feed(pt: F.PayloadTransfer) | CancelLocally(id: I64)

  datatype Entry = Entry(op: Op, reply: Option<Reply>)

  datatype State = State(table: Table, log: seq<Entry>)

  const EMPTY := State(map[], [])

  function Step(s: State, op: Op): (r: State)
    requires NonNegative(s.table)
    ensures |r.log| == |s.log| + 1 && r.log[..|s.log|] == s.log
  {
    match op
    case Feed(pt) =>
      var (m, reply) := Accept(s.table, pt);
      State(m, s.log + [Entry(op, Some(reply))])
    case CancelLocally(id) => State(s.table - {id}, s.log + [Entry(op, None)])
  }

  lemma StepKept(s: State, op: Op)
    requires WellKept(s.table)
    ensures WellKept(Step(s, op).table)
  {
    match op
    case Feed(pt) => AcceptKept(s.table, pt);
    case CancelLocally(id) => PutSize(s.table, id, None);
  }

  function Run(ops: seq<Op>): (s: State)
    ensures WellKept(s.table) && |s.log| == |ops|
  {
    if ops == [] then EMPTY
    else
      var before := Run(ops[..|ops| - 1]);
      StepKept(before, ops[|ops| - 1]);
      Step(before, ops[|ops| - 1])
  }

  lemma RunKept(ops: seq<Op>)
    ensures WellKept(Run(ops).table) && NonNegative(Run(ops).table)
  {
  }

  /** An accepted chunk: where it was put and what it held. */
  datatype Piece = Piece(offset: I64, data: seq<U8>)

  function Total(ps: seq<Piece>): nat {
    if ps == [] then 0 else Total(ps[..|ps| - 1]) + |ps[|ps| - 1].data|
  }

  function Concat(ps: seq<Piece>): seq<U8> {
    if ps == [] then [] else Concat(ps[..|ps| - 1]) + ps[|ps| - 1].data
  }

  /** Each piece starts where the ones before it end, up to the largest offset there is. */
  predicate Tiles(ps: seq<Piece>) {
    ps == [] || (Tiles(ps[..|ps| - 1]) && ps[|ps| - 1].offset == SaturatingAdd(Total(ps[..|ps| - 1]), 0))
  }

  /** What a log entry does to the pieces of the current lifetime of payload `id`. */
  function Life(ps: seq<Piece>, id: I64, e: Entry): seq<Piece> {
    match e.op
    case CancelLocally(other) => if other == id then [] else ps
    case Feed(pt) =>
      if pt.header.id != id || e.reply.None? then ps
      else match e.reply.value
        case Ok(BytesEvent(_, _)) => []
        case Ok(FileChunk(_, offset, data, last, _)) => if last then [] else ps + [Piece(offset, data)]
        case Ok(Cancelled(_)) => []
        case Ok(Failed(_)) => []
        case Ok(Pending) => if CarriesChunk(pt) then ps + [Piece(pt.chunk.value.offset, pt.chunk.value.body)] else ps
        case Err(Negative(_)) => ps
        case Err(TooManyInFlight(_, _)) => ps
        case Err(_) => []
  }

  function Lifetime(log: seq<Entry>, id: I64): seq<Piece> {
    if log == [] then [] else Life(Lifetime(log[..|log| - 1], id), id, log[|log| - 1])
  }

  /** The table agrees with the history of one payload. */
  predicate Agrees(o: Option<InFlight>, ps: seq<Piece>) {
    && Tiles(ps)
    && (ps == [] <==> o.None?)
    && (o.Some? ==> Holds(o.value, ps))
  }

  predicate Holds(e: InFlight, ps: seq<Piece>) {
    && e.received == SaturatingAdd(Total(ps), 0)
    && (e.header.payloadType.BytesPayload? ==> e.buffer == Concat(ps))
  }

  lemma Snoc(ps: seq<Piece>, p: Piece)
    ensures Total(ps + [p]) == Total(ps) + |p.data| && Concat(ps + [p]) == Concat(ps) + p.data
    ensures Tiles(ps + [p]) <==> Tiles(ps) && p.offset == SaturatingAdd(Total(ps), 0)
  {
    assert (ps + [p])[..|ps|] == ps;
  }

  lemma ChunkAgrees(entry: InFlight, ps: seq<Piece>, id: I64, c: F.PayloadChunk)
    requires Tiles(ps) && Holds(entry, ps) && entry.received >= 0
    ensures var (o, r) := Chunk(entry, id, c); var p := Piece(c.offset, c.body);
      && (r.Err? ==> o.None? && !r.error.Negative? && !r.error.TooManyInFlight?)
      && (r.Ok? ==> Tiles(ps + [p]))
      && (o.Some? ==> Holds(o.value, ps + [p]))
      && (r.Ok? && r.value.FileChunk? ==> r.value.offset == c.offset && r.value.data == c.body && (r.value.last <==> o.None?))
      && (r.Ok? && r.value.BytesEvent? ==> o.None? && r.value.data == Concat(ps + [p]))
      && (r.Ok? && r.value.Pending? ==> o.Some?)
      && (r.Ok? ==> r.value.FileChunk? || r.value.BytesEvent? || r.value.Pending?)
  {
    hide Tiles, Concat, Total;
    Snoc(ps, Piece(c.offset, c.body));
  }

  lemma NoLifetime()
    ensures Agrees(None, [])
  {
  }

  lemma NothingHeld(header: F.PayloadHeader)
    ensures Holds(InFlight(header, 0, []), [])
  {
  }

  lemma SlotAgrees(o: Option<InFlight>, ps: seq<Piece>, pt: F.PayloadTransfer)
    requires Agrees(o, ps) && (o.Some? ==> EntryKept(o.value))
    ensures Agrees(Slot(o, pt).0, Life(ps, pt.header.id, Entry(Feed(pt), Some(Slot(o, pt).1))))
  {
    hide Chunk, Tiles, Concat;
    NoLifetime();
    NothingHeld(pt.header);
    if CarriesChunk(pt) {
      var entry := o.GetOr(InFlight(pt.header, 0, []));
      ChunkAgrees(entry, ps, pt.header.id, pt.chunk.value);
    }
  }

  lemma GetPut(m: Table, id: I64, o: Option<InFlight>, other: I64)
    ensures Get(Put(m, id, o), other) == if other == id then o else Get(m, other)
  {
  }

  lemma GetKept(m: Table, id: I64)
    requires WellKept(m)
    ensures Get(m, id).Some? ==> EntryKept(Get(m, id).value)
  {
  }

  /** What leaves a payload's lifetime alone, and what ends it from outside. */
  lemma LifeElsewhere(ps: seq<Piece>, id: I64, e: Entry)
    ensures e.op.CancelLocally? ==> Life(ps, id, e) == if e.op.id == id then [] else ps
    ensures e.op.Feed? && e.op.pt.header.id != id ==> Life(ps, id, e) == ps
    ensures e.op.Feed? && e.reply.Some? && e.reply.value.Err? && e.reply.value.error.TooManyInFlight? ==> Life(ps, id, e) == ps
  {
  }

  lemma StepAgrees(s: State, op: Op, id: I64)
    requires WellKept(s.table) && Agrees(Get(s.table, id), Lifetime(s.log, id))
    ensures Agrees(Get(Step(s, op).table, id), Lifetime(Step(s, op).log, id))
  {
    NoLifetime();
    hide Agrees, Life, Slot, Put, CapHit;
    var s', ps := Step(s, op), Lifetime(s.log, id);
    var e := s'.log[|s.log|];
    assert s'.log[..|s.log|] == s.log;
    LifeElsewhere(ps, id, e);
    match op
    case CancelLocally(_) =>
    case Feed(pt) =>
      GetKept(s.table, pt.header.id);
      GetPut(s.table, pt.header.id, Slot(Get(s.table, pt.header.id), pt).0, id);
      if pt.header.id == id && !CapHit(s.table, pt) {
        SlotAgrees(Get(s.table, id), ps, pt);
      }
  }

  lemma {:induction false} RunAgrees(ops: seq<Op>, id: I64)
    ensures Agrees(Get(Run(ops).table, id), Lifetime(Run(ops).log, id))
  {
    if ops != [] {
      var init := ops[..|ops| - 1];
      RunAgrees(init, id);
      StepAgrees(Run(init), ops[|ops| - 1], id);
    }
  }

  lemma {:induction false} TilesExactly(ps: seq<Piece>, i: nat)
    requires Tiles(ps) && i < |ps| && Total(ps) <= I64_MAX
    ensures ps[i].offset == Total(ps[..i])
    decreases |ps|
  {
    var init := ps[..|ps| - 1];
    if i < |init| {
      assert init[..i] == ps[..i];
      TilesExactly(init, i);
    }
  }

  /**
    Reassembly over any operations whatever: the pieces of a payload's current lifetime tile
    [0, received) with no gap or overlap.
   */
  lemma LifetimeTiles(ops: seq<Op>, id: I64, i: nat)
    requires var ps := Lifetime(Run(ops).log, id); i < |ps| && Total(ps) <= I64_MAX
    ensures var ps := Lifetime(Run(ops).log, id);
      && ps[i].offset == Total(ps[..i])
      && id in Run(ops).table && Run(ops).table[id].received == Total(ps)
  {
    RunAgrees(ops, id);
    TilesExactly(Lifetime(Run(ops).log, id), i);
  }

  /**
    The next file chunk reported starts exactly where the lifetime ends, under the header its
    first chunk carried, and never passes the declared size.
   */
  ghost predicate InPlace(m: Table, ps: seq<Piece>, pt: F.PayloadTransfer, e: Event)
    requires e.FileChunk? && CarriesChunk(pt)
  {
    && e.id == pt.header.id && e.data == pt.chunk.value.body && e.offset == SaturatingAdd(Total(ps), 0)
    && e.header == (if e.id in m then m[e.id].header else pt.header)
    && (e.header.totalSize > 0 && Total(ps) + |e.data| <= I64_MAX ==> Total(ps) + |e.data| <= e.header.totalSize)
  }

  /** A completed BYTES payload is exactly the concatenation of its lifetime's chunks. */
  ghost predicate Complete(ps: seq<Piece>, pt: F.PayloadTransfer, e: Event)
    requires e.BytesEvent? && CarriesChunk(pt)
  {
    var qs := ps + [Piece(pt.chunk.value.offset, pt.chunk.value.body)];
    e.data == Concat(qs) && Tiles(qs) && |e.data| <= MAX_BYTES_PAYLOAD
  }

  lemma EventsMeanChunks(o: Option<InFlight>, pt: F.PayloadTransfer)
    requires o.Some? ==> EntryKept(o.value)
    ensures var r := Slot(o, pt).1; r.Ok? && (r.value.FileChunk? || r.value.BytesEvent?) ==> CarriesChunk(pt)
  {
  }

  /** What a chunk reports, against the pieces before it. */
  lemma ChunkReports(entry: InFlight, ps: seq<Piece>, id: I64, c: F.PayloadChunk)
    requires Tiles(ps) && Holds(entry, ps) && entry.received >= 0
    ensures var r := Chunk(entry, id, c).1; var p := Piece(c.offset, c.body);
      && (r.Ok? && r.value.FileChunk? ==>
            && r.value.id == id && r.value.header == entry.header && r.value.data == c.body && r.value.offset == SaturatingAdd(Total(ps), 0)
            && (entry.header.totalSize > 0 && Total(ps) + |c.body| <= I64_MAX ==> Total(ps) + |c.body| <= entry.header.totalSize))
      && (r.Ok? && r.value.BytesEvent? ==>
            r.value.data == Concat(ps + [p]) && Tiles(ps + [p]) && |r.value.data| <= MAX_BYTES_PAYLOAD)
  {
    hide Tiles, Concat;
    Snoc(ps, Piece(c.offset, c.body));
    ConcatLength(ps + [Piece(c.offset, c.body)]);
  }

  lemma {:induction false} ConcatLength(ps: seq<Piece>)
    ensures |Concat(ps)| == Total(ps)
    decreases |ps|
  {
    if ps != [] {
      ConcatLength(ps[..|ps| - 1]);
    }
  }

  lemma ReportsAgree(m: Table, ps: seq<Piece>, pt: F.PayloadTransfer)
    requires WellKept(m) && Agrees(Get(m, pt.header.id), ps)
    ensures var r := Accept(m, pt).1; r.Ok? && r.value.FileChunk? ==> CarriesChunk(pt) && InPlace(m, ps, pt, r.value)
    ensures var r := Accept(m, pt).1; r.Ok? && r.value.BytesEvent? ==> CarriesChunk(pt) && Complete(ps, pt, r.value)
  {
    hide Chunk, Tiles, Concat, Total, Put;
    var o := Get(m, pt.header.id);
    GetKept(m, pt.header.id);
    EventsMeanChunks(o, pt);
    NothingHeld(pt.header);
    if CarriesChunk(pt) && !CapHit(m, pt) {
      var entry := o.GetOr(InFlight(pt.header, 0, []));
      ChunkReports(entry, ps, pt.header.id, pt.chunk.value);
    }
  }

  lemma EveryReport(ops: seq<Op>, pt: F.PayloadTransfer)
    ensures var s := Run(ops);
      var ps, r := Lifetime(s.log, pt.header.id), Accept(s.table, pt).1;
      && (r.Ok? && r.value.FileChunk? ==> CarriesChunk(pt) && InPlace(s.table, ps, pt, r.value))
      && (r.Ok? && r.value.BytesEvent? ==> CarriesChunk(pt) && Complete(ps, pt, r.value))
  {
    RunAgrees(ops, pt.header.id);
    ReportsAgree(Run(ops).table, Lifetime(Run(ops).log, pt.header.id), pt);
  }

  // ------------------------------------------------------ what each frame is answered ---

  /** The header that opened the payload's current lifetime: its first chunk's, whatever the later ones carry. */
  function Opening(log: seq<Entry>, id: I64): Option<F.PayloadHeader> {
    if log == [] then None
    else
      var init, e := log[..|log| - 1], log[|log| - 1];
      var ps := Lifetime(init, id);
      if Life(ps, id, e) == [] then None else if ps == [] then Some(e.op.pt.header) else Opening(init, id)
  }

  predicate Headed(o: Option<InFlight>, h: Option<F.PayloadHeader>) {
    if o.Some? then h == Some(o.value.header) else h == None
  }

  lemma SlotHeaded(o: Option<InFlight>, pt: F.PayloadTransfer)
    requires o.Some? ==> EntryKept(o.value)
    ensures var o' := Slot(o, pt).0; o'.Some? ==> o'.value.header == if o.Some? then o.value.header else pt.header
  {
  }

  lemma StepHeaded(s: State, op: Op, id: I64)
    requires WellKept(s.table) && Agrees(Get(s.table, id), Lifetime(s.log, id)) && Headed(Get(s.table, id), Opening(s.log, id))
    ensures Headed(Get(Step(s, op).table, id), Opening(Step(s, op).log, id))
  {
    StepAgrees(s, op, id);
    hide Life, Slot, Put, CapHit, Tiles, Holds;
    var s' := Step(s, op);
    assert s'.log[..|s.log|] == s.log;
    LifeElsewhere(Lifetime(s.log, id), id, s'.log[|s.log|]);
    match op
    case CancelLocally(_) =>
    case Feed(pt) =>
      GetKept(s.table, pt.header.id);
      GetPut(s.table, pt.header.id, Slot(Get(s.table, pt.header.id), pt).0, id);
      SlotHeaded(Get(s.table, pt.header.id), pt);
  }

  lemma {:induction false} RunHeaded(ops: seq<Op>, id: I64)
    ensures Headed(Get(Run(ops).table, id), Opening(Run(ops).log, id))
  {
    if ops != [] {
      var init := ops[..|ops| - 1];
      RunHeaded(init, id);
      RunAgrees(init, id);
      StepHeaded(Run(init), ops[|ops| - 1], id);
    }
  }

  /** Offsets stop at the largest there is. */
  function Most(n: nat): I64 { if n > 0x7FFF_FFFF_FFFF_FFFF then 0x7FFF_FFFF_FFFF_FFFF else n }

  /** The answer to a chunk by the pieces received so far and the payload's header; what is left of the payload is `o`. */
  ghost predicate ChunkAnswer(ps: seq<Piece>, h: F.PayloadHeader, id: I64, c: F.PayloadChunk, o: Option<InFlight>, r: Reply) {
    var total := Total(ps) + |c.body|;
    var misplaced := c.offset != Most(Total(ps));
    var over := !misplaced && h.totalSize > 0 && Most(total) > h.totalSize;
    var large := !misplaced && !over && h.payloadType.BytesPayload? && Most(total) > 1_048_576;
    var last := c.flags % 2 == 1;
    && (misplaced ==> r == Err(Offset(id, Most(Total(ps)), c.offset)) && o == None)
    && (over ==> r == Err(Overrun(id, h.totalSize)) && o == None)
    && (large ==> r == Err(TooLarge(id, 1_048_576)) && o == None)
    && (!misplaced && !over && !large ==>
          && (o == None <==> last)
          && (h.payloadType.BytesPayload? && last ==> r == Ok(BytesEvent(id, Concat(ps) + c.body)))
          && (h.payloadType.BytesPayload? && !last ==> r == Ok(Pending))
          && (!h.payloadType.BytesPayload? ==> r == Ok(FileChunk(id, c.offset, c.body, last, h))))
  }

  lemma ChunkAnswers(entry: InFlight, ps: seq<Piece>, id: I64, c: F.PayloadChunk)
    requires Holds(entry, ps) && entry.received >= 0
    ensures var (o, r) := Chunk(entry, id, c); ChunkAnswer(ps, entry.header, id, c, o, r)
  {
    hide Total, Concat;
  }

  /**
    The answer to each frame that carries data, after any history: refusals as the pieces
    received so far and the header that opened the payload call for them, in that order. A chunk
    refused for a negative number or for want of room leaves everything as it was; any other
    changes nothing but its own payload.
   */
  lemma EveryAnswer(ops: seq<Op>, pt: F.PayloadTransfer)
    requires pt.packetType.Data? && pt.chunk.Some?
    ensures var s, id, c := Run(ops), pt.header.id, pt.chunk.value;
      var ps, (m, r) := Lifetime(s.log, id), Accept(s.table, pt);
      var negative := c.offset < 0 || pt.header.totalSize < 0;
      var full := !negative && ps == [] && |s.table| >= 32;
      && (negative ==> r == Err(Negative(id)) && m == s.table)
      && (full ==> r == Err(TooManyInFlight(id, 32)) && m == s.table)
      && (!negative && !full ==> ChunkAnswer(ps, Opening(s.log, id).GetOr(pt.header), id, c, Get(m, id), r))
      && (forall other :: other != id ==> Get(m, other) == Get(s.table, other))
  {
    hide ChunkAnswer, Chunk, Tiles, Holds, Put, Opening, Run, Lifetime;
    var s, id := Run(ops), pt.header.id;
    RunAgrees(ops, id);
    RunHeaded(ops, id);
    var o := Get(s.table, id);
    GetKept(s.table, id);
    NothingHeld(pt.header);
    assert Put(s.table, id, o) == s.table by { PutBack(s.table, id); }
    forall other: I64 ensures Get(Put(s.table, id, Slot(o, pt).0), other) == if other == id then Slot(o, pt).0 else Get(s.table, other) {
      GetPut(s.table, id, Slot(o, pt).0, other);
    }
    if CarriesChunk(pt) && !CapHit(s.table, pt) {
      ChunkAnswers(o.GetOr(InFlight(pt.header, 0, [])), Lifetime(s.log, id), id, pt.chunk.value);
    }
  }

  lemma PutBack(m: Table, id: I64)
    ensures Put(m, id, Get(m, id)) == m
  {
  }

  /** A control frame, after any history: what it reports, and that it forgets the payload it names and no other. */
  lemma ControlReply(ops: seq<Op>, pt: F.PayloadTransfer)
    requires pt.packetType.Control?
    ensures var s := Run(ops); var (m, r) := Accept(s.table, pt);
      && r == Ok(if pt.control.Some? && pt.control.value.0 == 2 then Cancelled(pt.header.id) else Failed(pt.header.id))
      && Get(m, pt.header.id) == None
      && (forall other :: other != pt.header.id ==> Get(m, other) == Get(s.table, other))
      && Lifetime(Run(ops + [Feed(pt)]).log, pt.header.id) == []
  {
    hide Run, Lifetime, Chunk, Tiles, Holds;
    RunKept(ops);
    RunSnoc(ops, Feed(pt));
    RunAgrees(ops + [Feed(pt)], pt.header.id);
  }

  /**
    What a peer's control frame, as written, does after any history: `Cancelled` is reported for
    event 2 and `Failed` for every other, the payload it names is forgotten, and no other is touched.
   */
  lemma ControlAnswered(ops: seq<Op>, h: F.PayloadHeader, event: U64, offset: I64)
    requires |F.PayloadControl(h, event, offset)| < TWO_64
    ensures var s, frame := Run(ops), F.Parse(F.PayloadControl(h, event, offset));
      && frame.Ok? && frame.value.TransferFrame?
      && var (m, r) := Accept(s.table, frame.value.transfer);
      && r == Ok(if event == 2 then Cancelled(h.id) else Failed(h.id))
      && Get(m, h.id) == None
      && (forall other :: other != h.id ==> Get(m, other) == Get(s.table, other))
      && Lifetime(Run(ops + [Feed(frame.value.transfer)]).log, h.id) == []
  {
    hide *;
    F.PayloadControlRoundTrip(h, event, offset);
    ControlReply(ops, F.PayloadTransfer(F.Control, h.(isSensitive := false, fileName := "", parentFolder := ""), None, Some((event, offset))));
  }

  // ------------------------------------------------------- payloads do not interfere ---

  predicate Concerns(op: Op, id: I64) {
    match op
    case Feed(pt) => pt.header.id == id
    case CancelLocally(other) => other == id
  }

  function Only(ops: seq<Op>, id: I64): seq<Op> {
    if ops == [] then []
    else Only(ops[..|ops| - 1], id) + if Concerns(ops[|ops| - 1], id) then [ops[|ops| - 1]] else []
  }

  function OnlyLog(log: seq<Entry>, id: I64): seq<Entry> {
    if log == [] then []
    else OnlyLog(log[..|log| - 1], id) + if Concerns(log[|log| - 1].op, id) then [log[|log| - 1]] else []
  }

  predicate Uncapped(log: seq<Entry>) {
    forall i :: 0 <= i < |log| ==> !(log[i].reply.Some? && log[i].reply.value.Err? && log[i].reply.value.error.TooManyInFlight?)
  }

  lemma OnlySnoc(ops: seq<Op>, op: Op, id: I64)
    ensures Only(ops + [op], id) == Only(ops, id) + if Concerns(op, id) then [op] else []
  {
    assert (ops + [op])[..|ops|] == ops;
  }

  lemma {:induction false} AloneKeys(ops: seq<Op>, id: I64)
    requires forall i :: 0 <= i < |ops| ==> Concerns(ops[i], id)
    ensures Run(ops).table.Keys <= {id}
    ensures |Run(ops).table| <= 1
  {
    if ops != [] {
      var init, op := ops[..|ops| - 1], ops[|ops| - 1];
      AloneKeys(init, id);
      assert Concerns(op, id);
    }
    KeysBound(Run(ops).table, id);
  }

  lemma KeysBound(m: Table, id: I64)
    ensures m.Keys <= {id} ==> |m| <= 1
  {
    if m.Keys <= {id} {
      if id in m {
        assert m.Keys == {id};
      } else {
        assert m.Keys == {};
      }
      assert |m| == |m.Keys|;
    }
  }

  lemma {:induction false} OnlyConcerns(ops: seq<Op>, id: I64)
    ensures forall i :: 0 <= i < |Only(ops, id)| ==> Concerns(Only(ops, id)[i], id)
  {
    if ops != [] {
      OnlyConcerns(ops[..|ops| - 1], id);
    }
  }

  /** One step of the shared table and of the payload on its own. */
  lemma StepAlone(s: State, alone: State, op: Op, id: I64)
    requires WellKept(s.table) && WellKept(alone.table) && |alone.table| <= 1
    requires Get(s.table, id) == Get(alone.table, id) && Concerns(op, id)
    requires op.Feed? ==> !CapHit(s.table, op.pt)
    ensures Get(Step(s, op).table, id) == Get(Step(alone, op).table, id)
    ensures Step(s, op).log[|s.log|] == Step(alone, op).log[|alone.log|]
  {
  }

  lemma StepOther(s: State, op: Op, id: I64)
    requires WellKept(s.table) && !Concerns(op, id)
    ensures Get(Step(s, op).table, id) == Get(s.table, id)
    ensures Step(s, op).log[|s.log|].op == op
  {
  }

  lemma CapSeen(s: State, op: Op)
    requires WellKept(s.table) && op.Feed? && CapHit(s.table, op.pt)
    ensures !Uncapped(Step(s, op).log)
  {
    assert Step(s, op).log[|s.log|].reply.Some?;
  }

  lemma StepLogOp(s: State, op: Op)
    requires NonNegative(s.table)
    ensures Step(s, op).log[|s.log|].op == op
  {
  }

  /**
    Payloads do not interfere: as long as the cap is never hit, each payload sees exactly
    the replies it would have had alone, and ends in the same state.
   */
  lemma {:induction false} Independence(ops: seq<Op>, id: I64)
    requires Uncapped(Run(ops).log)
    ensures Get(Run(ops).table, id) == Get(Run(Only(ops, id)).table, id)
    ensures OnlyLog(Run(ops).log, id) == Run(Only(ops, id)).log
  {
    hide Accept, CapHit, Get;
    if ops != [] {
      var init, op := ops[..|ops| - 1], ops[|ops| - 1];
      var s, s' := Run(init), Run(ops);
      assert s' == Step(s, op) && s'.log[..|s.log|] == s.log;
      assert forall i :: 0 <= i < |s.log| ==> s.log[i] == s'.log[i];
      Independence(init, id);
      StepLogOp(s, op);
      var alone := Only(init, id);
      if Concerns(op, id) {
        if op.Feed? && CapHit(s.table, op.pt) {
          CapSeen(s, op);
        }
        OnlyConcerns(init, id);
        AloneKeys(alone, id);
        StepAlone(s, Run(alone), op, id);
        RunSnoc(alone, op);
        LogSnoc(Run(alone), op);
      } else {
        StepOther(s, op, id);
        assert Only(ops, id) == alone;
      }
    }
  }

  lemma RunSnoc(ops: seq<Op>, op: Op)
    ensures Run(ops + [op]) == Step(Run(ops), op)
  {
    assert (ops + [op])[..|ops|] == ops;
  }

  lemma LogSnoc(s: State, op: Op)
    requires NonNegative(s.table)
    ensures Step(s, op).log == s.log + [Step(s, op).log[|s.log|]]
  {
  }

  lemma Overwrites(m: Table, id: I64, e: InFlight)
    ensures m[id := e] - {id} == m - {id}
    ensures forall e': InFlight {:trigger m[id := e']} :: m[id := e][id := e'] == m[id := e']
    ensures id in m && m[id] == e ==> m[id := e] == m
  {
  }

  class Assembler {
    var inFlight: Table

    ghost predicate Valid()
      reads this
    {
      WellKept(inFlight)
    }

    constructor ()
      ensures Valid() && inFlight == map[]
    {
      inFlight := map[];
    }

    method AcceptFrame(pt: F.PayloadTransfer) returns (r: Reply)
      requires Valid()
      modifies this
      ensures Valid()
      ensures (inFlight, r) == Accept(old(inFlight), pt)
    {
      hide Chunk;
      ghost var before := inFlight;
      AcceptKept(before, pt);
      var id := pt.header.id;
      assert Put(before, id, Get(before, id)) == before;
      if pt.packetType.Control? {
        var event := if pt.control.Some? then pt.control.value.0 else 0;
        inFlight := inFlight - {id};
        return Ok(if event == 2 then Cancelled(id) else Failed(id));
      }
      if !pt.packetType.Data? || pt.chunk.None? {
        return Ok(Pending);
      }
      var chunk := pt.chunk.value;
      if chunk.offset < 0 || pt.header.totalSize < 0 {
        return Err(Negative(id));
      }
      if id !in inFlight && |inFlight| >= MAX_IN_FLIGHT {
        return Err(TooManyInFlight(id, MAX_IN_FLIGHT));
      }
      var unseen := InFlight(pt.header, 0, []);
      if id !in inFlight {
        inFlight := inFlight[id := unseen];
      }
      Overwrites(before, id, inFlight[id]);
      r := AcceptChunk(id, chunk);
    }

    /** The rest of `accept`, once the entry is in the table. */
    method AcceptChunk(id: I64, chunk: F.PayloadChunk) returns (r: Reply)
      requires id in inFlight && inFlight[id].received >= 0
      modifies this
      ensures (inFlight, r) == (Put(old(inFlight), id, Chunk(old(inFlight[id]), id, chunk).0), Chunk(old(inFlight[id]), id, chunk).1)
    {
      var entry := inFlight[id];
      if chunk.offset != entry.received {
        inFlight := inFlight - {id};
        return Err(Offset(id, entry.received, chunk.offset));
      }
      var total := SaturatingAdd(entry.received, |chunk.body|);
      if entry.header.totalSize > 0 && total > entry.header.totalSize {
        inFlight := inFlight - {id};
        return Err(Overrun(id, entry.header.totalSize));
      }
      var isBytes := entry.header.payloadType.BytesPayload?;
      if isBytes && total > MAX_BYTES_PAYLOAD {
        inFlight := inFlight - {id};
        return Err(TooLarge(id, MAX_BYTES_PAYLOAD));
      }
      ghost var before := inFlight;
      inFlight := inFlight[id := entry.(received := total)];
      Overwrites(before, id, inFlight[id]);
      var last := chunk.IsLast();
      if isBytes {
        inFlight := inFlight[id := inFlight[id].(buffer := entry.buffer + chunk.body)];
        Overwrites(before, id, inFlight[id]);
        if last {
          var done := inFlight[id];
          inFlight := inFlight - {id};
          return Ok(BytesEvent(id, done.buffer));
        }
        return Ok(Pending);
      }
      var header := inFlight[id].header;
      if last {
        inFlight := inFlight - {id};
      }
      r := Ok(FileChunk(id, chunk.offset, chunk.body, last, header));
    }

    method Cancel(id: I64)
      requires Valid()
      modifies this
      ensures Valid() && inFlight == old(inFlight) - {id}
    {
      PutSize(inFlight, id, None);
      inFlight := inFlight - {id};
    }

    method Received(id: I64) returns (n: I64)
      requires Valid()
      ensures n == if id in inFlight then inFlight[id].received else 0
    {
      n := if id in inFlight then inFlight[id].received else 0;
    }
  }
}
