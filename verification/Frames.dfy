/** Offline frames: the message layer between the encrypted channel and payloads. */
module Frames {
  import opened Bytes
  import P = Protobuf
  import Utf8

  const OF_VERSION := 1
  const OF_V1 := 2
  const VERSION_V1 := 1

  const V1_TYPE := 1
  const V1_CONNECTION_REQUEST := 2
  const V1_CONNECTION_RESPONSE := 3
  const V1_PAYLOAD_TRANSFER := 4
  const V1_BANDWIDTH_UPGRADE := 5
  const V1_KEEP_ALIVE := 6
  const V1_DISCONNECTION := 7

  const T_CONNECTION_REQUEST := 1
  const T_CONNECTION_RESPONSE := 2
  const T_PAYLOAD_TRANSFER := 3
  const T_BANDWIDTH_UPGRADE := 4
  const T_KEEP_ALIVE := 5
  const T_DISCONNECTION := 6

  const CR_ENDPOINT_ID := 1
  const CR_ENDPOINT_NAME := 2
  const CR_HANDSHAKE_DATA := 3
  const CR_NONCE := 4
  const CR_MEDIUMS := 5
  const CR_ENDPOINT_INFO := 6
  const CR_MEDIUM_METADATA := 7
  const CR_KEEPALIVE_INTERVAL := 8
  const CR_KEEPALIVE_TIMEOUT := 9
  const CR_CONNECTIONS_DEVICE := 12

  const MM_SUPPORTS_5GHZ := 1
  const MM_SUPPORTS_6GHZ := 4
  const MM_MOBILE_RADIO := 5
  const MM_AP_FREQUENCY := 6
  const AP_FREQUENCY_NONE := 0xFFFF_FFFF_FFFF_FFFF
  const CD_ENDPOINT_ID := 1
  const CD_ENDPOINT_TYPE := 2
  const CD_ENDPOINT_INFO := 4
  const ENDPOINT_TYPE_CONNECTIONS := 1

  const RSP_STATUS := 1
  const RSP_HANDSHAKE_DATA := 2
  const RSP_RESPONSE := 3
  const RSP_OS_INFO := 4
  const RSP_MULTIPLEX_BITMASK := 5
  const RSP_SAFE_TO_DISCONNECT := 7
  const RSP_KEEPALIVE_TIMEOUT := 9
  const MULTIPLEX_SOCKET_BITMASK_NONE := 0
  const SAFE_TO_DISCONNECT_VERSION := 1
  const KEEP_ALIVE_TIMEOUT_MILLIS := 600_000
  const OS_TYPE := 1

  const PT_PACKET_TYPE := 1
  const PT_PAYLOAD_HEADER := 2
  const PT_PAYLOAD_CHUNK := 3
  const PT_CONTROL_MESSAGE := 4
  const PH_ID := 1
  const PH_TYPE := 2
  const PH_TOTAL_SIZE := 3
  const PH_IS_SENSITIVE := 4
  const PH_FILE_NAME := 5
  const PH_PARENT_FOLDER := 6
  const PC_FLAGS := 1
  const PC_OFFSET := 2
  const PC_BODY := 3
  const CM_EVENT := 1
  const CM_OFFSET := 2
  const DC_REQUEST_SAFE := 1
  const DC_ACK_SAFE := 2
  const KA_ACK := 1
  const KA_SEQ_NUM := 2

  datatype PayloadType = UnknownPayload | BytesPayload | FilePayload | StreamPayload {
    function Code(): U64 {
      match this
      case UnknownPayload => 0
      case BytesPayload => 1
      case FilePayload => 2
      case StreamPayload => 3
    }

    static function From(v: U64): PayloadType {
      if v == 1 then BytesPayload else if v == 2 then FilePayload else if v == 3 then StreamPayload else UnknownPayload
    }
  }

  datatype PacketType = UnknownPacket | Data | Control | PayloadAck {
    static function From(v: U64): PacketType {
      if v == 1 then Data else if v == 2 then Control else if v == 3 then PayloadAck else UnknownPacket
    }
  }

  datatype Answer = UnknownAnswer | Accept | Reject {
    function Code(): U64 {
      match this
      case UnknownAnswer => 0
      case Accept => 1
      case Reject => 2
    }
  }

  datatype OsType = UnknownOs | Android | ChromeOs | Windows | Apple | Linux {
    function Code(): U64 {
      match this
      case UnknownOs => 0
      case Android => 1
      case ChromeOs => 2
      case Windows => 3
      case Apple => 4
      case Linux => 100
    }

    static function From(v: U64): OsType {
      match v
      case 1 => Android
      case 2 => ChromeOs
      case 3 => Windows
      case 4 => Apple
      case 100 => Linux
      case _ => UnknownOs
    }
  }

  datatype PayloadHeader = PayloadHeader(id: I64, payloadType: PayloadType, totalSize: I64, isSensitive: bool, fileName: string, parentFolder: string)

  const DEFAULT_HEADER := PayloadHeader(0, UnknownPayload, 0, false, "", "")

  datatype PayloadChunk = PayloadChunk(flags: U64, offset: I64, body: seq<U8>) {
    predicate IsLast() { flags % 2 == 1 }
  }

  datatype PayloadTransfer = PayloadTransfer(packetType: PacketType, header: PayloadHeader, chunk: Option<PayloadChunk>, control: Option<(U64, I64)>)

  datatype ConnectionRequest = ConnectionRequest(
    endpointId: string, endpointName: string, endpointInfo: seq<U8>, handshakeData: seq<U8>, nonce: I64,
    mediums: seq<U64>, keepAliveInterval: Option<U64>, keepAliveTimeout: Option<U64>)

  const NO_REQUEST := ConnectionRequest("", "", [], [], 0, [], None, None)

  datatype ConnectionResponse = ConnectionResponse(response: Answer, osType: OsType, handshakeData: seq<U8>, safeToDisconnectVersion: U64)

  datatype Frame =
    | RequestFrame(request: ConnectionRequest)
    | ResponseFrame(response: ConnectionResponse)
    | TransferFrame(transfer: PayloadTransfer)
    | KeepAlive(ack: bool, seqNum: U64)
    | Disconnection(requestSafe: bool, ackSafe: bool)
    | BandwidthUpgrade(body: seq<U8>)
    | UnknownFrame(frameType: U64)

  datatype Error = Wire(e: P.Error) | Malformed(what: string)

  // ---------------------------------------------------------------------- encoding ---

  function OptionalBytes(n: U32, b: seq<U8>): seq<P.Field> {
    if b == [] then [] else [P.Bytes(n, b)]
  }

  function OptionalVarint(n: U32, v: Option<U64>): seq<P.Field> {
    if v.None? then [] else [P.Varint(n, v.value)]
  }

  function Flag(b: bool): U64 { if b then 1 else 0 }

  function InnerFields(frameType: U64, field: U32, body: seq<U8>): seq<P.Field> {
    [P.Varint(V1_TYPE, frameType), P.Bytes(field, body)]
  }

  function OuterFields(v1: seq<U8>): seq<P.Field> {
    [P.Varint(OF_VERSION, VERSION_V1), P.Bytes(OF_V1, v1)]
  }

  function Offline(frameType: U64, field: U32, body: seq<U8>): seq<U8> {
    P.Encode(OuterFields(P.Encode(InnerFields(frameType, field, body))))
  }

  function HeaderFields(h: PayloadHeader): seq<P.Field> {
    NumberFields(U64OfI64(h.id), h.payloadType.Code(), U64OfI64(h.totalSize), Flag(h.isSensitive))
    + OptionalBytes(PH_FILE_NAME, Utf8.Encode(h.fileName))
    + OptionalBytes(PH_PARENT_FOLDER, Utf8.Encode(h.parentFolder))
  }

  function NumberFields(id: U64, kind: U64, size: U64, sensitive: U64): seq<P.Field> {
    [P.Varint(PH_ID, id), P.Varint(PH_TYPE, kind), P.Varint(PH_TOTAL_SIZE, size), P.Varint(PH_IS_SENSITIVE, sensitive)]
  }

  function ChunkFields(c: PayloadChunk): seq<P.Field> {
    [P.Varint(PC_FLAGS, c.flags), P.Varint(PC_OFFSET, U64OfI64(c.offset)), P.Bytes(PC_BODY, c.body)]
  }

  function PacketFields(packet: U64, header: seq<U8>, partField: U32, part: seq<U8>): seq<P.Field> {
    [P.Varint(PT_PACKET_TYPE, packet), P.Bytes(PT_PAYLOAD_HEADER, header), P.Bytes(partField, part)]
  }

  function DataFields(h: PayloadHeader, c: PayloadChunk): seq<P.Field> {
    PacketFields(1, P.Encode(HeaderFields(h)), PT_PAYLOAD_CHUNK, P.Encode(ChunkFields(c)))
  }

  function PayloadData(h: PayloadHeader, c: PayloadChunk): seq<U8> {
    Offline(T_PAYLOAD_TRANSFER, V1_PAYLOAD_TRANSFER, P.Encode(DataFields(h, c)))
  }

  function ControlFields(h: PayloadHeader, event: U64, offset: I64): seq<P.Field> {
    PacketFields(2, P.Encode(BareHeaderFields(h)), PT_CONTROL_MESSAGE, P.Encode(MessageFields(event, offset)))
  }

  function BareHeaderFields(h: PayloadHeader): seq<P.Field> {
    [P.Varint(PH_ID, U64OfI64(h.id)), P.Varint(PH_TYPE, h.payloadType.Code()), P.Varint(PH_TOTAL_SIZE, U64OfI64(h.totalSize))]
  }

  function MessageFields(event: U64, offset: I64): seq<P.Field> {
    [P.Varint(CM_EVENT, event), P.Varint(CM_OFFSET, U64OfI64(offset))]
  }

  function PayloadControl(h: PayloadHeader, event: U64, offset: I64): seq<U8> {
    Offline(T_PAYLOAD_TRANSFER, V1_PAYLOAD_TRANSFER, P.Encode(ControlFields(h, event, offset)))
  }

  function UpgradeEnvelope(body: seq<U8>): seq<U8> {
    Offline(T_BANDWIDTH_UPGRADE, V1_BANDWIDTH_UPGRADE, body)
  }

  function MediumMetadata(): seq<U8> {
    P.Encode([P.Varint(MM_SUPPORTS_5GHZ, 0), P.Varint(MM_SUPPORTS_6GHZ, 0), P.Varint(MM_MOBILE_RADIO, 0),
              P.Varint(MM_AP_FREQUENCY, AP_FREQUENCY_NONE)])
  }

  function ConnectionsDevice(r: ConnectionRequest): seq<U8> {
    P.Encode([P.Bytes(CD_ENDPOINT_ID, Utf8.Encode(r.endpointId)), P.Varint(CD_ENDPOINT_TYPE, ENDPOINT_TYPE_CONNECTIONS),
              P.Bytes(CD_ENDPOINT_INFO, r.endpointInfo)])
  }

  function MediumFields(mediums: seq<U64>): seq<P.Field> {
    seq(|mediums|, i requires 0 <= i < |mediums| => P.Varint(CR_MEDIUMS, mediums[i]))
  }

  function IdentityFields(r: ConnectionRequest): seq<P.Field> {
    [P.Bytes(CR_ENDPOINT_ID, Utf8.Encode(r.endpointId)), P.Bytes(CR_ENDPOINT_NAME, Utf8.Encode(r.endpointName)),
     P.Bytes(CR_HANDSHAKE_DATA, r.handshakeData), P.Varint(CR_NONCE, U64OfI64(r.nonce))]
  }

  function InfoFields(r: ConnectionRequest): seq<P.Field> {
    [P.Bytes(CR_ENDPOINT_INFO, r.endpointInfo), P.Bytes(CR_MEDIUM_METADATA, MediumMetadata())]
  }

  function TimerFields(r: ConnectionRequest): seq<P.Field> {
    OptionalVarint(CR_KEEPALIVE_INTERVAL, r.keepAliveInterval)
    + (OptionalVarint(CR_KEEPALIVE_TIMEOUT, r.keepAliveTimeout)
    + [P.Bytes(CR_CONNECTIONS_DEVICE, ConnectionsDevice(r))])
  }

  function RequestFields(r: ConnectionRequest): seq<P.Field> {
    IdentityFields(r) + (MediumFields(r.mediums) + (InfoFields(r) + TimerFields(r)))
  }

  function BuildRequest(r: ConnectionRequest): seq<U8> {
    Offline(T_CONNECTION_REQUEST, V1_CONNECTION_REQUEST, P.Encode(RequestFields(r)))
  }

  function StatusFields(status: U64, answer: U64, os: seq<U8>): seq<P.Field> {
    [P.Varint(RSP_STATUS, status), P.Varint(RSP_RESPONSE, answer), P.Bytes(RSP_OS_INFO, os),
     P.Varint(RSP_MULTIPLEX_BITMASK, MULTIPLEX_SOCKET_BITMASK_NONE), P.Varint(RSP_SAFE_TO_DISCONNECT, SAFE_TO_DISCONNECT_VERSION),
     P.Varint(RSP_KEEPALIVE_TIMEOUT, KEEP_ALIVE_TIMEOUT_MILLIS)]
  }

  function ResponseFields(answer: Answer, os: OsType): seq<P.Field> {
    StatusFields(if answer.Accept? then 0 else 1, answer.Code(), P.Encode([P.Varint(OS_TYPE, os.Code())]))
  }

  function BuildResponse(answer: Answer, os: OsType): seq<U8> {
    Offline(T_CONNECTION_RESPONSE, V1_CONNECTION_RESPONSE, P.Encode(ResponseFields(answer, os)))
  }

  function KeepAliveFields(ack: bool, seqNum: U64): seq<P.Field> { [P.Varint(KA_ACK, Flag(ack)), P.Varint(KA_SEQ_NUM, seqNum)] }

  function BuildKeepAlive(ack: bool, seqNum: U64): seq<U8> {
    Offline(T_KEEP_ALIVE, V1_KEEP_ALIVE, P.Encode(KeepAliveFields(ack, seqNum)))
  }

  function DisconnectionFields(requestSafe: bool, ackSafe: bool): seq<P.Field> {
    OptionalVarint(DC_REQUEST_SAFE, if requestSafe then Some(1) else None) + OptionalVarint(DC_ACK_SAFE, if ackSafe then Some(1) else None)
  }

  function BuildDisconnection(requestSafe: bool, ackSafe: bool): seq<U8> {
    Offline(T_DISCONNECTION, V1_DISCONNECTION, P.Encode(DisconnectionFields(requestSafe, ackSafe)))
  }

  // ---------------------------------------------------------------------- decoding ---

  /** Every lookup scans the whole buffer, so on a malformed one they all fail alike. */
  function Scan(b: seq<U8>): Result<seq<P.Field>, Error> {
    match P.Fields(b)
    case Ok(fs) => Ok(fs)
    case Err(e) => Err(Wire(e))
  }

  function Number(fs: seq<P.Field>, n: U32): U64 { P.LastVarint(fs, n).GetOr(0) }

  function Blob(fs: seq<P.Field>, n: U32): seq<U8> { P.LastBytes(fs, n).GetOr([]) }

  function Text(fs: seq<P.Field>, n: U32): string { Utf8.Lossy(Blob(fs, n)) }

  /** The last length-delimited field, whatever its number. */
  function LastBody(fs: seq<P.Field>): Option<seq<U8>> {
    if fs == [] then None
    else if fs[|fs| - 1].Bytes? then Some(fs[|fs| - 1].b)
    else LastBody(fs[..|fs| - 1])
  }

  function HeaderOf(h: seq<P.Field>): PayloadHeader {
    PayloadHeader(
      I64OfU64(Number(h, PH_ID)), PayloadType.From(Number(h, PH_TYPE)), I64OfU64(Number(h, PH_TOTAL_SIZE)),
      Number(h, PH_IS_SENSITIVE) != 0, Text(h, PH_FILE_NAME), Text(h, PH_PARENT_FOLDER))
  }

  function ParseTransfer(b: seq<U8>): Result<PayloadTransfer, Error> {
    var fs :- Scan(b);
    var header :- match P.LastBytes(fs, PT_PAYLOAD_HEADER) {
      case None => Ok(DEFAULT_HEADER)
      case Some(h) =>
        var hs :- Scan(h);
        Ok(HeaderOf(hs))
    };
    var chunk :- match P.LastBytes(fs, PT_PAYLOAD_CHUNK) {
      case None => Ok(None)
      case Some(c) =>
        var cs :- Scan(c);
        Ok(Some(PayloadChunk(Number(cs, PC_FLAGS), I64OfU64(Number(cs, PC_OFFSET)), Blob(cs, PC_BODY))))
    };
    var control :- match P.LastBytes(fs, PT_CONTROL_MESSAGE) {
      case None => Ok(None)
      case Some(c) =>
        var cs :- Scan(c);
        Ok(Some((Number(cs, CM_EVENT), I64OfU64(Number(cs, CM_OFFSET)))))
    };
    Ok(PayloadTransfer(PacketType.From(Number(fs, PT_PACKET_TYPE)), header, chunk, control))
  }

  function Absorb(out: ConnectionRequest, f: P.Field): ConnectionRequest {
    match f
    case Bytes(n, v) =>
      if n == CR_ENDPOINT_ID then out.(endpointId := Utf8.Lossy(v))
      else if n == CR_ENDPOINT_NAME then out.(endpointName := Utf8.Lossy(v))
      else if n == CR_ENDPOINT_INFO then out.(endpointInfo := v)
      else if n == CR_HANDSHAKE_DATA then out.(handshakeData := v)
      else out
    case Varint(n, v) =>
      if n == CR_NONCE then out.(nonce := I64OfU64(v))
      else if n == CR_MEDIUMS then out.(mediums := out.mediums + [v])
      else if n == CR_KEEPALIVE_INTERVAL then out.(keepAliveInterval := Some(v))
      else if n == CR_KEEPALIVE_TIMEOUT then out.(keepAliveTimeout := Some(v))
      else out
  }

  function AbsorbAll(out: ConnectionRequest, fs: seq<P.Field>): ConnectionRequest
    decreases |fs|
  {
    if fs == [] then out else AbsorbAll(Absorb(out, fs[0]), fs[1..])
  }

  function ParseRequest(b: seq<U8>): Result<ConnectionRequest, Error> {
    var fs :- Scan(b);
    Ok(AbsorbAll(NO_REQUEST, fs))
  }

  function ParseResponse(b: seq<U8>): Result<ConnectionResponse, Error> {
    var fs :- Scan(b);
    var os :- match P.LastBytes(fs, RSP_OS_INFO) {
      case None => Ok(UnknownOs)
      case Some(o) =>
        var ofs :- Scan(o);
        Ok(OsType.From(Number(ofs, OS_TYPE)))
    };
    var answer := match P.LastVarint(fs, RSP_RESPONSE) {
      case Some(v) => if v == 1 then Accept else if v == 2 then Reject else UnknownAnswer
      case None =>
        match P.LastVarint(fs, RSP_STATUS)
        case Some(v) => if v == 0 then Accept else Reject
        case None => UnknownAnswer
    };
    Ok(ConnectionResponse(answer, os, Blob(fs, RSP_HANDSHAKE_DATA), Number(fs, RSP_SAFE_TO_DISCONNECT)))
  }

  function Dispatch(frameType: U64, body: seq<U8>, v1: seq<P.Field>): Result<Frame, Error> {
    if frameType == T_CONNECTION_REQUEST then
      var r :- ParseRequest(body);
      Ok(RequestFrame(r))
    else if frameType == T_CONNECTION_RESPONSE then
      var r :- ParseResponse(body);
      Ok(ResponseFrame(r))
    else if frameType == T_PAYLOAD_TRANSFER then
      var t :- ParseTransfer(body);
      Ok(TransferFrame(t))
    else if frameType == T_KEEP_ALIVE then
      var fs :- Scan(body);
      Ok(KeepAlive(Number(fs, KA_ACK) != 0, Number(fs, KA_SEQ_NUM)))
    else if frameType == T_DISCONNECTION then
      var fs :- Scan(Blob(v1, V1_DISCONNECTION));
      Ok(Disconnection(Number(fs, DC_REQUEST_SAFE) != 0, Number(fs, DC_ACK_SAFE) != 0))
    else if frameType == T_BANDWIDTH_UPGRADE then Ok(BandwidthUpgrade(body))
    else Ok(UnknownFrame(frameType))
  }

  function Parse(b: seq<U8>): Result<Frame, Error> {
    var outer :- Scan(b);
    match P.LastBytes(outer, OF_V1)
    case None => Err(Malformed("no v1 frame"))
    case Some(v1) =>
      var fs :- Scan(v1);
      match P.LastVarint(fs, V1_TYPE)
      case None => Err(Malformed("no frame type"))
      case Some(ty) => Dispatch(ty, LastBody(fs).GetOr([]), fs)
  }

  /** The loop at the head of `parse`: the frame type and the last body seen. */
  method ScanEnvelope(v1: seq<U8>) returns (r: Result<(Option<U64>, Option<seq<U8>>), P.Error>)
    ensures match P.Fields(v1)
      case Ok(fs) => r == Ok((P.LastVarint(fs, V1_TYPE), LastBody(fs)))
      case Err(e) => r == Err(e)
  {
    hide P.Fields, P.NextField, P.LastVarint, LastBody, P.ReadSoFar;
    var reader := new P.Reader(v1);
    var ty: Option<U64> := None;
    var body: Option<seq<U8>> := None;
    ghost var seen: seq<P.Field> := [];
    P.NothingRead(v1, V1_TYPE);
    NoBody();
    while true
      invariant reader.Valid() && reader.buf == v1
      invariant ty == P.LastVarint(seen, V1_TYPE) && body == LastBody(seen) && P.ReadSoFar(v1, seen, reader.Left())
      decreases |v1| - reader.pos
    {
      P.ReadNext(v1, seen, reader.Left());
      var f := reader.Next();
      if f.None? {
        return Ok((ty, body));
      }
      if f.value.Err? {
        return Err(f.value.error);
      }
      var got := f.value.value;
      P.LastSnoc(seen, got, V1_TYPE);
      LastBodySnoc(seen, got);
      match got {
        case Varint(n, v) =>
          if n == V1_TYPE {
            ty := Some(v);
          }
        case Bytes(_, b) => body := Some(b);
      }
      seen := seen + [got];
    }
  }

  lemma NoBody()
    ensures LastBody([]) == None
  {
  }

  lemma LastBodySnoc(seen: seq<P.Field>, f: P.Field)
    ensures LastBody(seen + [f]) == if f.Bytes? then Some(f.b) else LastBody(seen)
  {
    assert (seen + [f])[..|seen|] == seen;
  }

  /** The loop of `parse_connection_request`, a field at a time. */
  method ScanRequest(b: seq<U8>) returns (r: Result<ConnectionRequest, Error>)
    ensures r == ParseRequest(b)
  {
    var reader := new P.Reader(b);
    var out := NO_REQUEST;
    assert b[0..] == b;
    while true
      invariant reader.Valid() && reader.buf == b
      invariant match Scan(reader.Left())
        case Ok(fs) => ParseRequest(b) == Ok(AbsorbAll(out, fs))
        case Err(e) => ParseRequest(b) == Err(e)
      decreases |b| - reader.pos
    {
      var f := reader.Next();
      if f.None? {
        return Ok(out);
      }
      if f.value.Err? {
        return Err(Wire(f.value.error));
      }
      out := Absorb(out, f.value.value);
    }
  }

  // -------------------------------------------------------------------- round trips ---

  lemma OptionalLookup(n: U32, b: seq<U8>)
    ensures forall m: U32 :: P.LastBytes(OptionalBytes(n, b), m) == if m == n && b != [] then Some(b) else None
    ensures forall m: U32 :: P.LastVarint(OptionalBytes(n, b), m) == None
  {
    var fs := OptionalBytes(n, b);
    P.Lookup(fs);
    if b != [] {
      assert fs[0] == P.Bytes(n, b) && fs[..0] == [];
    }
  }

  lemma EnvelopeLookups(frameType: U64, field: U32, body: seq<U8>)
    ensures forall v1: seq<U8> :: P.LastBytes(OuterFields(v1), OF_V1) == Some(v1)
    ensures var inner := InnerFields(frameType, field, body);
      P.LastVarint(inner, V1_TYPE) == Some(frameType) && LastBody(inner) == Some(body)
  {
    forall v1: seq<U8> ensures P.LastBytes(OuterFields(v1), OF_V1) == Some(v1) {
      var outer := OuterFields(v1);
      assert outer[|outer| - 1] == P.Bytes(OF_V1, v1);
    }
    var inner := InnerFields(frameType, field, body);
    assert inner[..1] == [P.Varint(V1_TYPE, frameType)];
    assert P.LastVarint(inner[..1], V1_TYPE) == Some(frameType);
  }

  lemma EnvelopeRoundTrip(frameType: U64, field: U32, body: seq<U8>)
    requires |Offline(frameType, field, body)| < TWO_64
    ensures Parse(Offline(frameType, field, body)) == Dispatch(frameType, body, InnerFields(frameType, field, body))
    ensures |body| < TWO_64
  {
    var inner := InnerFields(frameType, field, body);
    var v1 := P.Encode(inner);
    P.PartsShorter(OuterFields(v1), 1);
    P.PartsShorter(inner, 1);
    P.FieldsRoundTrip(OuterFields(v1));
    P.FieldsRoundTrip(inner);
    EnvelopeLookups(frameType, field, body);
  }

  lemma HeaderLookups(id: U64, kind: U64, size: U64, sensitive: U64, name: seq<U8>, folder: seq<U8>)
    ensures var fs := NumberFields(id, kind, size, sensitive) + OptionalBytes(PH_FILE_NAME, name) + OptionalBytes(PH_PARENT_FOLDER, folder);
      && Number(fs, PH_ID) == id && Number(fs, PH_TYPE) == kind && Number(fs, PH_TOTAL_SIZE) == size
      && Number(fs, PH_IS_SENSITIVE) == sensitive && Blob(fs, PH_FILE_NAME) == name && Blob(fs, PH_PARENT_FOLDER) == folder
  {
    var base := NumberFields(id, kind, size, sensitive);
    P.Lookup(base);
    P.LookupAppend(base, OptionalBytes(PH_FILE_NAME, name));
    P.LookupAppend(base + OptionalBytes(PH_FILE_NAME, name), OptionalBytes(PH_PARENT_FOLDER, folder));
    OptionalLookup(PH_FILE_NAME, name);
    OptionalLookup(PH_PARENT_FOLDER, folder);
    assert P.Absent(base, PH_FILE_NAME) && P.Absent(base, PH_PARENT_FOLDER);
    assert base[0].field == PH_ID && base[1].field == PH_TYPE && base[2].field == PH_TOTAL_SIZE && base[3].field == PH_IS_SENSITIVE;
  }

  lemma HeaderRoundTrip(h: PayloadHeader)
    ensures HeaderOf(HeaderFields(h)) == h
  {
    HeaderLookups(U64OfI64(h.id), h.payloadType.Code(), U64OfI64(h.totalSize), Flag(h.isSensitive),
      Utf8.Encode(h.fileName), Utf8.Encode(h.parentFolder));
    Utf8.LossyRoundTrip(h.fileName);
    Utf8.LossyRoundTrip(h.parentFolder);
    SignedRoundTrip(h.id, 0);
    SignedRoundTrip(h.totalSize, 0);
  }

  lemma PacketLookups(packet: U64, header: seq<U8>, partField: U32, part: seq<U8>)
    requires partField == PT_PAYLOAD_CHUNK || partField == PT_CONTROL_MESSAGE
    ensures var fs := PacketFields(packet, header, partField, part);
      && Number(fs, PT_PACKET_TYPE) == packet && P.LastBytes(fs, PT_PAYLOAD_HEADER) == Some(header)
      && P.LastBytes(fs, partField) == Some(part)
      && P.LastBytes(fs, if partField == PT_PAYLOAD_CHUNK then PT_CONTROL_MESSAGE else PT_PAYLOAD_CHUNK) == None
  {
    var fs := PacketFields(packet, header, partField, part);
    P.Lookup(fs);
    assert fs[0].field == PT_PACKET_TYPE && fs[1].field == PT_PAYLOAD_HEADER && fs[2].field == partField;
    assert P.Absent(fs, if partField == PT_PAYLOAD_CHUNK then PT_CONTROL_MESSAGE else PT_PAYLOAD_CHUNK);
  }

  lemma ChunkRoundTrip(c: PayloadChunk)
    ensures var fs := ChunkFields(c);
      PayloadChunk(Number(fs, PC_FLAGS), I64OfU64(Number(fs, PC_OFFSET)), Blob(fs, PC_BODY)) == c
  {
    var fs := ChunkFields(c);
    P.Lookup(fs);
    SignedRoundTrip(c.offset, 0);
    assert fs[0].field == PC_FLAGS && fs[1].field == PC_OFFSET && fs[2].field == PC_BODY;
  }

  /** Every data frame a sender builds is read back as the same header and chunk. */
  lemma PayloadDataRoundTrip(h: PayloadHeader, c: PayloadChunk)
    requires |PayloadData(h, c)| < TWO_64
    ensures Parse(PayloadData(h, c)) == Ok(TransferFrame(PayloadTransfer(Data, h, Some(c), None)))
  {
    hide P.Encode, P.Fields, P.LastBytes, P.LastVarint, Offline, Parse;
    var fs := DataFields(h, c);
    EnvelopeRoundTrip(T_PAYLOAD_TRANSFER, V1_PAYLOAD_TRANSFER, P.Encode(fs));
    P.FieldsRoundTrip(fs);
    PacketLookups(1, P.Encode(HeaderFields(h)), PT_PAYLOAD_CHUNK, P.Encode(ChunkFields(c)));
    P.PartsShorter(fs, 1);
    P.PartsShorter(fs, 2);
    P.FieldsRoundTrip(HeaderFields(h));
    P.FieldsRoundTrip(ChunkFields(c));
    HeaderRoundTrip(h);
    ChunkRoundTrip(c);
  }

  lemma BareHeaderRoundTrip(h: PayloadHeader)
    ensures HeaderOf(BareHeaderFields(h)) == h.(isSensitive := false, fileName := "", parentFolder := "")
  {
    var hs := BareHeaderFields(h);
    P.Lookup(hs);
    SignedRoundTrip(h.id, 0);
    SignedRoundTrip(h.totalSize, 0);
    assert hs[0].field == PH_ID && hs[1].field == PH_TYPE && hs[2].field == PH_TOTAL_SIZE;
    assert P.Absent(hs, PH_IS_SENSITIVE) && P.Absent(hs, PH_FILE_NAME) && P.Absent(hs, PH_PARENT_FOLDER);
  }

  lemma MessageRoundTrip(event: U64, offset: I64)
    ensures var fs := MessageFields(event, offset); Number(fs, CM_EVENT) == event && I64OfU64(Number(fs, CM_OFFSET)) == offset
  {
    var ms := MessageFields(event, offset);
    P.Lookup(ms);
    SignedRoundTrip(offset, 0);
    assert ms[0].field == CM_EVENT && ms[1].field == CM_OFFSET;
  }

  /** A control frame keeps the payload id, kind and size, and drops what the header says beside them. */
  lemma PayloadControlRoundTrip(h: PayloadHeader, event: U64, offset: I64)
    requires |PayloadControl(h, event, offset)| < TWO_64
    ensures Parse(PayloadControl(h, event, offset)) == Ok(TransferFrame(PayloadTransfer(
        Control, h.(isSensitive := false, fileName := "", parentFolder := ""), None, Some((event, offset)))))
  {
    var fs := ControlFields(h, event, offset);
    EnvelopeRoundTrip(T_PAYLOAD_TRANSFER, V1_PAYLOAD_TRANSFER, P.Encode(fs));
    P.FieldsRoundTrip(fs);
    PacketLookups(2, P.Encode(BareHeaderFields(h)), PT_CONTROL_MESSAGE, P.Encode(MessageFields(event, offset)));
    P.PartsShorter(fs, 1);
    P.PartsShorter(fs, 2);
    P.FieldsRoundTrip(BareHeaderFields(h));
    P.FieldsRoundTrip(MessageFields(event, offset));
    BareHeaderRoundTrip(h);
    MessageRoundTrip(event, offset);
  }

  lemma UpgradeRoundTrip(body: seq<U8>)
    requires |UpgradeEnvelope(body)| < TWO_64
    ensures Parse(UpgradeEnvelope(body)) == Ok(BandwidthUpgrade(body))
  {
    EnvelopeRoundTrip(T_BANDWIDTH_UPGRADE, V1_BANDWIDTH_UPGRADE, body);
  }

  lemma {:induction false} AbsorbAppend(out: ConnectionRequest, a: seq<P.Field>, b: seq<P.Field>)
    ensures AbsorbAll(out, a + b) == AbsorbAll(AbsorbAll(out, a), b)
    decreases |a|
  {
    if a == [] {
      assert a + b == b;
    } else {
      assert (a + b)[1..] == a[1..] + b;
      AbsorbAppend(Absorb(out, a[0]), a[1..], b);
    }
  }

  lemma {:induction false} AbsorbMediums(out: ConnectionRequest, mediums: seq<U64>)
    ensures AbsorbAll(out, MediumFields(mediums)) == out.(mediums := out.mediums + mediums)
    decreases |mediums|
  {
    if mediums != [] {
      var next := Absorb(out, P.Varint(CR_MEDIUMS, mediums[0]));
      assert MediumFields(mediums)[1..] == MediumFields(mediums[1..]);
      AbsorbMediums(next, mediums[1..]);
      assert out.mediums + mediums == next.mediums + mediums[1..];
    }
  }

  lemma AbsorbOne(out: ConnectionRequest, f: P.Field)
    ensures AbsorbAll(out, [f]) == Absorb(out, f)
  {
    assert AbsorbAll(Absorb(out, f), []) == Absorb(out, f);
  }

  lemma AbsorbOptional(out: ConnectionRequest, n: U32, v: Option<U64>)
    ensures AbsorbAll(out, OptionalVarint(n, v)) == if v.None? then out else Absorb(out, P.Varint(n, v.value))
  {
    if v.Some? {
      AbsorbOne(out, P.Varint(n, v.value));
    }
  }

  /** A connection request survives, repeated mediums in order and absent timers absent. */
  lemma RequestRoundTrip(r: ConnectionRequest)
    requires |BuildRequest(r)| < TWO_64
    ensures Parse(BuildRequest(r)) == Ok(RequestFrame(r))
  {
    EnvelopeRoundTrip(T_CONNECTION_REQUEST, V1_CONNECTION_REQUEST, P.Encode(RequestFields(r)));
    P.FieldsRoundTrip(RequestFields(r));
    RequestFieldsAbsorb(r);
  }

  lemma AbsorbHead(r: ConnectionRequest)
    ensures AbsorbAll(NO_REQUEST, IdentityFields(r))
      == NO_REQUEST.(endpointId := r.endpointId, endpointName := r.endpointName, handshakeData := r.handshakeData, nonce := r.nonce)
  {
    var f0, f1 := P.Bytes(CR_ENDPOINT_ID, Utf8.Encode(r.endpointId)), P.Bytes(CR_ENDPOINT_NAME, Utf8.Encode(r.endpointName));
    var f2, f3 := P.Bytes(CR_HANDSHAKE_DATA, r.handshakeData), P.Varint(CR_NONCE, U64OfI64(r.nonce));
    assert IdentityFields(r) == [f0] + ([f1] + ([f2] + [f3]));
    Utf8.LossyRoundTrip(r.endpointId);
    Utf8.LossyRoundTrip(r.endpointName);
    SignedRoundTrip(r.nonce, 0);
    var o1 := Absorb(NO_REQUEST, f0);
    var o2 := Absorb(o1, f1);
    var o3 := Absorb(o2, f2);
    AbsorbAppend(NO_REQUEST, [f0], [f1] + ([f2] + [f3]));
    AbsorbOne(NO_REQUEST, f0);
    AbsorbAppend(o1, [f1], [f2] + [f3]);
    AbsorbOne(o1, f1);
    AbsorbAppend(o2, [f2], [f3]);
    AbsorbOne(o2, f2);
    AbsorbOne(o3, f3);
  }

  lemma AbsorbTimers(o: ConnectionRequest, r: ConnectionRequest)
    requires o.keepAliveInterval.None? && o.keepAliveTimeout.None?
    ensures AbsorbAll(o, TimerFields(r)) == o.(keepAliveInterval := r.keepAliveInterval, keepAliveTimeout := r.keepAliveTimeout)
  {
    var interval, timeout := OptionalVarint(CR_KEEPALIVE_INTERVAL, r.keepAliveInterval), OptionalVarint(CR_KEEPALIVE_TIMEOUT, r.keepAliveTimeout);
    var device := P.Bytes(CR_CONNECTIONS_DEVICE, ConnectionsDevice(r));
    AbsorbAppend(o, interval, timeout + [device]);
    AbsorbOptional(o, CR_KEEPALIVE_INTERVAL, r.keepAliveInterval);
    var o1 := o.(keepAliveInterval := r.keepAliveInterval);
    AbsorbAppend(o1, timeout, [device]);
    AbsorbOptional(o1, CR_KEEPALIVE_TIMEOUT, r.keepAliveTimeout);
    AbsorbOne(o1.(keepAliveTimeout := r.keepAliveTimeout), device);
  }

  lemma AbsorbInfo(o: ConnectionRequest, r: ConnectionRequest)
    ensures AbsorbAll(o, InfoFields(r)) == o.(endpointInfo := r.endpointInfo)
  {
    var info, meta := P.Bytes(CR_ENDPOINT_INFO, r.endpointInfo), P.Bytes(CR_MEDIUM_METADATA, MediumMetadata());
    assert InfoFields(r) == [info] + [meta];
    AbsorbAppend(o, [info], [meta]);
    AbsorbOne(o, info);
    AbsorbOne(o.(endpointInfo := r.endpointInfo), meta);
  }

  lemma RequestFieldsAbsorb(r: ConnectionRequest)
    ensures AbsorbAll(NO_REQUEST, RequestFields(r)) == r
  {
    AbsorbHead(r);
    var o1 := AbsorbAll(NO_REQUEST, IdentityFields(r));
    AbsorbAppend(NO_REQUEST, IdentityFields(r), MediumFields(r.mediums) + (InfoFields(r) + TimerFields(r)));
    AbsorbAppend(o1, MediumFields(r.mediums), InfoFields(r) + TimerFields(r));
    AbsorbMediums(o1, r.mediums);
    assert o1.mediums + r.mediums == r.mediums;
    var o2 := o1.(mediums := r.mediums);
    AbsorbAppend(o2, InfoFields(r), TimerFields(r));
    AbsorbInfo(o2, r);
    AbsorbTimers(o2.(endpointInfo := r.endpointInfo), r);
  }

  lemma OneVarint(n: U32, v: U64)
    ensures forall m: U32 :: P.LastVarint([P.Varint(n, v)], m) == if m == n then Some(v) else None
    ensures forall m: U32 :: P.LastBytes([P.Varint(n, v)], m) == None
  {
    var fs := [P.Varint(n, v)];
    P.Lookup(fs);
    assert fs[..0] == [] && fs[0] == P.Varint(n, v);
  }

  lemma ResponseLookups(status: U64, answer: U64, os: seq<U8>)
    ensures var fs := StatusFields(status, answer, os);
      && P.LastVarint(fs, RSP_RESPONSE) == Some(answer) && P.LastBytes(fs, RSP_OS_INFO) == Some(os)
      && P.LastBytes(fs, RSP_HANDSHAKE_DATA) == None && P.LastVarint(fs, RSP_SAFE_TO_DISCONNECT) == Some(SAFE_TO_DISCONNECT_VERSION)
  {
    hide P.LastBytes, P.LastVarint;
    var fs := StatusFields(status, answer, os);
    P.Lookup(fs);
    assert fs[1].field == RSP_RESPONSE && fs[2].field == RSP_OS_INFO && fs[4].field == RSP_SAFE_TO_DISCONNECT;
    assert P.Absent(fs, RSP_HANDSHAKE_DATA);
  }

  /** Our answer to a connection reads back as that answer, from that system, able to disconnect safely. */
  lemma ResponseRoundTrip(answer: Answer, os: OsType)
    requires |BuildResponse(answer, os)| < TWO_64
    ensures Parse(BuildResponse(answer, os)) == Ok(ResponseFrame(ConnectionResponse(answer, os, [], SAFE_TO_DISCONNECT_VERSION)))
  {
    hide P.LastBytes, P.LastVarint, P.Encode, P.Fields, Offline, Parse;
    var fs, inner := ResponseFields(answer, os), [P.Varint(OS_TYPE, os.Code())];
    EnvelopeRoundTrip(T_CONNECTION_RESPONSE, V1_CONNECTION_RESPONSE, P.Encode(fs));
    P.FieldsRoundTrip(fs);
    assert fs[2] == P.Bytes(RSP_OS_INFO, P.Encode(inner));
    P.PartsShorter(fs, 2);
    P.FieldsRoundTrip(inner);
    OneVarint(OS_TYPE, os.Code());
    ResponseLookups(if answer.Accept? then 0 else 1, answer.Code(), P.Encode(inner));
  }

  /** A peer too old to send `response` still says yes with a status of zero, and no with any other. */
  lemma LegacyStatusIsUnderstood(status: U64)
    requires |P.Encode([P.Varint(RSP_STATUS, status)])| < TWO_64
    ensures ParseResponse(P.Encode([P.Varint(RSP_STATUS, status)]))
      == Ok(ConnectionResponse(if status == 0 then Accept else Reject, UnknownOs, [], 0))
  {
    hide P.LastBytes, P.LastVarint, P.Encode, P.Fields;
    P.FieldsRoundTrip([P.Varint(RSP_STATUS, status)]);
    OneVarint(RSP_STATUS, status);
  }

  /** What a peer reads that knows one field of a message. */
  function OnlyField(fs: seq<P.Field>, n: U32): seq<P.Field> {
    if fs == [] then [] else (if fs[0].field == n then [fs[0]] else []) + OnlyField(fs[1..], n)
  }

  lemma OnlyStatus(status: U64, answer: U64, os: seq<U8>)
    ensures OnlyField(StatusFields(status, answer, os), RSP_STATUS) == [P.Varint(RSP_STATUS, status)]
  {
    var fs := StatusFields(status, answer, os);
    assert fs == [fs[0]] + fs[1..];
    NoStatus(fs[1..]);
  }

  lemma {:induction false} NoStatus(fs: seq<P.Field>)
    requires forall i :: 0 <= i < |fs| ==> fs[i].field != RSP_STATUS
    ensures OnlyField(fs, RSP_STATUS) == []
  {
    if fs != [] {
      NoStatus(fs[1..]);
    }
  }

  /** So our answer also reaches a peer that old: of what we write it reads the status alone, and that says the same. */
  lemma OldPeerHears(answer: Answer, os: OsType)
    requires |BuildResponse(answer, os)| < TWO_64
    ensures ParseResponse(P.Encode(OnlyField(ResponseFields(answer, os), RSP_STATUS)))
      == Ok(ConnectionResponse(if answer.Accept? then Accept else Reject, UnknownOs, [], 0))
  {
    hide P.Encode, P.Fields, ParseResponse, OnlyField, Offline;
    var fs := ResponseFields(answer, os);
    OnlyStatus(if answer.Accept? then 0 else 1, answer.Code(), P.Encode([P.Varint(OS_TYPE, os.Code())]));
    EnvelopeRoundTrip(T_CONNECTION_RESPONSE, V1_CONNECTION_RESPONSE, P.Encode(fs));
    StatusShorter(fs);
    LegacyStatusIsUnderstood(if answer.Accept? then 0 else 1);
  }

  lemma StatusShorter(fs: seq<P.Field>)
    requires fs != [] && |P.Encode(fs)| < TWO_64
    ensures |P.Encode([fs[0]])| < TWO_64
  {
    assert [fs[0]][1..] == [];
  }

  lemma KeepAliveRoundTrip(ack: bool, seqNum: U64)
    requires |BuildKeepAlive(ack, seqNum)| < TWO_64
    ensures Parse(BuildKeepAlive(ack, seqNum)) == Ok(KeepAlive(ack, seqNum))
  {
    hide P.LastBytes, P.LastVarint, P.Encode, P.Fields, Offline, Parse;
    var fs := KeepAliveFields(ack, seqNum);
    EnvelopeRoundTrip(T_KEEP_ALIVE, V1_KEEP_ALIVE, P.Encode(fs));
    P.FieldsRoundTrip(fs);
    P.Lookup(fs);
    assert fs[0].field == KA_ACK && fs[1].field == KA_SEQ_NUM;
  }

  lemma DisconnectionLookups(requestSafe: bool, ackSafe: bool)
    ensures var fs := DisconnectionFields(requestSafe, ackSafe);
      Number(fs, DC_REQUEST_SAFE) == Flag(requestSafe) && Number(fs, DC_ACK_SAFE) == Flag(ackSafe)
  {
    hide P.LastBytes, P.LastVarint;
    var a := OptionalVarint(DC_REQUEST_SAFE, if requestSafe then Some(1) else None);
    var b := OptionalVarint(DC_ACK_SAFE, if ackSafe then Some(1) else None);
    OptionalVarintLookup(DC_REQUEST_SAFE, if requestSafe then Some(1) else None);
    OptionalVarintLookup(DC_ACK_SAFE, if ackSafe then Some(1) else None);
    P.LookupAppend(a, b);
  }

  lemma OptionalVarintLookup(n: U32, v: Option<U64>)
    ensures forall m: U32 :: P.LastVarint(OptionalVarint(n, v), m) == if m == n then v else None
    ensures forall m: U32 :: P.LastBytes(OptionalVarint(n, v), m) == None
  {
    if v.Some? {
      OneVarint(n, v.value);
    }
  }

  lemma DisconnectionRoundTrip(requestSafe: bool, ackSafe: bool)
    requires |BuildDisconnection(requestSafe, ackSafe)| < TWO_64
    ensures Parse(BuildDisconnection(requestSafe, ackSafe)) == Ok(Disconnection(requestSafe, ackSafe))
  {
    hide P.LastBytes, P.LastVarint, P.Encode, P.Fields, Offline, Parse, DisconnectionFields;
    var fs := DisconnectionFields(requestSafe, ackSafe);
    EnvelopeRoundTrip(T_DISCONNECTION, V1_DISCONNECTION, P.Encode(fs));
    P.FieldsRoundTrip(fs);
    DisconnectionLookups(requestSafe, ackSafe);
    var inner := InnerFields(T_DISCONNECTION, V1_DISCONNECTION, P.Encode(fs));
    P.Lookup(inner);
    assert inner[1].field == V1_DISCONNECTION;
  }
}
