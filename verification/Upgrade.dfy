/** Bandwidth-upgrade frames: the offer of a faster medium, the request for one, and the handover frames. */
module Upgrade {
  import opened Bytes
  import P = Protobuf
  import F = Frames
  import Utf8

  const BW_EVENT_TYPE := 1
  const BW_UPGRADE_PATH_INFO := 2
  const BW_CLIENT_INTRODUCTION := 3
  const BW_CLIENT_INTRODUCTION_ACK := 4
  const BW_SAFE_TO_CLOSE := 5

  const E_UPGRADE_PATH_AVAILABLE := 1
  const E_LAST_WRITE_TO_PRIOR := 2
  const E_SAFE_TO_CLOSE_PRIOR := 3
  const E_CLIENT_INTRODUCTION := 4
  const E_UPGRADE_FAILURE := 5
  const E_CLIENT_INTRODUCTION_ACK := 6
  const E_UPGRADE_PATH_REQUEST := 7

  const UP_MEDIUM := 1
  const UP_WIFI_HOTSPOT := 2
  const UP_WIFI_LAN := 3
  const UP_WIFI_DIRECT := 6
  const UP_SUPPORTS_DISABLING_ENCRYPTION := 7
  const UP_SUPPORTS_INTRODUCTION_ACK := 9
  const UP_UPGRADE_PATH_REQUEST := 10

  const UPR_MEDIUMS := 1
  const UPR_MEDIUM_METADATA := 2
  const MM_MEDIUM_ROLE := 12
  const MM_SUPPORTED_WIFI_DIRECT_AUTH := 13
  const MR_WIFI_DIRECT_GROUP_OWNER := 1
  const MR_WIFI_DIRECT_GROUP_CLIENT := 2
  const WIFI_DIRECT_WITH_PASSWORD := 1

  const STA_FREQUENCY_NOT_SET := -1

  const HS_SSID := 1
  const HS_PASSWORD := 2
  const HS_PORT := 3
  const HS_GATEWAY := 4
  const HS_FREQUENCY := 5
  const WD_SSID := 1
  const WD_PASSWORD := 2
  const WD_PORT := 3
  const WD_FREQUENCY := 4
  const WD_GATEWAY := 5
  const LAN_IP := 1
  const LAN_PORT := 2
  const CI_ENDPOINT_ID := 1
  const CI_SUPPORTS_DISABLING_ENCRYPTION := 2
  const SC_STA_FREQUENCY := 1

  const ANY_GATEWAY := "0.0.0.0"

  datatype Medium = UnknownMedium | Bluetooth | WifiHotspot | Ble | WifiLan | WifiAware | WifiDirect | Awdl {
    function Code(): U64 {
      match this
      case UnknownMedium => 0
      case Bluetooth => 2
      case WifiHotspot => 3
      case Ble => 4
      case WifiLan => 5
      case WifiAware => 6
      case WifiDirect => 8
      case Awdl => 13
    }

    static function From(v: U64): Medium {
      if v == 2 then Bluetooth else if v == 3 then WifiHotspot else if v == 4 then Ble else if v == 5 then WifiLan
      else if v == 6 then WifiAware else if v == 8 then WifiDirect else if v == 13 then Awdl else UnknownMedium
    }
  }

  datatype WifiCredentials = WifiCredentials(ssid: string, password: string, port: I32, gateway: string, frequency: I32)

  datatype LanSocket = LanSocket(ip: seq<U8>, port: I32)

  datatype UpgradePath = UpgradePath(
    medium: Medium, wifi: Option<WifiCredentials>, lan: Option<LanSocket>,
    supportsIntroductionAck: bool, supportsDisablingEncryption: bool)

  datatype Frame =
    | PathRequest(mediums: seq<Medium>)
    | PathAvailable(path: UpgradePath)
    | ClientIntroduction(endpointId: string)
    | ClientIntroductionAck
    | LastWriteToPrior
    | SafeToClosePrior(staFrequency: I32)
    | Failure
    | UnknownFrame(event: U64)

  // ---------------------------------------------------------------------- encoding ---

  /** Wi-Fi Direct and hotspot credentials number their last two fields the other way round. */
  function WifiFields(ssid: seq<U8>, password: seq<U8>, port: U64, gateway: seq<U8>, frequency: U64, direct: bool): seq<P.Field> {
    if direct then
      [P.Bytes(WD_SSID, ssid), P.Bytes(WD_PASSWORD, password), P.Varint(WD_PORT, port), P.Varint(WD_FREQUENCY, frequency),
       P.Bytes(WD_GATEWAY, gateway)]
    else
      [P.Bytes(HS_SSID, ssid), P.Bytes(HS_PASSWORD, password), P.Varint(HS_PORT, port), P.Bytes(HS_GATEWAY, gateway),
       P.Varint(HS_FREQUENCY, frequency)]
  }

  function CredentialFields(c: WifiCredentials, direct: bool): seq<P.Field> {
    WifiFields(Utf8.Encode(c.ssid), Utf8.Encode(c.password), U64OfI32(c.port), Utf8.Encode(c.gateway), U64OfI32(c.frequency), direct)
  }

  function LanFields(l: LanSocket): seq<P.Field> { [P.Bytes(LAN_IP, l.ip), P.Varint(LAN_PORT, U64OfI32(l.port))] }

  function OptionalBlob(n: U32, b: Option<seq<U8>>): seq<P.Field> {
    if b.None? then [] else [P.Bytes(n, b.value)]
  }

  function WifiField(direct: bool): U32 { if direct then UP_WIFI_DIRECT else UP_WIFI_HOTSPOT }

  function InfoFields(medium: U64, wifi: Option<seq<U8>>, lan: Option<seq<U8>>, encryption: U64, ack: U64, direct: bool): seq<P.Field> {
    [P.Varint(UP_MEDIUM, medium)]
    + (OptionalBlob(WifiField(direct), wifi)
    + (OptionalBlob(UP_WIFI_LAN, lan)
    + [P.Varint(UP_SUPPORTS_DISABLING_ENCRYPTION, encryption), P.Varint(UP_SUPPORTS_INTRODUCTION_ACK, ack)]))
  }

  function WifiBlob(p: UpgradePath): Option<seq<U8>> {
    if p.wifi.None? then None else Some(P.Encode(CredentialFields(p.wifi.value, p.medium == WifiDirect)))
  }

  function LanBlob(p: UpgradePath): Option<seq<U8>> {
    if p.lan.None? then None else Some(P.Encode(LanFields(p.lan.value)))
  }

  function PathFields(p: UpgradePath): seq<P.Field> {
    InfoFields(p.medium.Code(), WifiBlob(p), LanBlob(p), F.Flag(p.supportsDisablingEncryption), F.Flag(p.supportsIntroductionAck),
      p.medium == WifiDirect)
  }

  /** An event type, and at most one nested message. */
  function EventFields(event: U64, field: U32, part: Option<seq<U8>>): seq<P.Field> {
    [P.Varint(BW_EVENT_TYPE, event)] + OptionalBlob(field, part)
  }

  function Build(event: U64, field: U32, part: Option<seq<U8>>): seq<U8> {
    F.UpgradeEnvelope(P.Encode(EventFields(event, field, part)))
  }

  function BuildPathAvailable(p: UpgradePath): seq<U8> {
    Build(E_UPGRADE_PATH_AVAILABLE, BW_UPGRADE_PATH_INFO, Some(P.Encode(PathFields(p))))
  }

  function IntroductionFields(endpointId: string): seq<P.Field> {
    [P.Bytes(CI_ENDPOINT_ID, Utf8.Encode(endpointId)), P.Varint(CI_SUPPORTS_DISABLING_ENCRYPTION, 0)]
  }

  function BuildClientIntroduction(endpointId: string): seq<U8> {
    Build(E_CLIENT_INTRODUCTION, BW_CLIENT_INTRODUCTION, Some(P.Encode(IntroductionFields(endpointId))))
  }

  function BuildClientIntroductionAck(): seq<U8> { Build(E_CLIENT_INTRODUCTION_ACK, BW_CLIENT_INTRODUCTION_ACK, Some([])) }

  function BuildLastWrite(): seq<U8> { Build(E_LAST_WRITE_TO_PRIOR, 0, None) }

  function BuildSafeToClose(frequency: I32): seq<U8> {
    Build(E_SAFE_TO_CLOSE_PRIOR, BW_SAFE_TO_CLOSE, Some(P.Encode([P.Varint(SC_STA_FREQUENCY, U64OfI32(frequency))])))
  }

  function BuildFailure(): seq<U8> { Build(E_UPGRADE_FAILURE, 0, None) }

  function Insert(m: Medium, ms: seq<Medium>): seq<Medium> {
    if ms == [] || m.Code() <= ms[0].Code() then [m] + ms else [ms[0]] + Insert(m, ms[1..])
  }

  /** The standard library's sort by number; equal keys are equal mediums, so stability is moot. */
  function Sort(ms: seq<Medium>): seq<Medium> {
    if ms == [] then [] else Insert(ms[0], Sort(ms[1..]))
  }

  function Pack(ms: seq<Medium>): seq<U8> {
    if ms == [] then [] else P.EncodeVarint(ms[0].Code()) + Pack(ms[1..])
  }

  function MetadataFields(ms: seq<Medium>): seq<P.Field> {
    if WifiDirect in ms then
      [P.Bytes(MM_MEDIUM_ROLE, P.Encode([P.Varint(MR_WIFI_DIRECT_GROUP_OWNER, 1), P.Varint(MR_WIFI_DIRECT_GROUP_CLIENT, 1)])),
       P.Bytes(MM_SUPPORTED_WIFI_DIRECT_AUTH, [WIFI_DIRECT_WITH_PASSWORD])]
    else []
  }

  function RequestFields(packed: seq<U8>, metadata: seq<U8>): seq<P.Field> {
    [P.Bytes(UPR_MEDIUMS, packed), P.Bytes(UPR_MEDIUM_METADATA, metadata)]
  }

  function RequestInfo(request: seq<U8>): seq<P.Field> { [P.Bytes(UP_UPGRADE_PATH_REQUEST, request)] }

  function RequestBlob(ms: seq<Medium>): seq<U8> {
    P.Encode(RequestFields(Pack(Sort(ms)), P.Encode(MetadataFields(Sort(ms)))))
  }

  function BuildPathRequest(ms: seq<Medium>): seq<U8> {
    Build(E_UPGRADE_PATH_REQUEST, BW_UPGRADE_PATH_INFO, Some(P.Encode(RequestInfo(RequestBlob(ms)))))
  }

  method PushVarint(packed: seq<U8>, v: U64) returns (out: seq<U8>)
    ensures out == packed + P.EncodeVarint(v)
  {
    out := packed;
    var left := v;
    while left >= 0x80
      invariant out + P.EncodeVarint(left) == packed + P.EncodeVarint(v)
    {
      out := out + [left % 0x80 + 0x80];
      left := left / 0x80;
    }
    out := out + [left];
  }

  /** The packing loop of `path_request`: varints one after another, with no tags. */
  method PackMediums(ms: seq<Medium>) returns (packed: seq<U8>)
    ensures packed == Pack(ms)
  {
    packed := [];
    var i := 0;
    while i < |ms|
      invariant 0 <= i <= |ms|
      invariant packed + Pack(ms[i..]) == Pack(ms)
    {
      ghost var before := packed;
      packed := PushVarint(packed, ms[i].Code());
      assert ms[i..][1..] == ms[i + 1..];
      Associate(before, P.EncodeVarint(ms[i].Code()), Pack(ms[i + 1..]));
      i := i + 1;
    }
  }

  // ---------------------------------------------------------------------- decoding ---

  /** Stops at the first varint that does not read, and drops mediums it does not know. */
  function Unpack(b: seq<U8>): seq<Medium>
    decreases |b|
  {
    match P.ReadVarint(b)
    case Err(_) => []
    case Ok((v, rest)) => (if Medium.From(v).UnknownMedium? then [] else [Medium.From(v)]) + Unpack(rest)
  }

  function Scan(b: Option<seq<U8>>): Result<seq<P.Field>, F.Error> { F.Scan(b.GetOr([])) }

  function WifiOf(fs: seq<P.Field>, direct: bool): WifiCredentials {
    var gateway := if direct then WD_GATEWAY else HS_GATEWAY;
    var frequency := if direct then WD_FREQUENCY else HS_FREQUENCY;
    WifiCredentials(
      F.Text(fs, if direct then WD_SSID else HS_SSID),
      F.Text(fs, if direct then WD_PASSWORD else HS_PASSWORD),
      I32OfU64(F.Number(fs, if direct then WD_PORT else HS_PORT)),
      if P.LastBytes(fs, gateway).Some? then F.Text(fs, gateway) else ANY_GATEWAY,
      if P.LastVarint(fs, frequency).Some? then I32OfU64(F.Number(fs, frequency)) else -1)
  }

  function ParseWifi(b: seq<U8>, direct: bool): Result<WifiCredentials, F.Error> {
    var fs :- F.Scan(b);
    Ok(WifiOf(fs, direct))
  }

  function ParseLan(b: seq<U8>): Result<LanSocket, F.Error> {
    var fs :- F.Scan(b);
    Ok(LanSocket(F.Blob(fs, LAN_IP), I32OfU64(F.Number(fs, LAN_PORT))))
  }

  /** Direct credentials win over a hotspot's, whatever the medium says. */
  function WifiPart(fs: seq<P.Field>): Result<Option<WifiCredentials>, F.Error> {
    match P.LastBytes(fs, UP_WIFI_DIRECT)
    case Some(c) => (match ParseWifi(c, true) case Ok(w) => Ok(Some(w)) case Err(e) => Err(e))
    case None =>
      match P.LastBytes(fs, UP_WIFI_HOTSPOT)
      case Some(c) => (match ParseWifi(c, false) case Ok(w) => Ok(Some(w)) case Err(e) => Err(e))
      case None => Ok(None)
  }

  function LanPart(fs: seq<P.Field>): Result<Option<LanSocket>, F.Error> {
    match P.LastBytes(fs, UP_WIFI_LAN)
    case Some(l) => (match ParseLan(l) case Ok(s) => Ok(Some(s)) case Err(e) => Err(e))
    case None => Ok(None)
  }

  function PathOf(fs: seq<P.Field>): Result<UpgradePath, F.Error> {
    var wifi :- WifiPart(fs);
    var lan :- LanPart(fs);
    Ok(UpgradePath(Medium.From(F.Number(fs, UP_MEDIUM)), wifi, lan,
      F.Number(fs, UP_SUPPORTS_INTRODUCTION_ACK) != 0, F.Number(fs, UP_SUPPORTS_DISABLING_ENCRYPTION) != 0))
  }

  function Dispatch(event: U64, fs: seq<P.Field>): Result<Frame, F.Error> {
    if event == E_UPGRADE_PATH_AVAILABLE then
      match P.LastBytes(fs, BW_UPGRADE_PATH_INFO)
      case None => Err(F.Malformed("no upgrade path info"))
      case Some(b) =>
        var info :- F.Scan(b);
        var path :- PathOf(info);
        Ok(PathAvailable(path))
    else if event == E_CLIENT_INTRODUCTION then
      var ci :- Scan(P.LastBytes(fs, BW_CLIENT_INTRODUCTION));
      Ok(ClientIntroduction(F.Text(ci, CI_ENDPOINT_ID)))
    else if event == E_CLIENT_INTRODUCTION_ACK then Ok(ClientIntroductionAck)
    else if event == E_LAST_WRITE_TO_PRIOR then Ok(LastWriteToPrior)
    else if event == E_SAFE_TO_CLOSE_PRIOR then
      var sc :- Scan(P.LastBytes(fs, BW_SAFE_TO_CLOSE));
      Ok(SafeToClosePrior(I32OfU64(F.Number(sc, SC_STA_FREQUENCY))))
    else if event == E_UPGRADE_PATH_REQUEST then
      var info :- Scan(P.LastBytes(fs, BW_UPGRADE_PATH_INFO));
      var request :- Scan(P.LastBytes(info, UP_UPGRADE_PATH_REQUEST));
      Ok(PathRequest(Unpack(F.Blob(request, UPR_MEDIUMS))))
    else if event == E_UPGRADE_FAILURE then Ok(Failure)
    else Ok(UnknownFrame(event))
  }

  function Parse(body: seq<U8>): Result<Frame, F.Error> {
    var fs :- F.Scan(body);
    match P.LastVarint(fs, BW_EVENT_TYPE)
    case None => Err(F.Malformed("no event type"))
    case Some(event) => Dispatch(event, fs)
  }

  /** The inner loop of `parse_packed_mediums`: one varint, or nothing if it does not end in time. */
  method ReadPacked(packed: seq<U8>, start: nat) returns (v: Option<U64>, i: nat)
    requires start <= |packed|
    ensures match P.ReadVarint(packed[start..])
      case Ok((n, rest)) => v == Some(n) && start < i <= |packed| && packed[i..] == rest
      case Err(_) => v == None
  {
    i := start;
    var sum: nat := 0;
    var scale: nat := 1;
    var groups := 10;
    while true
      invariant start <= i <= |packed| && 0 < groups <= 10
      invariant P.PartlyRead(packed[start..], packed[i..], groups, sum, scale)
      decreases |packed| - i
    {
      if i == |packed| {
        return None, i;
      }
      var b := packed[i];
      assert packed[i..][1..] == packed[i + 1..];
      i := i + 1;
      if b < 128 {
        P.PartlyReadLast(packed[start..], packed[i - 1..], groups, sum, scale);
        return Some((sum + b * scale) % TWO_64), i;
      }
      P.PartlyReadStep(packed[start..], packed[i - 1..], groups, sum, scale);
      sum := sum + (b - 128) * scale;
      scale := scale * 128;
      groups := groups - 1;
      if groups == 0 {
        return None, i;
      }
    }
  }

  /** The outer loop of `parse_packed_mediums`. */
  method UnpackMediums(packed: seq<U8>) returns (out: seq<Medium>)
    ensures out == Unpack(packed)
  {
    hide P.ReadVarint;
    out := [];
    var i := 0;
    while i < |packed|
      invariant 0 <= i <= |packed|
      invariant out + Unpack(packed[i..]) == Unpack(packed)
      decreases |packed| - i
    {
      var v, next := ReadPacked(packed, i);
      if v.None? {
        return;
      }
      if !Medium.From(v.value).UnknownMedium? {
        out := out + [Medium.From(v.value)];
      }
      i := next;
    }
    assert P.ReadVarint(packed[i..]).Err? by {
      EmptyVarint();
    }
  }

  lemma EmptyVarint()
    ensures P.ReadVarint([]).Err?
  {
  }

  // -------------------------------------------------------------------- round trips ---

  /** What a peer makes of bytes off the wire: the offline frame, then the negotiation inside it. */
  ghost predicate ReadsAs(b: seq<U8>, f: Frame) {
    var outer := F.Parse(b);
    outer.Ok? && outer.value.BandwidthUpgrade? && Parse(outer.value.body) == Ok(f)
  }

  lemma OptionalBlobLookup(n: U32, b: Option<seq<U8>>)
    ensures forall m: U32 :: P.LastBytes(OptionalBlob(n, b), m) == if m == n then b else None
    ensures forall m: U32 :: P.LastVarint(OptionalBlob(n, b), m) == None
  {
    var fs := OptionalBlob(n, b);
    P.Lookup(fs);
    if b.Some? {
      assert fs[0] == P.Bytes(n, b.value) && fs[..0] == [];
    }
  }

  lemma OneBlob(n: U32, b: seq<U8>)
    ensures forall m: U32 :: P.LastBytes([P.Bytes(n, b)], m) == if m == n then Some(b) else None
  {
    OptionalBlobLookup(n, Some(b));
  }

  lemma EventLookups(event: U64, field: U32, part: Option<seq<U8>>)
    ensures P.LastVarint(EventFields(event, field, part), BW_EVENT_TYPE) == Some(event)
    ensures forall m: U32 :: P.LastBytes(EventFields(event, field, part), m) == if m == field then part else None
  {
    hide P.LastBytes, P.LastVarint, OptionalBlob;
    F.OneVarint(BW_EVENT_TYPE, event);
    OptionalBlobLookup(field, part);
    P.LookupAppend([P.Varint(BW_EVENT_TYPE, event)], OptionalBlob(field, part));
  }

  /** Through both layers, a built frame reads as whatever its own fields dispatch to. */
  lemma BuildRoundTrip(event: U64, field: U32, part: Option<seq<U8>>)
    requires |Build(event, field, part)| < TWO_64
    ensures F.Parse(Build(event, field, part)) == Ok(F.BandwidthUpgrade(P.Encode(EventFields(event, field, part))))
    ensures Parse(P.Encode(EventFields(event, field, part))) == Dispatch(event, EventFields(event, field, part))
    ensures part.Some? ==> |part.value| < TWO_64
  {
    hide P.LastBytes, P.LastVarint, P.Encode, P.Fields, F.Parse, F.Offline, Dispatch;
    var fs := EventFields(event, field, part);
    F.UpgradeRoundTrip(P.Encode(fs));
    BodyShorter(P.Encode(fs));
    P.FieldsRoundTrip(fs);
    EventLookups(event, field, part);
    if part.Some? {
      assert fs[1] == P.Bytes(field, part.value);
      P.PartsShorter(fs, 1);
    }
  }

  lemma BodyShorter(body: seq<U8>)
    requires |F.UpgradeEnvelope(body)| < TWO_64
    ensures |body| < TWO_64
  {
    F.EnvelopeRoundTrip(F.T_BANDWIDTH_UPGRADE, F.V1_BANDWIDTH_UPGRADE, body);
  }

  lemma BuildShorter(event: U64, field: U32, part: Option<seq<U8>>)
    requires |Build(event, field, part)| < TWO_64
    ensures |P.Encode(EventFields(event, field, part))| < TWO_64
  {
    BodyShorter(P.Encode(EventFields(event, field, part)));
  }

  lemma WifiLookups(ssid: seq<U8>, password: seq<U8>, port: U64, gateway: seq<U8>, frequency: U64, direct: bool)
    ensures var fs := WifiFields(ssid, password, port, gateway, frequency, direct);
      && P.LastBytes(fs, if direct then WD_SSID else HS_SSID) == Some(ssid)
      && P.LastBytes(fs, if direct then WD_PASSWORD else HS_PASSWORD) == Some(password)
      && P.LastVarint(fs, if direct then WD_PORT else HS_PORT) == Some(port)
      && P.LastBytes(fs, if direct then WD_GATEWAY else HS_GATEWAY) == Some(gateway)
      && P.LastVarint(fs, if direct then WD_FREQUENCY else HS_FREQUENCY) == Some(frequency)
  {
    hide P.LastBytes, P.LastVarint;
    var fs := WifiFields(ssid, password, port, gateway, frequency, direct);
    P.Lookup(fs);
    assert fs[0].field == 1 && fs[1].field == 2 && fs[2].field == 3 && fs[3].field == 4 && fs[4].field == 5;
  }

  lemma WifiRoundTrip(c: WifiCredentials, direct: bool)
    ensures WifiOf(CredentialFields(c, direct), direct) == c
  {
    hide P.LastBytes, P.LastVarint, WifiFields, Utf8.Encode, Utf8.Lossy, U64OfI32, I32OfU64;
    WifiLookups(Utf8.Encode(c.ssid), Utf8.Encode(c.password), U64OfI32(c.port), Utf8.Encode(c.gateway), U64OfI32(c.frequency), direct);
    Utf8.LossyRoundTrip(c.ssid);
    Utf8.LossyRoundTrip(c.password);
    Utf8.LossyRoundTrip(c.gateway);
    SignedRoundTrip(0, c.port);
    SignedRoundTrip(0, c.frequency);
  }

  lemma LanRoundTrip(l: LanSocket)
    requires |P.Encode(LanFields(l))| < TWO_64
    ensures ParseLan(P.Encode(LanFields(l))) == Ok(l)
  {
    hide P.LastBytes, P.LastVarint, P.Encode, P.Fields, U64OfI32, I32OfU64;
    var fs := LanFields(l);
    P.FieldsRoundTrip(fs);
    P.Lookup(fs);
    SignedRoundTrip(0, l.port);
    assert fs[0].field == LAN_IP && fs[1].field == LAN_PORT;
  }

  lemma FlagLookups(encryption: U64, ack: U64)
    ensures var fs := [P.Varint(UP_SUPPORTS_DISABLING_ENCRYPTION, encryption), P.Varint(UP_SUPPORTS_INTRODUCTION_ACK, ack)];
      && P.LastVarint(fs, UP_SUPPORTS_DISABLING_ENCRYPTION) == Some(encryption)
      && P.LastVarint(fs, UP_SUPPORTS_INTRODUCTION_ACK) == Some(ack) && P.LastVarint(fs, UP_MEDIUM) == None
      && forall n: U32 :: P.LastBytes(fs, n) == None
  {
    var fs := [P.Varint(UP_SUPPORTS_DISABLING_ENCRYPTION, encryption), P.Varint(UP_SUPPORTS_INTRODUCTION_ACK, ack)];
    P.Lookup(fs);
    assert fs[0].field == UP_SUPPORTS_DISABLING_ENCRYPTION && fs[1].field == UP_SUPPORTS_INTRODUCTION_ACK;
    assert P.Absent(fs, UP_MEDIUM);
    F.OneVarint(UP_SUPPORTS_DISABLING_ENCRYPTION, encryption);
    F.OneVarint(UP_SUPPORTS_INTRODUCTION_ACK, ack);
    P.LookupAppend([fs[0]], [fs[1]]);
    assert fs == [fs[0]] + [fs[1]];
  }

  lemma InfoLookups(medium: U64, wifi: Option<seq<U8>>, lan: Option<seq<U8>>, encryption: U64, ack: U64, direct: bool)
    ensures var fs := InfoFields(medium, wifi, lan, encryption, ack, direct);
      && F.Number(fs, UP_MEDIUM) == medium && F.Number(fs, UP_SUPPORTS_DISABLING_ENCRYPTION) == encryption
      && F.Number(fs, UP_SUPPORTS_INTRODUCTION_ACK) == ack
      && P.LastBytes(fs, UP_WIFI_LAN) == lan
      && P.LastBytes(fs, WifiField(direct)) == wifi && P.LastBytes(fs, WifiField(!direct)) == None
  {
    hide P.LastBytes, P.LastVarint, OptionalBlob;
    var a, w, l := [P.Varint(UP_MEDIUM, medium)], OptionalBlob(WifiField(direct), wifi), OptionalBlob(UP_WIFI_LAN, lan);
    var z := [P.Varint(UP_SUPPORTS_DISABLING_ENCRYPTION, encryption), P.Varint(UP_SUPPORTS_INTRODUCTION_ACK, ack)];
    F.OneVarint(UP_MEDIUM, medium);
    OptionalBlobLookup(WifiField(direct), wifi);
    OptionalBlobLookup(UP_WIFI_LAN, lan);
    FlagLookups(encryption, ack);
    P.LookupAppend(l, z);
    P.LookupAppend(w, l + z);
    P.LookupAppend(a, w + (l + z));
  }

  lemma InfoParts(medium: U64, wifi: Option<seq<U8>>, lan: Option<seq<U8>>, encryption: U64, ack: U64, direct: bool)
    requires |P.Encode(InfoFields(medium, wifi, lan, encryption, ack, direct))| < TWO_64
    ensures wifi.Some? ==> |wifi.value| < TWO_64
    ensures lan.Some? ==> |lan.value| < TWO_64
  {
    hide P.Encode;
    var fs := InfoFields(medium, wifi, lan, encryption, ack, direct);
    if wifi.Some? {
      assert fs[1] == P.Bytes(WifiField(direct), wifi.value);
      P.PartsShorter(fs, 1);
    }
    if lan.Some? {
      var k := if wifi.Some? then 2 else 1;
      assert fs[k] == P.Bytes(UP_WIFI_LAN, lan.value);
      P.PartsShorter(fs, k);
    }
  }

  lemma PathOfRoundTrip(p: UpgradePath)
    requires |P.Encode(PathFields(p))| < TWO_64
    ensures PathOf(PathFields(p)) == Ok(p)
  {
    hide P.LastBytes, P.LastVarint, P.Encode, P.Fields, InfoFields, CredentialFields, LanFields, WifiOf, F.Number;
    var direct := p.medium == WifiDirect;
    var fs := PathFields(p);
    InfoLookups(p.medium.Code(), WifiBlob(p), LanBlob(p), F.Flag(p.supportsDisablingEncryption), F.Flag(p.supportsIntroductionAck), direct);
    InfoParts(p.medium.Code(), WifiBlob(p), LanBlob(p), F.Flag(p.supportsDisablingEncryption), F.Flag(p.supportsIntroductionAck), direct);
    if p.wifi.Some? {
      P.FieldsRoundTrip(CredentialFields(p.wifi.value, direct));
      WifiRoundTrip(p.wifi.value, direct);
    }
    if p.lan.Some? {
      LanRoundTrip(p.lan.value);
    }
    assert WifiPart(fs) == Ok(p.wifi);
    assert LanPart(fs) == Ok(p.lan) by {
      hide ParseLan;
    }
  }

  /** An offer reads back as the same path: medium, credentials in either layout, socket and both flags. */
  lemma PathAvailableRoundTrip(p: UpgradePath)
    requires |BuildPathAvailable(p)| < TWO_64
    ensures ReadsAs(BuildPathAvailable(p), PathAvailable(p))
  {
    hide P.LastBytes, P.LastVarint, P.Encode, P.Fields, F.Parse, F.Offline, PathFields, PathOf, EventFields, Build, Parse;
    var part := P.Encode(PathFields(p));
    BuildRoundTrip(E_UPGRADE_PATH_AVAILABLE, BW_UPGRADE_PATH_INFO, Some(part));
    EventLookups(E_UPGRADE_PATH_AVAILABLE, BW_UPGRADE_PATH_INFO, Some(part));
    P.FieldsRoundTrip(PathFields(p));
    PathOfRoundTrip(p);
  }

  lemma ClientIntroductionRoundTrip(endpointId: string)
    requires |BuildClientIntroduction(endpointId)| < TWO_64
    ensures ReadsAs(BuildClientIntroduction(endpointId), ClientIntroduction(endpointId))
  {
    hide P.LastBytes, P.LastVarint, P.Encode, P.Fields, F.Parse, F.Offline, EventFields, Build, Parse, Utf8.Encode, Utf8.Lossy;
    var fs := IntroductionFields(endpointId);
    BuildRoundTrip(E_CLIENT_INTRODUCTION, BW_CLIENT_INTRODUCTION, Some(P.Encode(fs)));
    EventLookups(E_CLIENT_INTRODUCTION, BW_CLIENT_INTRODUCTION, Some(P.Encode(fs)));
    P.FieldsRoundTrip(fs);
    P.Lookup(fs);
    assert fs[0].field == CI_ENDPOINT_ID && fs[1].field == CI_SUPPORTS_DISABLING_ENCRYPTION;
    Utf8.LossyRoundTrip(endpointId);
  }

  lemma SafeToCloseRoundTrip(frequency: I32)
    ensures ReadsAs(BuildSafeToClose(frequency), SafeToClosePrior(frequency))
  {
    hide P.LastBytes, P.LastVarint, P.Encode, P.Fields, F.Parse, F.Offline, EventFields, Build, Parse, U64OfI32, I32OfU64;
    var fs := [P.Varint(SC_STA_FREQUENCY, U64OfI32(frequency))];
    TwoLength(fs);
    BuildLength(E_SAFE_TO_CLOSE_PRIOR, BW_SAFE_TO_CLOSE, Some(P.Encode(fs)));
    BuildRoundTrip(E_SAFE_TO_CLOSE_PRIOR, BW_SAFE_TO_CLOSE, Some(P.Encode(fs)));
    EventLookups(E_SAFE_TO_CLOSE_PRIOR, BW_SAFE_TO_CLOSE, Some(P.Encode(fs)));
    P.FieldsRoundTrip(fs);
    F.OneVarint(SC_STA_FREQUENCY, U64OfI32(frequency));
    SignedRoundTrip(0, frequency);
  }

  lemma BareRoundTrip(event: U64, field: U32, part: Option<seq<U8>>, f: Frame)
    requires part.Some? ==> |part.value| == 0
    requires Dispatch(event, EventFields(event, field, part)) == Ok(f)
    ensures ReadsAs(Build(event, field, part), f)
  {
    hide P.Encode, F.Parse, EventFields, Build, Parse, Dispatch;
    BuildLength(event, field, part);
    BuildRoundTrip(event, field, part);
  }

  /** The three frames that carry nothing but their event. */
  lemma BareRoundTrips()
    ensures ReadsAs(BuildClientIntroductionAck(), ClientIntroductionAck)
    ensures ReadsAs(BuildLastWrite(), LastWriteToPrior)
    ensures ReadsAs(BuildFailure(), Failure)
  {
    hide EventFields, Build, ReadsAs;
    BareRoundTrip(E_CLIENT_INTRODUCTION_ACK, BW_CLIENT_INTRODUCTION_ACK, Some([]), ClientIntroductionAck);
    BareRoundTrip(E_LAST_WRITE_TO_PRIOR, 0, None, LastWriteToPrior);
    BareRoundTrip(E_UPGRADE_FAILURE, 0, None, Failure);
  }

  lemma BuildLength(event: U64, field: U32, part: Option<seq<U8>>)
    requires part.Some? ==> |part.value| <= 40
    ensures |Build(event, field, part)| < 200
  {
    hide P.Encode;
    var fs := EventFields(event, field, part);
    TwoLength(fs);
    var inner := F.InnerFields(F.T_BANDWIDTH_UPGRADE, F.V1_BANDWIDTH_UPGRADE, P.Encode(fs));
    TwoLength(inner);
    TwoLength(F.OuterFields(P.Encode(inner)));
  }

  lemma TwoLength(fs: seq<P.Field>)
    requires 1 <= |fs| <= 2 && fs[0].Varint? && (|fs| == 2 ==> fs[1].Bytes? && |fs[1].b| < 1000)
    ensures |P.Encode(fs)| <= 40 + if |fs| == 2 then |fs[1].b| else 0
  {
    P.FieldLength(fs[0]);
    assert P.Encode(fs) == P.EncodeField(fs[0]) + P.Encode(fs[1..]);
    if |fs| == 2 {
      P.FieldLength(fs[1]);
      assert P.Encode(fs[1..]) == P.EncodeField(fs[1]) + P.Encode(fs[1..][1..]);
    }
  }

  // ------------------------------------------------------------------- path request ---

  function Known(ms: seq<Medium>): seq<Medium> {
    if ms == [] then [] else (if ms[0].UnknownMedium? then [] else [ms[0]]) + Known(ms[1..])
  }

  predicate Ascending(ms: seq<Medium>) {
    forall i, j :: 0 <= i < j < |ms| ==> ms[i].Code() <= ms[j].Code()
  }

  lemma {:induction false} InsertKeeps(m: Medium, ms: seq<Medium>)
    ensures multiset(Insert(m, ms)) == multiset{m} + multiset(ms)
  {
    if ms != [] && m.Code() > ms[0].Code() {
      InsertKeeps(m, ms[1..]);
      assert ms == [ms[0]] + ms[1..];
    }
  }

  lemma {:induction false} InsertSorts(m: Medium, ms: seq<Medium>)
    requires Ascending(ms)
    ensures Ascending(Insert(m, ms))
    ensures forall k :: 0 <= k < |Insert(m, ms)| ==> Insert(m, ms)[k] == m || Insert(m, ms)[k] in ms
  {
    if ms != [] && m.Code() > ms[0].Code() {
      InsertSorts(m, ms[1..]);
    }
  }

  lemma {:induction false} SortSorts(ms: seq<Medium>)
    ensures Ascending(Sort(ms)) && multiset(Sort(ms)) == multiset(ms)
  {
    if ms != [] {
      SortSorts(ms[1..]);
      InsertKeeps(ms[0], Sort(ms[1..]));
      InsertSorts(ms[0], Sort(ms[1..]));
      assert ms == [ms[0]] + ms[1..];
    }
  }

  lemma {:induction false} KnownCounts(ms: seq<Medium>)
    ensures multiset(Known(ms)) == multiset(ms)[UnknownMedium := 0]
  {
    if ms != [] {
      KnownCounts(ms[1..]);
      assert ms == [ms[0]] + ms[1..];
    }
  }

  lemma {:induction false} KnownAscends(ms: seq<Medium>)
    requires Ascending(ms)
    ensures Ascending(Known(ms))
    ensures forall k :: 0 <= k < |Known(ms)| ==> ms[0].Code() <= Known(ms)[k].Code()
  {
    if |ms| > 1 {
      KnownAscends(ms[1..]);
    }
  }

  lemma {:induction false} UnpackPack(ms: seq<Medium>)
    ensures Unpack(Pack(ms)) == Known(ms)
  {
    if ms != [] {
      P.ReadVarintRoundTrip(ms[0].Code(), Pack(ms[1..]));
      UnpackPack(ms[1..]);
      assert Medium.From(ms[0].Code()) == ms[0];
    }
  }

  /** A request lists each known medium asked for as often as it was asked for, lowest number first. */
  lemma PathRequestRoundTrip(ms: seq<Medium>)
    requires |BuildPathRequest(ms)| < TWO_64
    ensures ReadsAs(BuildPathRequest(ms), PathRequest(Known(Sort(ms))))
    ensures Ascending(Known(Sort(ms))) && multiset(Known(Sort(ms))) == multiset(ms)[UnknownMedium := 0]
  {
    hide P.LastBytes, P.LastVarint, P.Encode, P.Fields, F.Parse, F.Offline, EventFields, Build, Parse, Pack, Unpack, Sort, Known, MetadataFields;
    SortSorts(ms);
    KnownCounts(Sort(ms));
    KnownAscends(Sort(ms));
    var req := RequestFields(Pack(Sort(ms)), P.Encode(MetadataFields(Sort(ms))));
    var info := RequestInfo(P.Encode(req));
    BuildRoundTrip(E_UPGRADE_PATH_REQUEST, BW_UPGRADE_PATH_INFO, Some(P.Encode(info)));
    EventLookups(E_UPGRADE_PATH_REQUEST, BW_UPGRADE_PATH_INFO, Some(P.Encode(info)));
    P.FieldsRoundTrip(info);
    OneBlob(UP_UPGRADE_PATH_REQUEST, P.Encode(req));
    P.PartsShorter(info, 0);
    P.FieldsRoundTrip(req);
    P.Lookup(req);
    assert req[0].field == UPR_MEDIUMS && req[1].field == UPR_MEDIUM_METADATA;
    UnpackPack(Sort(ms));
  }

  /** The last nested message under a field, as any reader of the bytes finds it. */
  function Inside(b: Option<seq<U8>>, n: U32): Option<seq<U8>> {
    if b.None? || P.Fields(b.value).Err? then None else P.LastBytes(P.Fields(b.value).value, n)
  }

  lemma InsideOne(fs: seq<P.Field>, n: U32)
    requires |P.Encode(fs)| < TWO_64
    ensures Inside(Some(P.Encode(fs)), n) == P.LastBytes(fs, n)
  {
    hide P.Encode, P.LastBytes, P.Fields;
    P.FieldsRoundTrip(fs);
  }

  /**
    Without the roles a peer never answers. A request that names Wi-Fi Direct tells, three
    messages down, that we can own a group and join one, and that we take a password; any other
    request carries nothing there.
   */
  lemma RequestTellsRoles(ms: seq<Medium>)
    requires |BuildPathRequest(ms)| < TWO_64
    ensures var outer := F.Parse(BuildPathRequest(ms));
      && outer.Ok? && outer.value.BandwidthUpgrade?
      && var metadata := Inside(Inside(Inside(Some(outer.value.body), 2), 10), 2);
      && metadata.Some?
      && (WifiDirect !in ms ==> metadata.value == [])
      && (WifiDirect in ms ==>
            && var role := Inside(metadata, 12);
            && role.Some? && P.Fields(role.value) == Ok([P.Varint(1, 1), P.Varint(2, 1)])
            && Inside(metadata, 13) == Some([1]))
  {
    hide P.LastBytes, P.LastVarint, P.Encode, P.Fields, F.Parse, F.Offline, EventFields, Build, Parse, Pack, Sort, MetadataFields, Inside;
    var metadata := P.Encode(MetadataFields(Sort(ms)));
    var req := RequestFields(Pack(Sort(ms)), metadata);
    var info := RequestInfo(P.Encode(req));
    var event := EventFields(E_UPGRADE_PATH_REQUEST, BW_UPGRADE_PATH_INFO, Some(P.Encode(info)));
    BuildRoundTrip(E_UPGRADE_PATH_REQUEST, BW_UPGRADE_PATH_INFO, Some(P.Encode(info)));
    EventLookups(E_UPGRADE_PATH_REQUEST, BW_UPGRADE_PATH_INFO, Some(P.Encode(info)));
    BuildShorter(E_UPGRADE_PATH_REQUEST, BW_UPGRADE_PATH_INFO, Some(P.Encode(info)));
    InsideOne(event, 2);
    InsideOne(info, 10);
    OneBlob(UP_UPGRADE_PATH_REQUEST, P.Encode(req));
    P.PartsShorter(info, 0);
    InsideOne(req, 2);
    P.Lookup(req);
    assert req[1] == P.Bytes(UPR_MEDIUM_METADATA, metadata);
    P.PartsShorter(req, 1);
    SortSorts(ms);
    assert WifiDirect in Sort(ms) <==> WifiDirect in multiset(ms);
    MetadataRead(Sort(ms));
  }

  lemma MetadataRead(ms: seq<Medium>)
    requires |P.Encode(MetadataFields(ms))| < TWO_64
    ensures WifiDirect !in ms ==> P.Encode(MetadataFields(ms)) == []
    ensures var metadata := Some(P.Encode(MetadataFields(ms)));
      WifiDirect in ms ==>
        && var role := Inside(metadata, 12);
        && role.Some? && P.Fields(role.value) == Ok([P.Varint(1, 1), P.Varint(2, 1)])
        && Inside(metadata, 13) == Some([1])
  {
    if WifiDirect in ms {
      hide P.Encode, P.LastBytes, P.LastVarint, P.Fields, Inside;
      var fs := MetadataFields(ms);
      var role := [P.Varint(1, 1), P.Varint(2, 1)];
      InsideOne(fs, 12);
      InsideOne(fs, 13);
      P.Lookup(fs);
      assert fs[0] == P.Bytes(12, P.Encode(role)) && fs[1] == P.Bytes(13, [1]);
      P.PartsShorter(fs, 0);
      P.FieldsRoundTrip(role);
    }
  }

  /**
    Wrapping a finished frame again is not refused: whatever the body was, the outer frame's
    version number reads as an offer, of the medium numbered like its own frame type.
   */
  lemma WrappedTwice(body: seq<U8>)
    requires |F.UpgradeEnvelope(F.UpgradeEnvelope(body))| < TWO_64
    ensures ReadsAs(F.UpgradeEnvelope(F.UpgradeEnvelope(body)), PathAvailable(UpgradePath(Ble, None, None, false, false)))
  {
    hide P.LastBytes, P.LastVarint, P.Encode, P.Fields, F.Parse, PathOf;
    var inner := F.InnerFields(F.T_BANDWIDTH_UPGRADE, F.V1_BANDWIDTH_UPGRADE, body);
    var outer := F.OuterFields(P.Encode(inner));
    F.UpgradeRoundTrip(F.UpgradeEnvelope(body));
    BodyShorter(F.UpgradeEnvelope(body));
    P.FieldsRoundTrip(outer);
    P.PartsShorter(outer, 1);
    P.FieldsRoundTrip(inner);
    WrappedLookups(body, P.Encode(inner));
  }

  lemma WrappedLookups(body: seq<U8>, v1: seq<U8>)
    ensures var inner := F.InnerFields(F.T_BANDWIDTH_UPGRADE, F.V1_BANDWIDTH_UPGRADE, body);
      PathOf(inner) == Ok(UpgradePath(Ble, None, None, false, false))
    ensures P.LastVarint(F.OuterFields(v1), BW_EVENT_TYPE) == Some(E_UPGRADE_PATH_AVAILABLE)
    ensures P.LastBytes(F.OuterFields(v1), BW_UPGRADE_PATH_INFO) == Some(v1)
  {
    hide P.LastBytes, P.LastVarint;
    var inner, outer := F.InnerFields(F.T_BANDWIDTH_UPGRADE, F.V1_BANDWIDTH_UPGRADE, body), F.OuterFields(v1);
    P.Lookup(inner);
    P.Lookup(outer);
    assert inner[0].field == 1 && inner[1].field == 5 && outer[0].field == 1 && outer[1].field == 2;
    assert P.Absent(inner, UP_WIFI_DIRECT) && P.Absent(inner, UP_WIFI_HOTSPOT) && P.Absent(inner, UP_WIFI_LAN);
    assert P.Absent(inner, UP_SUPPORTS_INTRODUCTION_ACK) && P.Absent(inner, UP_SUPPORTS_DISABLING_ENCRYPTION);
  }
}
