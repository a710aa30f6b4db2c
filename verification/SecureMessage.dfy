/**
  The signed, encrypted envelope every frame travels in, and the channel that numbers the
  frames. AES and HMAC are parameters: all that is asked of them is that decryption
  inverts encryption.
 */
module SecureMessage {
  import opened Bytes
  import P = Protobuf

  const AES_KEY_SIZE := 32
  const IV_SIZE := 16

  const SM_HEADER_AND_BODY := 1
  const SM_SIGNATURE := 2
  const HB_HEADER := 1
  const HB_BODY := 2
  const HDR_SIGNATURE_SCHEME := 1
  const HDR_ENCRYPTION_SCHEME := 2
  const HDR_IV := 5
  const HDR_PUBLIC_METADATA := 6
  const SIG_SCHEME_HMAC_SHA256 := 1
  const ENC_SCHEME_AES_256_CBC := 2
  const D2D_MESSAGE := 1
  const D2D_SEQUENCE_NUMBER := 2
  const GCM_TYPE := 1
  const GCM_VERSION := 2
  const GCM_TYPE_DEVICE_TO_DEVICE_MESSAGE := 13
  const GCM_VERSION_VALUE := 1

  datatype Crypto = Crypto(
    encrypt: (seq<U8>, seq<U8>, seq<U8>) -> seq<U8>,
    decrypt: (seq<U8>, seq<U8>, seq<U8>) -> Option<seq<U8>>,
    hmac: (seq<U8>, seq<U8>) -> seq<U8>)

  /** Key, then IV, then text. */
  ghost predicate Inverts(c: Crypto) {
    forall key: seq<U8>, iv: seq<U8>, text: seq<U8> :: |key| == AES_KEY_SIZE && |iv| == IV_SIZE
      ==> c.decrypt(key, iv, c.encrypt(key, iv, text)) == Some(text)
  }

  datatype Error = BadSignature | Malformed(what: string) | Wire(e: P.Error) | CryptoFailure

  datatype Unwrapped = Unwrapped(sequenceNumber: I32, payload: seq<U8>)

  function GcmMetadata(): seq<U8> {
    P.Encode([P.Varint(GCM_TYPE, GCM_TYPE_DEVICE_TO_DEVICE_MESSAGE), P.Varint(GCM_VERSION, GCM_VERSION_VALUE)])
  }

  function D2dFields(seqNo: I32, payload: seq<U8>): seq<P.Field> {
    [P.Bytes(D2D_MESSAGE, payload), P.Varint(D2D_SEQUENCE_NUMBER, U64OfI32(seqNo))]
  }

  function HeaderFields(iv: seq<U8>): seq<P.Field> {
    [P.Varint(HDR_SIGNATURE_SCHEME, SIG_SCHEME_HMAC_SHA256),
     P.Varint(HDR_ENCRYPTION_SCHEME, ENC_SCHEME_AES_256_CBC),
     P.Bytes(HDR_IV, iv),
     P.Bytes(HDR_PUBLIC_METADATA, GcmMetadata())]
  }

  /** The signed part: header, then ciphertext. */
  function HeaderAndBodyFields(c: Crypto, key: seq<U8>, seqNo: I32, payload: seq<U8>, iv: seq<U8>): seq<P.Field> {
    [P.Bytes(HB_HEADER, P.Encode(HeaderFields(iv))),
     P.Bytes(HB_BODY, c.encrypt(key, iv, P.Encode(D2dFields(seqNo, payload))))]
  }

  function MessageFields(c: Crypto, macKey: seq<U8>, hb: seq<U8>): seq<P.Field> {
    [P.Bytes(SM_HEADER_AND_BODY, hb), P.Bytes(SM_SIGNATURE, c.hmac(macKey, hb))]
  }

  function EncryptAndSign(c: Crypto, key: seq<U8>, macKey: seq<U8>, seqNo: I32, payload: seq<U8>, iv: seq<U8>)
    : Result<seq<U8>, Error>
  {
    if |key| != AES_KEY_SIZE then Err(Malformed("encrypt key is not 32 bytes"))
    else if |iv| != IV_SIZE then Err(Malformed("iv is not 16 bytes"))
    else
      var hb := P.Encode(HeaderAndBodyFields(c, key, seqNo, payload, iv));
      Ok(P.Encode(MessageFields(c, macKey, hb)))
  }

  function Need<T>(r: Result<Option<T>, P.Error>, what: string): Result<T, Error> {
    match r
    case Err(e) => Err(Wire(e))
    case Ok(None) => Err(Malformed(what))
    case Ok(Some(v)) => Ok(v)
  }

  /** The verification gate: the signed bytes, if the signature over them is right. */
  function Gate(c: Crypto, macKey: seq<U8>, message: seq<U8>): Result<seq<U8>, Error> {
    var hb :- Need(P.FirstBytes(message, SM_HEADER_AND_BODY), "no header_and_body");
    var signature :- Need(P.FirstBytes(message, SM_SIGNATURE), "no signature");
    if signature != c.hmac(macKey, hb) then Err(BadSignature) else Ok(hb)
  }

  /** What the signed bytes say. Only reached past the gate. */
  function Open(c: Crypto, key: seq<U8>, hb: seq<U8>): Result<Unwrapped, Error> {
    var header :- Need(P.FirstBytes(hb, HB_HEADER), "no header");
    var body :- Need(P.FirstBytes(hb, HB_BODY), "no body");
    var sig :- Need(P.FirstVarint(header, HDR_SIGNATURE_SCHEME), "signature scheme is not HMAC_SHA256");
    if sig != SIG_SCHEME_HMAC_SHA256 then Err(Malformed("signature scheme is not HMAC_SHA256")) else
    var enc :- Need(P.FirstVarint(header, HDR_ENCRYPTION_SCHEME), "encryption scheme is not AES_256_CBC");
    if enc != ENC_SCHEME_AES_256_CBC then Err(Malformed("encryption scheme is not AES_256_CBC")) else
    var iv :- Need(P.FirstBytes(header, HDR_IV), "no iv");
    if |iv| != IV_SIZE then Err(Malformed("iv is not 16 bytes")) else
    match c.decrypt(key, iv, body)
    case None => Err(CryptoFailure)
    case Some(plain) =>
      var payload :- Need(P.FirstBytes(plain, D2D_MESSAGE), "no d2d message");
      var seqNo :- Need(P.FirstVarint(plain, D2D_SEQUENCE_NUMBER), "no sequence number");
      Ok(Unwrapped(I32OfU64(seqNo), payload))
  }

  function VerifyAndDecrypt(c: Crypto, key: seq<U8>, macKey: seq<U8>, message: seq<U8>): Result<Unwrapped, Error> {
    if |key| != AES_KEY_SIZE then Err(Malformed("encrypt key is not 32 bytes"))
    else
      var hb :- Gate(c, macKey, message);
      Open(c, key, hb)
  }

  // What a received message says, field by field.

  /** The message reads, and this is the last occurrence of the field. */
  ghost predicate Has(message: seq<U8>, field: U32, b: seq<U8>) {
    P.Fields(message).Ok? && P.LastBytes(P.Fields(message).value, field) == Some(b)
  }

  ghost predicate HasNumber(message: seq<U8>, field: U32, v: U64) {
    P.Fields(message).Ok? && P.LastVarint(P.Fields(message).value, field) == Some(v)
  }

  /** The message carries these bytes and the HMAC of them under the key. */
  ghost predicate Signs(c: Crypto, macKey: seq<U8>, message: seq<U8>, hb: seq<U8>) {
    Has(message, SM_HEADER_AND_BODY, hb) && Has(message, SM_SIGNATURE, c.hmac(macKey, hb))
  }

  /** The header by its numbers: HMAC-SHA256, AES-256-CBC, the IV, and that this is a device-to-device message of version 1. */
  lemma HeaderRead(iv: seq<U8>)
    requires |P.Encode(HeaderFields(iv))| < TWO_64
    ensures var header := P.Fields(P.Encode(HeaderFields(iv)));
      && header.Ok? && |header.value| == 4
      && header.value[0] == P.Varint(1, 1) && header.value[1] == P.Varint(2, 2) && header.value[2] == P.Bytes(5, iv)
      && header.value[3].Bytes? && header.value[3].field == 6
      && P.Fields(header.value[3].b) == Ok([P.Varint(1, 13), P.Varint(2, 1)])
  {
    hide P.Fields, P.Encode;
    var fs := HeaderFields(iv);
    P.FieldsRoundTrip(fs);
    P.PartsShorter(fs, 3);
    P.FieldsRoundTrip([P.Varint(1, 13), P.Varint(2, 1)]);
  }

  /** What passes the gate is exactly what carries its own HMAC. */
  lemma GateExactly(c: Crypto, macKey: seq<U8>, message: seq<U8>, hb: seq<U8>)
    ensures Gate(c, macKey, message) == Ok(hb) <==> Signs(c, macKey, message, hb)
  {
    hide P.Fields, P.LastBytes;
  }

  /** A message of a body and a signature that is not its HMAC is refused for its signature. */
  lemma WrongSignature(c: Crypto, macKey: seq<U8>, hb: seq<U8>, signature: seq<U8>)
    requires |P.Encode([P.Bytes(SM_HEADER_AND_BODY, hb), P.Bytes(SM_SIGNATURE, signature)])| < TWO_64 && signature != c.hmac(macKey, hb)
    ensures Gate(c, macKey, P.Encode([P.Bytes(SM_HEADER_AND_BODY, hb), P.Bytes(SM_SIGNATURE, signature)])) == Err(BadSignature)
  {
    hide P.Fields, P.LastBytes, P.Encode;
    var fs := [P.Bytes(SM_HEADER_AND_BODY, hb), P.Bytes(SM_SIGNATURE, signature)];
    P.FieldsRoundTrip(fs);
    P.Lookup(fs);
    assert fs[0].b == hb && fs[1].b == signature;
  }

  /** The signed bytes name both schemes and a whole IV, and their body decrypts to this number and payload. */
  ghost predicate Says(c: Crypto, key: seq<U8>, hb: seq<U8>, header: seq<U8>, body: seq<U8>, iv: seq<U8>, plain: seq<U8>,
                       number: U64, payload: seq<U8>)
  {
    && Has(hb, HB_HEADER, header) && Has(hb, HB_BODY, body)
    && HasNumber(header, HDR_SIGNATURE_SCHEME, SIG_SCHEME_HMAC_SHA256)
    && HasNumber(header, HDR_ENCRYPTION_SCHEME, ENC_SCHEME_AES_256_CBC)
    && Has(header, HDR_IV, iv) && |iv| == IV_SIZE
    && c.decrypt(key, iv, body) == Some(plain)
    && Has(plain, D2D_MESSAGE, payload) && HasNumber(plain, D2D_SEQUENCE_NUMBER, number)
  }

  /** What signed bytes open to, and that nothing else opens. */
  lemma OpenExactly(c: Crypto, key: seq<U8>, hb: seq<U8>)
    ensures forall header, body, iv, plain, number, payload :: Says(c, key, hb, header, body, iv, plain, number, payload) ==>
      Open(c, key, hb) == Ok(Unwrapped(I32OfU64(number), payload))
    ensures Open(c, key, hb).Ok? ==> exists header, body, iv, plain, number, payload ::
      Says(c, key, hb, header, body, iv, plain, number, payload)
  {
    hide P.Fields, P.LastBytes, P.LastVarint;
    if Open(c, key, hb).Ok? {
      var header, body := P.FirstBytes(hb, HB_HEADER).value.value, P.FirstBytes(hb, HB_BODY).value.value;
      var iv := P.FirstBytes(header, HDR_IV).value.value;
      var plain := c.decrypt(key, iv, body).value;
      var number, payload := P.FirstVarint(plain, D2D_SEQUENCE_NUMBER).value.value, P.FirstBytes(plain, D2D_MESSAGE).value.value;
      assert Says(c, key, hb, header, body, iv, plain, number, payload);
    }
  }

  lemma MessageLookups(c: Crypto, macKey: seq<U8>, hb: seq<U8>)
    ensures var fs := MessageFields(c, macKey, hb);
      P.LastBytes(fs, SM_HEADER_AND_BODY) == Some(hb) && P.LastBytes(fs, SM_SIGNATURE) == Some(c.hmac(macKey, hb))
  {
    var fs := MessageFields(c, macKey, hb);
    P.Lookup(fs);
    assert fs[0].b == hb && fs[1].b == c.hmac(macKey, hb);
  }

  lemma PairLookups(header: seq<U8>, body: seq<U8>)
    ensures var fs := [P.Bytes(HB_HEADER, header), P.Bytes(HB_BODY, body)];
      P.LastBytes(fs, HB_HEADER) == Some(header) && P.LastBytes(fs, HB_BODY) == Some(body)
  {
    var fs := [P.Bytes(HB_HEADER, header), P.Bytes(HB_BODY, body)];
    P.Lookup(fs);
    assert fs[0].b == header && fs[1].b == body;
  }

  lemma HeaderLookups(iv: seq<U8>)
    ensures var fs := HeaderFields(iv);
      && P.LastVarint(fs, HDR_SIGNATURE_SCHEME) == Some(SIG_SCHEME_HMAC_SHA256)
      && P.LastVarint(fs, HDR_ENCRYPTION_SCHEME) == Some(ENC_SCHEME_AES_256_CBC)
      && P.LastBytes(fs, HDR_IV) == Some(iv)
  {
    var fs := HeaderFields(iv);
    P.Lookup(fs);
    assert fs[0].v == SIG_SCHEME_HMAC_SHA256 && fs[1].v == ENC_SCHEME_AES_256_CBC && fs[2].b == iv;
  }

  lemma D2dLookups(seqNo: I32, payload: seq<U8>)
    ensures var fs := D2dFields(seqNo, payload);
      P.LastBytes(fs, D2D_MESSAGE) == Some(payload) && P.LastVarint(fs, D2D_SEQUENCE_NUMBER) == Some(U64OfI32(seqNo))
  {
    var fs := D2dFields(seqNo, payload);
    P.Lookup(fs);
    assert fs[0].b == payload && fs[1].v == U64OfI32(seqNo);
  }

  lemma GateRoundTrip(c: Crypto, macKey: seq<U8>, hb: seq<U8>)
    requires |P.Encode(MessageFields(c, macKey, hb))| < TWO_64
    ensures Gate(c, macKey, P.Encode(MessageFields(c, macKey, hb))) == Ok(hb)
  {
    P.FieldsRoundTrip(MessageFields(c, macKey, hb));
    MessageLookups(c, macKey, hb);
  }

  lemma OpenRoundTrip(c: Crypto, key: seq<U8>, seqNo: I32, payload: seq<U8>, iv: seq<U8>)
    requires Inverts(c) && |key| == AES_KEY_SIZE && |iv| == IV_SIZE
    requires |P.Encode(HeaderAndBodyFields(c, key, seqNo, payload, iv))| < TWO_64
    requires |P.Encode(D2dFields(seqNo, payload))| < TWO_64
    ensures Open(c, key, P.Encode(HeaderAndBodyFields(c, key, seqNo, payload, iv))) == Ok(Unwrapped(seqNo, payload))
  {
    var hb := HeaderAndBodyFields(c, key, seqNo, payload, iv);
    var header, d2d := P.Encode(HeaderFields(iv)), P.Encode(D2dFields(seqNo, payload));
    P.FieldsRoundTrip(hb);
    PairLookups(header, c.encrypt(key, iv, d2d));
    P.PartsShorter(hb, 0);
    P.FieldsRoundTrip(HeaderFields(iv));
    HeaderLookups(iv);
    P.FieldsRoundTrip(D2dFields(seqNo, payload));
    D2dLookups(seqNo, payload);
    SignedRoundTrip(0, seqNo);
    assert c.decrypt(key, iv, c.encrypt(key, iv, d2d)) == Some(d2d);
  }

  /** Sealing and opening with the same keys gives back the sequence number and the payload. */
  lemma SealRoundTrip(c: Crypto, key: seq<U8>, macKey: seq<U8>, seqNo: I32, payload: seq<U8>, iv: seq<U8>)
    requires Inverts(c) && |key| == AES_KEY_SIZE && |iv| == IV_SIZE
    requires |EncryptAndSign(c, key, macKey, seqNo, payload, iv).value| < TWO_64
    requires |P.Encode(D2dFields(seqNo, payload))| < TWO_64
    ensures VerifyAndDecrypt(c, key, macKey, EncryptAndSign(c, key, macKey, seqNo, payload, iv).value)
         == Ok(Unwrapped(seqNo, payload))
  {
    var hb := P.Encode(HeaderAndBodyFields(c, key, seqNo, payload, iv));
    P.PartsShorter(MessageFields(c, macKey, hb), 0);
    GateRoundTrip(c, macKey, hb);
    OpenRoundTrip(c, key, seqNo, payload, iv);
  }
}
