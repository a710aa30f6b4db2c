/** Sharing frames: what is offered, and how the offer is answered. */
module Sharing {
  import opened Bytes
  import P = Protobuf
  import F = Frames
  import Utf8

  const F_V1 := 2
  const V1_TYPE := 1
  const V1_INTRODUCTION := 2
  const V1_RESPONSE := 3
  const V1_PAIRED_KEY_ENCRYPTION := 4
  const V1_PAIRED_KEY_RESULT := 5
  const T_INTRODUCTION := 1
  const T_RESPONSE := 2
  const T_PAIRED_KEY_ENCRYPTION := 3
  const T_PAIRED_KEY_RESULT := 4
  const T_CANCEL := 6

  const FM_NAME := 1
  const FM_TYPE := 2
  const FM_PAYLOAD_ID := 3
  const FM_SIZE := 4
  const FM_MIME_TYPE := 5
  const FM_ID := 6
  const FM_PARENT_FOLDER := 7
  const FM_ATTACHMENT_HASH := 8
  const FM_IS_SENSITIVE := 9
  const TM_TITLE := 2
  const TM_TYPE := 3
  const TM_PAYLOAD_ID := 4
  const TM_SIZE := 5
  const TM_ID := 6
  const IN_FILE_METADATA := 1
  const IN_TEXT_METADATA := 2
  const IN_START_TRANSFER := 6
  const IN_USE_CASE := 8
  const USE_CASE_NEARBY_SHARE := 1
  const RS_STATUS := 1
  const PKE_SIGNED_DATA := 1
  const PKE_SECRET_ID_HASH := 2
  const PKR_STATUS := 1
  const SECRET_ID_HASH_LEN := 6
  const SIGNED_DATA_LEN := 72
  const DEFAULT_MIME := "application/octet-stream"

  datatype FileType = UnknownType | Image | Video | AndroidApp | Audio | Document | ContactCard {
    function Code(): U64 {
      match this
      case UnknownType => 0
      case Image => 1
      case Video => 2
      case AndroidApp => 3
      case Audio => 4
      case Document => 5
      case ContactCard => 6
    }

    static function From(v: U64): FileType {
      match v
      case 1 => Image
      case 2 => Video
      case 3 => AndroidApp
      case 4 => Audio
      case 5 => Document
      case 6 => ContactCard
      case _ => UnknownType
    }
  }

  datatype Status = UnknownStatus | Accept | Reject | NotEnoughSpace | UnsupportedAttachmentType | TimedOut {
    function Code(): U64 {
      match this
      case UnknownStatus => 0
      case Accept => 1
      case Reject => 2
      case NotEnoughSpace => 3
      case UnsupportedAttachmentType => 4
      case TimedOut => 5
    }

    static function From(v: U64): Status {
      match v
      case 1 => Accept
      case 2 => Reject
      case 3 => NotEnoughSpace
      case 4 => UnsupportedAttachmentType
      case 5 => TimedOut
      case _ => UnknownStatus
    }
  }

  datatype Verdict = UnknownVerdict | Success | Fail | Unable {
    function Code(): U64 {
      match this
      case UnknownVerdict => 0
      case Success => 1
      case Fail => 2
      case Unable => 3
    }

    static function From(v: U64): Verdict {
      if v == 1 then Success else if v == 2 then Fail else if v == 3 then Unable else UnknownVerdict
    }
  }

  datatype FileMetadata = FileMetadata(
    name: string, fileType: FileType, payloadId: I64, size: I64, mimeType: string, id: I64,
    parentFolder: string, attachmentHash: I64, isSensitive: bool)

  datatype TextMetadata = TextMetadata(title: string, textType: U64, payloadId: I64, size: I64, id: I64)

  datatype Introduction = Introduction(files: seq<FileMetadata>, texts: seq<TextMetadata>, startTransfer: bool)

  const EMPTY := Introduction([], [], false)

  datatype Frame =
    | Introduce(intro: Introduction)
    | Response(status: Status)
    | PairedKeyEncryption(signedData: seq<U8>, secretIdHash: seq<U8>)
    | PairedKeyResult(verdict: Verdict)
    | Cancel
    | UnknownFrame(frameType: U64)

  // ---------------------------------------------------------------------- encoding ---

  function Wrap(frameType: U64, field: U32, body: seq<U8>): seq<U8> {
    F.Offline(frameType, field, body)
  }

  function FileBase(name: seq<U8>, kind: U64, payloadId: U64, size: U64, mime: seq<U8>, id: U64): seq<P.Field> {
    [P.Bytes(FM_NAME, name), P.Varint(FM_TYPE, kind), P.Varint(FM_PAYLOAD_ID, payloadId),
     P.Varint(FM_SIZE, size), P.Bytes(FM_MIME_TYPE, mime), P.Varint(FM_ID, id)]
  }

  function NonZero(v: U64): Option<U64> { if v != 0 then Some(v) else None }

  function FileRest(folder: seq<U8>, hash: U64, sensitive: U64): seq<P.Field> {
    F.OptionalBytes(FM_PARENT_FOLDER, folder)
    + F.OptionalVarint(FM_ATTACHMENT_HASH, NonZero(hash))
    + F.OptionalVarint(FM_IS_SENSITIVE, NonZero(sensitive))
  }

  function FileFields(f: FileMetadata): seq<P.Field> {
    FileBase(Utf8.Encode(f.name), f.fileType.Code(), U64OfI64(f.payloadId), U64OfI64(f.size), Utf8.Encode(f.mimeType), U64OfI64(f.id))
    + FileRest(Utf8.Encode(f.parentFolder), U64OfI64(f.attachmentHash), F.Flag(f.isSensitive))
  }

  function TextFields(t: TextMetadata): seq<P.Field> {
    [P.Bytes(TM_TITLE, Utf8.Encode(t.title)), P.Varint(TM_TYPE, t.textType), P.Varint(TM_PAYLOAD_ID, U64OfI64(t.payloadId)),
     P.Varint(TM_SIZE, U64OfI64(t.size)), P.Varint(TM_ID, U64OfI64(t.id))]
  }

  /** `encode_file` and `encode_text`. */
  function FileBytes(f: FileMetadata): seq<U8> { P.Encode(FileFields(f)) }

  function TextBytes(t: TextMetadata): seq<U8> { P.Encode(TextFields(t)) }

  function FileEntries(files: seq<FileMetadata>): seq<P.Field> {
    seq(|files|, i requires 0 <= i < |files| => P.Bytes(IN_FILE_METADATA, FileBytes(files[i])))
  }

  function TextEntries(texts: seq<TextMetadata>): seq<P.Field> {
    seq(|texts|, i requires 0 <= i < |texts| => P.Bytes(IN_TEXT_METADATA, TextBytes(texts[i])))
  }

  function IntroTail(start: bool): seq<P.Field> {
    F.OptionalVarint(IN_START_TRANSFER, NonZero(F.Flag(start))) + [P.Varint(IN_USE_CASE, USE_CASE_NEARBY_SHARE)]
  }

  function IntroFields(i: Introduction): seq<P.Field> {
    FileEntries(i.files) + (TextEntries(i.texts) + IntroTail(i.startTransfer))
  }

  function BuildIntroduction(i: Introduction): seq<U8> {
    Wrap(T_INTRODUCTION, V1_INTRODUCTION, P.Encode(IntroFields(i)))
  }

  function BuildResponse(s: Status): seq<U8> {
    Wrap(T_RESPONSE, V1_RESPONSE, P.Encode([P.Varint(RS_STATUS, s.Code())]))
  }

  /** Filled with what the random source gave: there is no identity to claim. */
  function BuildPairedKey(signed: seq<U8>, hash: seq<U8>): seq<U8> {
    Wrap(T_PAIRED_KEY_ENCRYPTION, V1_PAIRED_KEY_ENCRYPTION, P.Encode([P.Bytes(PKE_SIGNED_DATA, signed), P.Bytes(PKE_SECRET_ID_HASH, hash)]))
  }

  function BuildVerdict(v: Verdict): seq<U8> {
    Wrap(T_PAIRED_KEY_RESULT, V1_PAIRED_KEY_RESULT, P.Encode([P.Varint(PKR_STATUS, v.Code())]))
  }

  function BuildCancel(): seq<U8> {
    P.Encode(F.OuterFields(P.Encode([P.Varint(V1_TYPE, T_CANCEL)])))
  }

  // ---------------------------------------------------------------------- decoding ---

  function FileOf(fs: seq<P.Field>): FileMetadata {
    FileMetadata(
      F.Text(fs, FM_NAME), FileType.From(F.Number(fs, FM_TYPE)), I64OfU64(F.Number(fs, FM_PAYLOAD_ID)), I64OfU64(F.Number(fs, FM_SIZE)),
      if P.LastBytes(fs, FM_MIME_TYPE).Some? then F.Text(fs, FM_MIME_TYPE) else DEFAULT_MIME,
      I64OfU64(F.Number(fs, FM_ID)), F.Text(fs, FM_PARENT_FOLDER), I64OfU64(F.Number(fs, FM_ATTACHMENT_HASH)),
      F.Number(fs, FM_IS_SENSITIVE) != 0)
  }

  function TextOf(fs: seq<P.Field>): TextMetadata {
    TextMetadata(F.Text(fs, TM_TITLE), F.Number(fs, TM_TYPE), I64OfU64(F.Number(fs, TM_PAYLOAD_ID)),
      I64OfU64(F.Number(fs, TM_SIZE)), I64OfU64(F.Number(fs, TM_ID)))
  }

  /** One field of an introduction: file and text entries repeat, each adding an attachment. */
  function Absorb(out: Introduction, f: P.Field): Result<Introduction, F.Error> {
    match f
    case Bytes(n, v) =>
      if n == IN_FILE_METADATA then
        var fs :- F.Scan(v);
        Ok(out.(files := out.files + [FileOf(fs)]))
      else if n == IN_TEXT_METADATA then
        var fs :- F.Scan(v);
        Ok(out.(texts := out.texts + [TextOf(fs)]))
      else Ok(out)
    case Varint(n, v) =>
      if n == IN_START_TRANSFER then Ok(out.(startTransfer := v != 0)) else Ok(out)
  }

  function AbsorbAll(out: Introduction, fs: seq<P.Field>): Result<Introduction, F.Error>
    decreases |fs|
  {
    if fs == [] then Ok(out)
    else
      var next :- Absorb(out, fs[0]);
      AbsorbAll(next, fs[1..])
  }

  /** The reader stops at the first bad field or the first bad entry, whichever comes first. */
  function IntroductionFrom(out: Introduction, b: seq<U8>): Result<Introduction, F.Error>
    decreases |b|
  {
    match P.NextField(b)
    case End => Ok(out)
    case Bad(e) => Err(F.Wire(e))
    case Got(f, rest) =>
      var next :- Absorb(out, f);
      IntroductionFrom(next, rest)
  }

  function Parse(b: seq<U8>): Result<Frame, F.Error> {
    var outer :- F.Scan(b);
    match P.LastBytes(outer, F_V1)
    case None => Err(F.Malformed("no v1 frame"))
    case Some(v1) =>
      var fs :- F.Scan(v1);
      match P.LastVarint(fs, V1_TYPE)
      case None => Err(F.Malformed("no frame type"))
      case Some(ty) => Dispatch(ty, F.LastBody(fs).GetOr([]))
  }

  function Dispatch(ty: U64, body: seq<U8>): Result<Frame, F.Error> {
    if ty == T_INTRODUCTION then
      var i :- IntroductionFrom(EMPTY, body);
      Ok(Introduce(i))
    else if ty == T_RESPONSE then
      var fs :- F.Scan(body);
      Ok(Response(Status.From(F.Number(fs, RS_STATUS))))
    else if ty == T_PAIRED_KEY_ENCRYPTION then
      var fs :- F.Scan(body);
      Ok(PairedKeyEncryption(F.Blob(fs, PKE_SIGNED_DATA), F.Blob(fs, PKE_SECRET_ID_HASH)))
    else if ty == T_PAIRED_KEY_RESULT then
      var fs :- F.Scan(body);
      Ok(PairedKeyResult(Verdict.From(F.Number(fs, PKR_STATUS))))
    else if ty == T_CANCEL then Ok(Cancel)
    else Ok(UnknownFrame(ty))
  }

  /** The loop of `parse_introduction`. */
  method ScanIntroduction(b: seq<U8>) returns (r: Result<Introduction, F.Error>)
    ensures r == IntroductionFrom(EMPTY, b)
  {
    var reader := new P.Reader(b);
    var out := EMPTY;
    assert b[0..] == b;
    while true
      invariant reader.Valid() && reader.buf == b
      invariant IntroductionFrom(EMPTY, b) == IntroductionFrom(out, reader.Left())
      decreases |b| - reader.pos
    {
      var f := reader.Next();
      if f.None? {
        return Ok(out);
      }
      if f.value.Err? {
        return Err(F.Wire(f.value.error));
      }
      var next := Absorb(out, f.value.value);
      if next.Err? {
        return next;
      }
      out := next.value;
    }
  }

  // -------------------------------------------------------------------- round trips ---

  lemma WrapRoundTrip(frameType: U64, field: U32, body: seq<U8>)
    requires |Wrap(frameType, field, body)| < TWO_64
    ensures Parse(Wrap(frameType, field, body)) == Dispatch(frameType, body)
    ensures |body| < TWO_64
  {
    var inner := F.InnerFields(frameType, field, body);
    var v1 := P.Encode(inner);
    P.PartsShorter(F.OuterFields(v1), 1);
    P.PartsShorter(inner, 1);
    P.FieldsRoundTrip(F.OuterFields(v1));
    P.FieldsRoundTrip(inner);
    F.EnvelopeLookups(frameType, field, body);
  }

  lemma FileBaseLookups(name: seq<U8>, kind: U64, payloadId: U64, size: U64, mime: seq<U8>, id: U64)
    ensures var fs := FileBase(name, kind, payloadId, size, mime, id);
      && P.LastBytes(fs, FM_NAME) == Some(name) && P.LastVarint(fs, FM_TYPE) == Some(kind)
      && P.LastVarint(fs, FM_PAYLOAD_ID) == Some(payloadId) && P.LastVarint(fs, FM_SIZE) == Some(size)
      && P.LastBytes(fs, FM_MIME_TYPE) == Some(mime) && P.LastVarint(fs, FM_ID) == Some(id)
      && P.LastBytes(fs, FM_PARENT_FOLDER) == None && P.LastVarint(fs, FM_ATTACHMENT_HASH) == None
      && P.LastVarint(fs, FM_IS_SENSITIVE) == None
  {
    var fs := FileBase(name, kind, payloadId, size, mime, id);
    P.Lookup(fs);
    assert fs[0].b == name && fs[1].v == kind && fs[2].v == payloadId && fs[3].v == size && fs[4].b == mime && fs[5].v == id;
    assert P.Absent(fs, FM_PARENT_FOLDER) && P.Absent(fs, FM_ATTACHMENT_HASH) && P.Absent(fs, FM_IS_SENSITIVE);
  }

  lemma FileRestLookups(folder: seq<U8>, hash: U64, sensitive: U64)
    ensures var fs := FileRest(folder, hash, sensitive);
      && F.Blob(fs, FM_PARENT_FOLDER) == folder && F.Number(fs, FM_ATTACHMENT_HASH) == hash
      && F.Number(fs, FM_IS_SENSITIVE) == sensitive
      && P.LastBytes(fs, FM_NAME) == None && P.LastVarint(fs, FM_TYPE) == None && P.LastVarint(fs, FM_PAYLOAD_ID) == None
      && P.LastVarint(fs, FM_SIZE) == None && P.LastBytes(fs, FM_MIME_TYPE) == None && P.LastVarint(fs, FM_ID) == None
  {
    var a, b, c := F.OptionalBytes(FM_PARENT_FOLDER, folder), F.OptionalVarint(FM_ATTACHMENT_HASH, NonZero(hash)),
      F.OptionalVarint(FM_IS_SENSITIVE, NonZero(sensitive));
    F.OptionalLookup(FM_PARENT_FOLDER, folder);
    F.OptionalVarintLookup(FM_ATTACHMENT_HASH, NonZero(hash));
    F.OptionalVarintLookup(FM_IS_SENSITIVE, NonZero(sensitive));
    P.LookupAppend(a, b);
    P.LookupAppend(a + b, c);
  }

  lemma FileLookups(name: seq<U8>, kind: U64, payloadId: U64, size: U64, mime: seq<U8>, id: U64, folder: seq<U8>, hash: U64, sensitive: U64)
    ensures var fs := FileBase(name, kind, payloadId, size, mime, id) + FileRest(folder, hash, sensitive);
      && F.Blob(fs, FM_NAME) == name && F.Number(fs, FM_TYPE) == kind
      && F.Number(fs, FM_PAYLOAD_ID) == payloadId && F.Number(fs, FM_SIZE) == size
      && P.LastBytes(fs, FM_MIME_TYPE) == Some(mime) && F.Number(fs, FM_ID) == id
      && F.Blob(fs, FM_PARENT_FOLDER) == folder && F.Number(fs, FM_ATTACHMENT_HASH) == hash && F.Number(fs, FM_IS_SENSITIVE) == sensitive
  {
    hide FileBase, FileRest;
    FileBaseLookups(name, kind, payloadId, size, mime, id);
    FileRestLookups(folder, hash, sensitive);
    P.LookupAppend(FileBase(name, kind, payloadId, size, mime, id), FileRest(folder, hash, sensitive));
  }

  lemma FileRoundTrip(f: FileMetadata)
    ensures FileOf(FileFields(f)) == f
  {
    hide FileBase, FileRest, Utf8.Encode, Utf8.Lossy, U64OfI64, I64OfU64, P.LastBytes, P.LastVarint;
    FileLookups(Utf8.Encode(f.name), f.fileType.Code(), U64OfI64(f.payloadId), U64OfI64(f.size), Utf8.Encode(f.mimeType), U64OfI64(f.id),
      Utf8.Encode(f.parentFolder), U64OfI64(f.attachmentHash), F.Flag(f.isSensitive));
    Utf8.LossyRoundTrip(f.name);
    Utf8.LossyRoundTrip(f.mimeType);
    Utf8.LossyRoundTrip(f.parentFolder);
    SignedRoundTrip(f.payloadId, 0);
    SignedRoundTrip(f.size, 0);
    SignedRoundTrip(f.id, 0);
    SignedRoundTrip(f.attachmentHash, 0);
  }

  lemma TextRoundTrip(t: TextMetadata)
    ensures TextOf(TextFields(t)) == t
  {
    hide Utf8.Encode, Utf8.Lossy, U64OfI64, I64OfU64;
    var fs := TextFields(t);
    P.Lookup(fs);
    Utf8.LossyRoundTrip(t.title);
    SignedRoundTrip(t.payloadId, 0);
    SignedRoundTrip(t.size, 0);
    SignedRoundTrip(t.id, 0);
    assert fs[0].field == TM_TITLE && fs[1].field == TM_TYPE && fs[2].field == TM_PAYLOAD_ID && fs[3].field == TM_SIZE && fs[4].field == TM_ID;
  }

  lemma {:induction false} IntroductionOfFields(out: Introduction, b: seq<U8>)
    requires P.Fields(b).Ok?
    ensures IntroductionFrom(out, b) == AbsorbAll(out, P.Fields(b).value)
    decreases |b|
  {
    match P.NextField(b)
    case End =>
    case Bad(_) =>
    case Got(f, rest) =>
      if Absorb(out, f).Ok? {
        IntroductionOfFields(Absorb(out, f).value, rest);
      }
  }

  lemma {:induction false} AbsorbAppend(out: Introduction, a: seq<P.Field>, b: seq<P.Field>)
    requires AbsorbAll(out, a).Ok?
    ensures AbsorbAll(out, a + b) == AbsorbAll(AbsorbAll(out, a).value, b)
    decreases |a|
  {
    if a == [] {
      assert a + b == b;
    } else {
      assert (a + b)[1..] == a[1..] + b;
      AbsorbAppend(Absorb(out, a[0]).value, a[1..], b);
    }
  }

  lemma ScanFile(f: FileMetadata)
    requires |FileBytes(f)| < TWO_64
    ensures F.Scan(FileBytes(f)) == Ok(FileFields(f))
  {
    P.FieldsRoundTrip(FileFields(f));
  }

  lemma ScanText(t: TextMetadata)
    requires |TextBytes(t)| < TWO_64
    ensures F.Scan(TextBytes(t)) == Ok(TextFields(t))
  {
    P.FieldsRoundTrip(TextFields(t));
  }

  lemma AbsorbFile(out: Introduction, f: FileMetadata)
    requires |FileBytes(f)| < TWO_64
    ensures Absorb(out, P.Bytes(IN_FILE_METADATA, FileBytes(f))) == Ok(out.(files := out.files + [f]))
  {
    hide FileBytes, FileFields, FileOf, F.Scan;
    ScanFile(f);
    FileRoundTrip(f);
  }

  lemma AbsorbText(out: Introduction, t: TextMetadata)
    requires |TextBytes(t)| < TWO_64
    ensures Absorb(out, P.Bytes(IN_TEXT_METADATA, TextBytes(t))) == Ok(out.(texts := out.texts + [t]))
  {
    hide TextBytes, TextFields, TextOf, F.Scan;
    ScanText(t);
    TextRoundTrip(t);
  }

  ghost predicate FilesFit(files: seq<FileMetadata>) {
    forall i :: 0 <= i < |files| ==> |FileBytes(files[i])| < TWO_64
  }

  ghost predicate TextsFit(texts: seq<TextMetadata>) {
    forall i :: 0 <= i < |texts| ==> |TextBytes(texts[i])| < TWO_64
  }

  lemma {:induction false} AbsorbFiles(out: Introduction, files: seq<FileMetadata>)
    requires FilesFit(files)
    ensures AbsorbAll(out, FileEntries(files)) == Ok(out.(files := out.files + files))
    decreases |files|
  {
    hide FileBytes, Absorb;
    if files == [] {
      assert out.files + files == out.files;
    } else {
      AbsorbFile(out, files[0]);
      assert FileEntries(files)[1..] == FileEntries(files[1..]);
      var next := out.(files := out.files + [files[0]]);
      AbsorbFiles(next, files[1..]);
      assert next.files + files[1..] == out.files + files;
    }
  }

  lemma {:induction false} AbsorbTexts(out: Introduction, texts: seq<TextMetadata>)
    requires TextsFit(texts)
    ensures AbsorbAll(out, TextEntries(texts)) == Ok(out.(texts := out.texts + texts))
    decreases |texts|
  {
    hide TextBytes, Absorb;
    if texts == [] {
      assert out.texts + texts == out.texts;
    } else {
      AbsorbText(out, texts[0]);
      assert TextEntries(texts)[1..] == TextEntries(texts[1..]);
      var next := out.(texts := out.texts + [texts[0]]);
      AbsorbTexts(next, texts[1..]);
      assert next.texts + texts[1..] == out.texts + texts;
    }
  }

  lemma AbsorbIntroTail(out: Introduction, start: bool)
    requires !out.startTransfer
    ensures AbsorbAll(out, IntroTail(start)) == Ok(out.(startTransfer := start))
  {
    var last := P.Varint(IN_USE_CASE, USE_CASE_NEARBY_SHARE);
    var next := out.(startTransfer := start);
    assert AbsorbAll(next, [last]) == AbsorbAll(next, []);
    if start {
      assert IntroTail(start)[1..] == [last];
    } else {
      assert IntroTail(start) == [last];
    }
  }

  lemma EntriesFit(i: Introduction)
    requires |P.Encode(IntroFields(i))| < TWO_64
    ensures FilesFit(i.files) && TextsFit(i.texts)
  {
    hide FileBytes, TextBytes, P.Encode;
    var fs := IntroFields(i);
    forall k | 0 <= k < |i.files| ensures |FileBytes(i.files[k])| < TWO_64 {
      assert fs[k] == P.Bytes(IN_FILE_METADATA, FileBytes(i.files[k]));
      P.PartsShorter(fs, k);
    }
    forall k | 0 <= k < |i.texts| ensures |TextBytes(i.texts[k])| < TWO_64 {
      assert fs[|i.files| + k] == TextEntries(i.texts)[k];
      P.PartsShorter(fs, |i.files| + k);
    }
  }

  lemma IntroFieldsAbsorb(i: Introduction)
    requires |P.Encode(IntroFields(i))| < TWO_64
    ensures AbsorbAll(EMPTY, IntroFields(i)) == Ok(i)
  {
    EntriesFit(i);
    var files, texts, tail := FileEntries(i.files), TextEntries(i.texts), IntroTail(i.startTransfer);
    AbsorbFiles(EMPTY, i.files);
    assert EMPTY.files + i.files == i.files;
    var o1 := EMPTY.(files := i.files);
    AbsorbTexts(o1, i.texts);
    assert o1.texts + i.texts == i.texts;
    var o2 := o1.(texts := i.texts);
    AbsorbIntroTail(o2, i.startTransfer);
    assert IntroFields(i) == files + (texts + tail);
    assert o2.(startTransfer := i.startTransfer) == i;
    hide FileEntries, TextEntries, IntroTail, Absorb;
    AbsorbAppend(EMPTY, files, texts + tail);
    AbsorbAppend(o1, texts, tail);
  }

  /** Every introduction a sender can build reaches the receiver as the same introduction. */
  lemma IntroductionRoundTrip(i: Introduction)
    requires |BuildIntroduction(i)| < TWO_64
    ensures Parse(BuildIntroduction(i)) == Ok(Introduce(i))
  {
    var body := P.Encode(IntroFields(i));
    WrapRoundTrip(T_INTRODUCTION, V1_INTRODUCTION, body);
    P.FieldsRoundTrip(IntroFields(i));
    IntroductionOfFields(EMPTY, body);
    IntroFieldsAbsorb(i);
  }

  /** A message of one or two fields is at most twenty bytes a field longer than what it holds. */
  lemma SmallMessage(fs: seq<P.Field>, held: nat)
    requires 1 <= |fs| <= 2 && forall k :: 0 <= k < |fs| ==> P.Fits(fs[k])
    requires held == (if fs[0].Bytes? then |fs[0].b| else 0) + (if |fs| == 2 && fs[1].Bytes? then |fs[1].b| else 0)
    ensures |P.Encode(fs)| <= 40 + held
  {
    P.FieldLength(fs[0]);
    assert P.Encode(fs[1..]) == if |fs| == 1 then [] else P.EncodeField(fs[1]) + P.Encode(fs[1..][1..]);
    if |fs| == 2 {
      P.FieldLength(fs[1]);
      assert fs[1..][1..] == [];
    }
  }

  lemma SmallWrap(frameType: U64, field: U32, body: seq<U8>)
    requires |body| < TWO_63
    ensures |Wrap(frameType, field, body)| <= 80 + |body|
  {
    var inner := F.InnerFields(frameType, field, body);
    SmallMessage(inner, |body|);
    SmallMessage(F.OuterFields(P.Encode(inner)), |P.Encode(inner)|);
  }

  lemma OneVarintMessage(n: U32, v: U64)
    ensures P.Fields(P.Encode([P.Varint(n, v)])) == Ok([P.Varint(n, v)]) && F.Number([P.Varint(n, v)], n) == v
    ensures |P.Encode([P.Varint(n, v)])| <= 40
  {
    var fs := [P.Varint(n, v)];
    SmallMessage(fs, 0);
    P.FieldsRoundTrip(fs);
    F.OneVarint(n, v);
  }

  lemma ResponseRoundTrip(s: Status)
    ensures Parse(BuildResponse(s)) == Ok(Response(s))
  {
    hide P.Encode, P.Fields, P.LastVarint, P.LastBytes, Wrap;
    OneVarintMessage(RS_STATUS, s.Code());
    SmallWrap(T_RESPONSE, V1_RESPONSE, P.Encode([P.Varint(RS_STATUS, s.Code())]));
    WrapRoundTrip(T_RESPONSE, V1_RESPONSE, P.Encode([P.Varint(RS_STATUS, s.Code())]));
  }

  lemma VerdictRoundTrip(v: Verdict)
    ensures Parse(BuildVerdict(v)) == Ok(PairedKeyResult(v))
  {
    hide P.Encode, P.Fields, P.LastVarint, P.LastBytes, Wrap;
    OneVarintMessage(PKR_STATUS, v.Code());
    SmallWrap(T_PAIRED_KEY_RESULT, V1_PAIRED_KEY_RESULT, P.Encode([P.Varint(PKR_STATUS, v.Code())]));
    WrapRoundTrip(T_PAIRED_KEY_RESULT, V1_PAIRED_KEY_RESULT, P.Encode([P.Varint(PKR_STATUS, v.Code())]));
  }

  lemma PairedKeyRoundTrip(signed: seq<U8>, hash: seq<U8>)
    requires |signed| < TWO_32 && |hash| < TWO_32
    ensures Parse(BuildPairedKey(signed, hash)) == Ok(PairedKeyEncryption(signed, hash))
  {
    hide P.Encode, P.Fields, P.LastVarint, P.LastBytes, Wrap;
    var fs := [P.Bytes(PKE_SIGNED_DATA, signed), P.Bytes(PKE_SECRET_ID_HASH, hash)];
    SmallMessage(fs, |signed| + |hash|);
    SmallWrap(T_PAIRED_KEY_ENCRYPTION, V1_PAIRED_KEY_ENCRYPTION, P.Encode(fs));
    WrapRoundTrip(T_PAIRED_KEY_ENCRYPTION, V1_PAIRED_KEY_ENCRYPTION, P.Encode(fs));
    P.FieldsRoundTrip(fs);
    P.Lookup(fs);
    assert fs[0].b == signed && fs[1].b == hash;
  }

  lemma CancelRoundTrip()
    ensures Parse(BuildCancel()) == Ok(Cancel)
  {
    hide P.Encode, P.Fields, P.LastBytes, P.LastVarint, F.LastBody;
    OneVarintMessage(V1_TYPE, T_CANCEL);
    var inner := [P.Varint(V1_TYPE, T_CANCEL)];
    var v1 := P.Encode(inner);
    OuterRead(v1);
    F.OneVarint(V1_TYPE, T_CANCEL);
  }

  /** The outer message is read as holding its body. */
  lemma OuterRead(v1: seq<U8>)
    requires |v1| <= 40
    ensures P.Fields(P.Encode(F.OuterFields(v1))) == Ok(F.OuterFields(v1)) && P.LastBytes(F.OuterFields(v1), F_V1) == Some(v1)
  {
    hide P.Encode, P.Fields, P.LastBytes, P.LastVarint;
    SmallMessage(F.OuterFields(v1), |v1|);
    P.FieldsRoundTrip(F.OuterFields(v1));
    P.Lookup(F.OuterFields(v1));
    assert F.OuterFields(v1)[1].b == v1;
  }
}
