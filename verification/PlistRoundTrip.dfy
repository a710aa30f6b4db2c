/** What the plist writer writes, the plist reader reads back. */
module PlistRoundTrip {
  import opened Bytes
  import Utf8
  import W = PlistWriter
  import R = PlistReader

  /** The same tree, as the reader names it. */
  function ToVal(v: W.Value): R.Val {
    match v
    case Str(s) => R.Str(s)
    case Data(d) => R.Data(d)
    case Bool(b) => R.Bool(b)
    case Array(items) => R.Array(ToVals(items))
    case Dict(entries) => R.Dict(ToPairs(entries))
  }

  function ToVals(items: seq<W.Value>): seq<R.Val> {
    if items == [] then [] else [ToVal(items[0])] + ToVals(items[1..])
  }

  function ToPairs(entries: seq<W.Entry>): seq<R.Pair> {
    if entries == [] then [] else [R.Pair(entries[0].key, ToVal(entries[0].value))] + ToPairs(entries[1..])
  }

  /** A length a four-byte integer object can hold. */
  predicate StringFits(s: string) {
    if Utf8.Ascii(s) then |Utf8.Encode(s)| < TWO_32 else |Utf8.Encode16(s)| < TWO_32
  }

  predicate Writable(v: W.Value) {
    match v
    case Str(s) => StringFits(s)
    case Data(d) => |d| < TWO_32
    case Bool(_) => true
    case Array(items) => AllWritable(items)
    case Dict(entries) => EntriesWritable(entries)
  }

  predicate AllWritable(items: seq<W.Value>) {
    items != [] ==> Writable(items[0]) && AllWritable(items[1..])
  }

  predicate EntriesWritable(entries: seq<W.Entry>) {
    entries != [] ==> StringFits(entries[0].key) && Writable(entries[0].value) && EntriesWritable(entries[1..])
  }

  // ------------------------------------------------------------- bytes at a position ---

  lemma AtGet(buf: seq<U8>, at: nat, b: seq<U8>)
    requires At(buf, at, b)
    ensures R.Get(buf, at, at + |b|) == Some(b)
    ensures b != [] ==> buf[at] == b[0]
  {
    if b != [] {
      assert buf[at..at + |b|][0] == buf[at];
    }
  }

  lemma {:induction false} TableLength(rs: seq<nat>, width: nat)
    ensures |W.Table(rs, width)| == |rs| * width
  {
    if rs != [] {
      TableLength(rs[1..], width);
      assert |rs| * width == width + (|rs| - 1) * width;
    }
  }

  lemma Distribute(k: nat, j: nat, w: nat)
    ensures k * w + j * w == (k + j) * w && 1 * w == w
  {
  }

  lemma {:induction false} TableAt(buf: seq<U8>, at: nat, rs: seq<nat>, width: nat, j: nat)
    requires At(buf, at, W.Table(rs, width)) && j < |rs| && width <= 8 && rs[j] < Pow256(width)
    ensures var raw := R.Get(buf, at + j * width, at + j * width + width); raw.Some? && FromBigEndian(raw.value) == rs[j]
    decreases j
  {
    hide BigEndian, FromBigEndian, Pow256;
    AtSplit(buf, at, BigEndian(rs[0], width), W.Table(rs[1..], width));
    if j == 0 {
      AtGet(buf, at, BigEndian(rs[0], width));
      BigEndianRoundTrip(rs[0], width);
    } else {
      TableAt(buf, at + width, rs[1..], width, j - 1);
      Distribute(1, j - 1, width);
    }
  }

  lemma {:induction false} BodiesAt(buf: seq<U8>, start: nat, nodes: seq<W.Node>, refSize: nat, i: nat)
    requires At(buf, start, W.Bodies(nodes, refSize)) && i < |nodes|
    ensures At(buf, W.Offsets(nodes, refSize, start)[i], W.ObjectBytes(nodes[i], refSize))
    ensures W.Offsets(nodes, refSize, start)[i] <= start + |W.Bodies(nodes, refSize)|
    decreases i
  {
    hide W.ObjectBytes, At;
    AtSplit(buf, start, W.ObjectBytes(nodes[0], refSize), W.Bodies(nodes[1..], refSize));
    if i > 0 {
      BodiesAt(buf, start + |W.ObjectBytes(nodes[0], refSize)|, nodes[1..], refSize, i - 1);
    }
  }

  lemma ShiftValues()
    ensures R.Shift(0) == 1 && R.Shift(1) == 2 && R.Shift(2) == 4
  {
  }

  lemma IntObjectBack(v: nat)
    requires v < TWO_32
    ensures var b := W.IntObject(v);
      b[0] / 16 == 1 && |b| == 1 + R.Shift(b[0] % 16) && FromBigEndian(b[1..]) == v
  {
    hide BigEndian, FromBigEndian, Pow256;
    ShiftValues();
    Pow256Values();
    var width := if v <= 0xFF then 1 else if v <= 0xFFFF then 2 else 4;
    BigEndianRoundTrip(v, width);
    assert W.IntObject(v)[1..] == BigEndian(v, width);
  }

  /** A marker and its length read back, whether the length fits its nibble or escapes. */
  lemma SizedBack(d: R.Doc, at: nat, kind: U8, len: nat)
    requires kind % 16 == 0 && kind <= 0xF0 && len < TWO_32 && At(d.buf, at, W.Marker(kind, len))
    ensures at < |d.buf| && d.buf[at] / 16 == kind / 16
    ensures R.Sized(d, at, d.buf[at] % 16) == Some((len, at + |W.Marker(kind, len)|))
  {
    hide FromBigEndian, W.IntObject, R.Shift, At;
    var b := W.Marker(kind, len);
    AtGet(d.buf, at, b);
    if len >= 0x0F {
      var n := W.IntObject(len);
      IntObjectBack(len);
      AtSplit(d.buf, at, [kind + 0x0F], n);
      AtGet(d.buf, at + 1, n);
      assert n == [n[0]] + n[1..];
      AtSplit(d.buf, at + 1, [n[0]], n[1..]);
      AtGet(d.buf, at + 2, n[1..]);
    }
  }

  lemma {:induction false} UnitsBack(units: seq<U16>)
    ensures R.UnitsOf(W.BytesOf16(units)) == units
    ensures |W.BytesOf16(units)| == 2 * |units|
  {
    if units != [] {
      UnitsBack(units[1..]);
      var b := W.BytesOf16(units);
      assert b[2..] == W.BytesOf16(units[1..]);
    }
  }

  lemma AsciiBack(d: R.Doc, at: nat, s: string)
    requires At(d.buf, at, W.StringBytes(s)) && Utf8.Ascii(s) && |Utf8.Encode(s)| < TWO_32
    ensures at < |d.buf| && d.buf[at] / 16 == 0x5
    ensures var sized := R.Sized(d, at, d.buf[at] % 16);
      sized.Some? && var (len, body) := sized.value;
      R.Get(d.buf, body, body + len) == Some(Utf8.Encode(s)) && Utf8.Lossy(Utf8.Encode(s)) == s
  {
    hide Utf8.Encode, Utf8.Encode16, Utf8.Lossy, W.BytesOf16, W.Marker, R.Sized;
    var body := Utf8.Encode(s);
    AtSplit(d.buf, at, W.Marker(0x50, |body|), body);
    SizedBack(d, at, 0x50, |body|);
    AtGet(d.buf, at + |W.Marker(0x50, |body|)|, body);
    Utf8.LossyRoundTrip(s);
  }

  lemma WideBack(d: R.Doc, at: nat, s: string)
    requires At(d.buf, at, W.StringBytes(s)) && !Utf8.Ascii(s) && |Utf8.Encode16(s)| < TWO_32
    ensures at < |d.buf| && d.buf[at] / 16 == 0x6
    ensures var sized := R.Sized(d, at, d.buf[at] % 16);
      sized.Some? && var (units, body) := sized.value;
      var raw := R.Get(d.buf, body, body + 2 * units);
      raw.Some? && Utf8.Lossy16(R.UnitsOf(raw.value)) == s
  {
    hide Utf8.Encode, Utf8.Encode16, Utf8.Lossy16, W.BytesOf16, W.Marker, R.Sized, R.UnitsOf;
    var units := Utf8.Encode16(s);
    UnitsBack(units);
    AtSplit(d.buf, at, W.Marker(0x60, |units|), W.BytesOf16(units));
    SizedBack(d, at, 0x60, |units|);
    AtGet(d.buf, at + |W.Marker(0x60, |units|)|, W.BytesOf16(units));
    Utf8.Lossy16RoundTrip(s);
  }

  lemma StringBack(d: R.Doc, at: nat, s: string, purse: R.Purse)
    requires At(d.buf, at, W.StringBytes(s)) && StringFits(s) && |Utf8.Encode(s)| <= purse.bytes
    ensures at < |d.buf| && !R.IsContainer(d.buf[at])
    ensures R.Leaf(d, at, purse) == Some((R.Str(s), purse.(bytes := purse.bytes - |Utf8.Encode(s)|)))
  {
    hide Utf8.Encode, Utf8.Encode16, Utf8.Lossy, Utf8.Lossy16, R.UnitsOf, W.StringBytes, R.Sized, At, Utf8.Ascii;
    if Utf8.Ascii(s) {
      AsciiBack(d, at, s);
    } else {
      WideBack(d, at, s);
    }
  }

  lemma DataBack(d: R.Doc, at: nat, data: seq<U8>, purse: R.Purse)
    requires At(d.buf, at, W.Marker(0x40, |data|) + data) && |data| < TWO_32 && |data| <= purse.bytes
    ensures at < |d.buf| && !R.IsContainer(d.buf[at])
    ensures R.Leaf(d, at, purse) == Some((R.Data(data), purse.(bytes := purse.bytes - |data|)))
  {
    hide W.Marker, R.Sized;
    AtSplit(d.buf, at, W.Marker(0x40, |data|), data);
    SizedBack(d, at, 0x40, |data|);
    AtGet(d.buf, at + |W.Marker(0x40, |data|)|, data);
  }

  // -------------------------------------------------------------- reading one subtree ---

  ghost predicate Placed(d: R.Doc, i: nat, b: seq<U8>) {
    var at := R.OffsetOf(d, i);
    at.Some? && At(d.buf, at.value, b)
  }

  /** The document's objects are these nodes, and a reference is wide enough for any of them. */
  ghost predicate Holds(d: R.Doc, nodes: seq<W.Node>) {
    && d.refSize <= 8 && |nodes| <= R.MAX_ELEMENTS && |nodes| <= Pow256(d.refSize)
    && forall i :: 0 <= i < |nodes| ==> Placed(d, i, W.ObjectBytes(nodes[i], d.refSize))
  }

  predicate Sub(nodes: seq<W.Node>, i: nat, part: seq<W.Node>) { i + |part| <= |nodes| && nodes[i..i + |part|] == part }

  lemma SubSplit(nodes: seq<W.Node>, i: nat, a: seq<W.Node>, b: seq<W.Node>)
    requires Sub(nodes, i, a + b)
    ensures Sub(nodes, i, a) && Sub(nodes, i + |a|, b)
    ensures a != [] ==> nodes[i] == a[0]
  {
    assert (a + b)[..|a|] == a && (a + b)[|a|..] == b;
    assert nodes[i..i + |a|] == (a + b)[..|a|];
    assert nodes[i + |a|..i + |a| + |b|] == (a + b)[|a|..];
    assert a != [] ==> nodes[i] == nodes[i..i + |a|][0];
  }

  predicate Affords(purse: R.Purse, objects: nat, bytes: nat) { objects <= purse.objects && bytes <= purse.bytes }

  /** What spending that leaves. */
  function Less(purse: R.Purse, objects: nat, bytes: nat): R.Purse
    requires Affords(purse, objects, bytes)
  {
    R.Purse(purse.objects - objects, purse.bytes - bytes)
  }

  lemma StringObjectBack(d: R.Doc, nodes: seq<W.Node>, i: nat, s: string, depth: nat, purse: R.Purse)
    requires Holds(d, nodes) && i < |nodes| && nodes[i] == W.NodeStr(s) && StringFits(s)
    requires depth <= R.MAX_DEPTH && Affords(purse, 1, |Utf8.Encode(s)|)
    ensures R.Object(d, i, depth, purse) == Some((R.Str(s), Less(purse, 1, |Utf8.Encode(s)|)))
  {
    hide W.StringBytes, R.Leaf, R.OffsetOf, Utf8.Encode;
    assert Placed(d, i, W.ObjectBytes(nodes[i], d.refSize));
    StringBack(d, R.OffsetOf(d, i).value, s, purse.(objects := purse.objects - 1));
  }

  lemma DataObjectBack(d: R.Doc, nodes: seq<W.Node>, i: nat, data: seq<U8>, depth: nat, purse: R.Purse)
    requires Holds(d, nodes) && i < |nodes| && nodes[i] == W.NodeData(data) && |data| < TWO_32
    requires depth <= R.MAX_DEPTH && Affords(purse, 1, |data|)
    ensures R.Object(d, i, depth, purse) == Some((R.Data(data), Less(purse, 1, |data|)))
  {
    hide W.Marker, R.Leaf, R.OffsetOf;
    assert Placed(d, i, W.ObjectBytes(nodes[i], d.refSize));
    DataBack(d, R.OffsetOf(d, i).value, data, purse.(objects := purse.objects - 1));
  }

  lemma BoolObjectBack(d: R.Doc, nodes: seq<W.Node>, i: nat, b: bool, depth: nat, purse: R.Purse)
    requires Holds(d, nodes) && i < |nodes| && nodes[i] == W.NodeBool(b)
    requires depth <= R.MAX_DEPTH && Affords(purse, 1, 0)
    ensures R.Object(d, i, depth, purse) == Some((R.Bool(b), Less(purse, 1, 0)))
  {
    hide R.OffsetOf;
    assert Placed(d, i, W.ObjectBytes(nodes[i], d.refSize));
    AtGet(d.buf, R.OffsetOf(d, i).value, W.ObjectBytes(nodes[i], d.refSize));
  }

  lemma {:induction false} RefsBelow(items: seq<W.Value>, base: nat)
    ensures Below(W.Refs(items, base), base + W.SizeAll(items))
  {
    if items != [] {
      RefsBelow(items[1..], base + W.Size(items[0]));
    }
  }

  lemma {:induction false} ValueRefsBelow(entries: seq<W.Entry>, base: nat)
    ensures Below(W.ValueRefs(entries, base), base + W.SizeEntries(entries))
  {
    if entries != [] {
      ValueRefsBelow(entries[1..], base + W.Size(entries[0].value));
    }
  }

  /** The references from position `k` of a container's list on. */
  ghost predicate RefsAt(d: R.Doc, body: nat, k: nat, rs: seq<nat>) {
    forall j :: 0 <= j < |rs| ==> R.Reference(d, body, k + j) == Some(rs[j])
  }

  lemma RefsTail(d: R.Doc, body: nat, k: nat, rs: seq<nat>)
    requires RefsAt(d, body, k, rs) && rs != []
    ensures R.Reference(d, body, k) == Some(rs[0]) && RefsAt(d, body, k + 1, rs[1..])
  {
    hide R.Reference;
    assert R.Reference(d, body, k + 0) == Some(rs[0]);
    forall j | 0 <= j < |rs[1..]| ensures R.Reference(d, body, k + 1 + j) == Some(rs[1..][j]) {
      assert R.Reference(d, body, k + (j + 1)) == Some(rs[j + 1]);
    }
  }

  /** A table of references read back from the `k`th on, wherever in the body it starts. */
  lemma TableRefs(d: R.Doc, body: nat, k: nat, rs: seq<nat>)
    requires At(d.buf, body + k * d.refSize, W.Table(rs, d.refSize)) && d.refSize <= 8
    requires forall j :: 0 <= j < |rs| ==> rs[j] < Pow256(d.refSize)
    ensures RefsAt(d, body, k, rs)
  {
    hide W.Table, FromBigEndian, Pow256, R.Get, At;
    forall j | 0 <= j < |rs| ensures R.Reference(d, body, k + j) == Some(rs[j]) {
      TableAt(d.buf, body + k * d.refSize, rs, d.refSize, j);
      Distribute(k, j, d.refSize);
    }
  }

  /** An array object's count, and its references. */
  ghost predicate ArrayAt(d: R.Doc, i: nat, body: nat, rs: seq<nat>) {
    var at := R.OffsetOf(d, i);
    && at.Some? && d.buf[at.value] / 16 == 0xA && R.Sized(d, at.value, d.buf[at.value] % 16) == Some((|rs|, body))
    && RefsAt(d, body, 0, rs)
  }

  ghost predicate DictAt(d: R.Doc, i: nat, body: nat, ks: seq<nat>, vs: seq<nat>) {
    var at := R.OffsetOf(d, i);
    && at.Some? && d.buf[at.value] / 16 == 0xD && R.Sized(d, at.value, d.buf[at.value] % 16) == Some((|ks|, body))
    && RefsAt(d, body, 0, ks) && RefsAt(d, body, |ks|, vs)
  }

  ghost predicate Below(rs: seq<nat>, limit: nat) { forall j :: 0 <= j < |rs| ==> rs[j] < limit }

  lemma ArrayHead(d: R.Doc, nodes: seq<W.Node>, i: nat, rs: seq<nat>) returns (body: nat)
    requires Holds(d, nodes) && i < |nodes| && nodes[i] == W.NodeArray(rs)
    requires |rs| <= R.MAX_ELEMENTS && Below(rs, |nodes|)
    ensures ArrayAt(d, i, body, rs)
  {
    hide W.Marker, W.Table, R.OffsetOf, R.Sized, Pow256, RefsAt;
    assert Placed(d, i, W.ObjectBytes(nodes[i], d.refSize));
    var at := R.OffsetOf(d, i).value;
    AtSplit(d.buf, at, W.Marker(0xA0, |rs|), W.Table(rs, d.refSize));
    SizedBack(d, at, 0xA0, |rs|);
    body := at + |W.Marker(0xA0, |rs|)|;
    TableRefs(d, body, 0, rs);
  }

  lemma DictHead(d: R.Doc, nodes: seq<W.Node>, i: nat, ks: seq<nat>, vs: seq<nat>) returns (body: nat)
    requires Holds(d, nodes) && i < |nodes| && nodes[i] == W.NodeDict(ks, vs)
    requires |ks| <= R.MAX_ELEMENTS && Below(ks, |nodes|) && Below(vs, |nodes|)
    ensures DictAt(d, i, body, ks, vs)
  {
    hide W.Marker, W.Table, R.OffsetOf, R.Sized, Pow256, RefsAt;
    assert Placed(d, i, W.ObjectBytes(nodes[i], d.refSize));
    var at, w := R.OffsetOf(d, i).value, d.refSize;
    AtSplit(d.buf, at, W.Marker(0xD0, |ks|), W.Table(ks, w) + W.Table(vs, w));
    SizedBack(d, at, 0xD0, |ks|);
    body := at + |W.Marker(0xD0, |ks|)|;
    AtSplit(d.buf, body, W.Table(ks, w), W.Table(vs, w));
    TableLength(ks, w);
    TableRefs(d, body, 0, ks);
    TableRefs(d, body, |ks|, vs);
  }

  lemma ArrayReads(d: R.Doc, i: nat, body: nat, rs: seq<nat>, depth: nat, purse: R.Purse)
    requires ArrayAt(d, i, body, rs) && |rs| <= R.MAX_ELEMENTS && depth <= R.MAX_DEPTH && purse.objects > 0
    ensures R.Object(d, i, depth, purse) ==
      match R.Items(d, body, |rs|, 0, depth, purse.(objects := purse.objects - 1))
      case None => None
      case Some((items, left)) => Some((R.Array(items), left))
  {
    hide R.OffsetOf, R.Sized, RefsAt, R.Items;
  }

  lemma DictReads(d: R.Doc, i: nat, body: nat, ks: seq<nat>, vs: seq<nat>, depth: nat, purse: R.Purse)
    requires DictAt(d, i, body, ks, vs) && |ks| <= R.MAX_ELEMENTS && depth <= R.MAX_DEPTH && purse.objects > 0
    ensures R.Object(d, i, depth, purse) ==
      match R.Entries(d, body, |ks|, 0, depth, purse.(objects := purse.objects - 1))
      case None => None
      case Some((entries, left)) => Some((R.Dict(entries), left))
  {
    hide R.OffsetOf, R.Sized, RefsAt, R.Entries;
  }

  lemma {:induction false} ObjectBack(d: R.Doc, nodes: seq<W.Node>, i: nat, v: W.Value, depth: nat, purse: R.Purse)
    requires Holds(d, nodes) && Writable(v) && Sub(nodes, i, W.Flatten(v, i))
    requires depth + R.Nesting(ToVal(v)) <= R.MAX_DEPTH && Affords(purse, W.Size(v), R.Payload(ToVal(v)))
    ensures R.Object(d, i, depth, purse) == Some((ToVal(v), Less(purse, W.Size(v), R.Payload(ToVal(v)))))
    decreases v
  {
    hide Holds, R.Object, ToVals, ToPairs, W.FlattenAll, W.FlattenEntries, R.NestingAll, R.NestingPairs, R.PayloadAll, R.PayloadPairs;
    assert nodes[i] == W.Flatten(v, i)[0];
    match v
    case Str(s) => StringObjectBack(d, nodes, i, s, depth, purse);
    case Data(data) => DataObjectBack(d, nodes, i, data, depth, purse);
    case Bool(b) => BoolObjectBack(d, nodes, i, b, depth, purse);
    case Array(items) => ArrayBack(d, nodes, i, items, depth, purse);
    case Dict(entries) => DictBack(d, nodes, i, entries, depth, purse);
  }

  lemma {:induction false} ArrayBack(d: R.Doc, nodes: seq<W.Node>, i: nat, items: seq<W.Value>, depth: nat, purse: R.Purse)
    requires Holds(d, nodes) && AllWritable(items) && Sub(nodes, i, W.Flatten(W.Array(items), i))
    requires depth + R.NestingAll(ToVals(items)) <= R.MAX_DEPTH && Affords(purse, 1 + W.SizeAll(items), R.PayloadAll(ToVals(items)))
    ensures R.Object(d, i, depth, purse) ==
      Some((R.Array(ToVals(items)), Less(purse, 1 + W.SizeAll(items), R.PayloadAll(ToVals(items)))))
    decreases items, 1
  {
    hide *;
    var rs := W.Refs(items, i + 1);
    ArrayNodes(nodes, i, items);
    HoldsFew(d, nodes);
    AffordsLess(purse, 1 + W.SizeAll(items), R.PayloadAll(ToVals(items)));
    CountBelow(items);
    NestingFits(depth, R.NestingAll(ToVals(items)));
    var body := ArrayHead(d, nodes, i, rs);
    ArrayReads(d, i, body, rs, depth, purse);
    ArrayRefs(d, i, body, rs);
    ItemsBack(d, nodes, items, i + 1, body, |items|, 0, depth, purse.(objects := purse.objects - 1));
  }

  lemma HoldsFew(d: R.Doc, nodes: seq<W.Node>)
    requires Holds(d, nodes)
    ensures |nodes| <= R.MAX_ELEMENTS
  {
  }

  lemma NestingFits(depth: nat, nesting: nat)
    requires depth + nesting <= R.MAX_DEPTH
    ensures depth <= R.MAX_DEPTH
  {
  }

  lemma AffordsLess(purse: R.Purse, objects: nat, bytes: nat)
    requires Affords(purse, objects, bytes) && objects >= 1
    ensures purse.objects > 0 && Affords(purse.(objects := purse.objects - 1), objects - 1, bytes)
    ensures Less(purse.(objects := purse.objects - 1), objects - 1, bytes) == Less(purse, objects, bytes)
  {
  }

  lemma ArrayNodes(nodes: seq<W.Node>, i: nat, items: seq<W.Value>)
    requires Sub(nodes, i, W.Flatten(W.Array(items), i))
    ensures i < |nodes| && nodes[i] == W.NodeArray(W.Refs(items, i + 1)) && Sub(nodes, i + 1, W.FlattenAll(items, i + 1))
    ensures Below(W.Refs(items, i + 1), |nodes|) && 1 + W.SizeAll(items) <= |nodes|
  {
    hide W.FlattenAll, W.Refs, W.SizeAll;
    SubSplit(nodes, i, [W.NodeArray(W.Refs(items, i + 1))], W.FlattenAll(items, i + 1));
    RefsBelow(items, i + 1);
  }

  lemma DictNodes(nodes: seq<W.Node>, i: nat, entries: seq<W.Entry>, n: nat, ks: seq<nat>, vs: seq<nat>)
    requires Sub(nodes, i, W.Flatten(W.Dict(entries), i))
    requires n == |entries| && ks == W.KeyRefs(n, i + 1) && vs == W.ValueRefs(entries, i + 1 + n)
    ensures i < |nodes| && nodes[i] == W.NodeDict(ks, vs) && n < |nodes|
    ensures Sub(nodes, i + 1, W.KeyNodes(entries)) && Sub(nodes, i + 1 + n, W.FlattenEntries(entries, i + 1 + n))
    ensures Below(ks, |nodes|) && Below(vs, |nodes|)
  {
    hide *;
    DictFlat(entries, i);
    SubThree(nodes, i, W.NodeDict(ks, vs), W.KeyNodes(entries), W.FlattenEntries(entries, i + 1 + n));
    KeyRefsBelow(n, i + 1, |nodes|);
    ValueRefsBelow(entries, i + 1 + n);
    BelowWeakens(vs, i + 1 + n + W.SizeEntries(entries), |nodes|);
  }

  lemma SubThree(nodes: seq<W.Node>, i: nat, head: W.Node, a: seq<W.Node>, b: seq<W.Node>)
    requires Sub(nodes, i, [head] + a + b)
    ensures i + 1 + |a| + |b| <= |nodes| && nodes[i] == head && Sub(nodes, i + 1, a) && Sub(nodes, i + 1 + |a|, b)
  {
    SubSplit(nodes, i, [head] + a, b);
    SubSplit(nodes, i, [head], a);
  }

  lemma DictFlat(entries: seq<W.Entry>, i: nat)
    ensures W.Flatten(W.Dict(entries), i) ==
      [W.NodeDict(W.KeyRefs(|entries|, i + 1), W.ValueRefs(entries, i + 1 + |entries|))] + W.KeyNodes(entries)
      + W.FlattenEntries(entries, i + 1 + |entries|)
  {
  }

  lemma KeyRefsBelow(n: nat, base: nat, limit: nat)
    requires base + n <= limit
    ensures Below(W.KeyRefs(n, base), limit)
  {
  }

  lemma BelowWeakens(rs: seq<nat>, limit: nat, wider: nat)
    requires Below(rs, limit) && limit <= wider
    ensures Below(rs, wider)
  {
  }

  lemma ArrayRefs(d: R.Doc, i: nat, body: nat, rs: seq<nat>)
    requires ArrayAt(d, i, body, rs)
    ensures RefsAt(d, body, 0, rs)
  {
  }

  lemma {:induction false} CountBelow(items: seq<W.Value>)
    ensures |items| <= W.SizeAll(items)
  {
    if items != [] {
      CountBelow(items[1..]);
    }
  }

  lemma {:induction false} ItemsBack(d: R.Doc, nodes: seq<W.Node>, items: seq<W.Value>, base: nat, body: nat, count: nat, k: nat, depth: nat, purse: R.Purse)
    requires Holds(d, nodes) && AllWritable(items) && Sub(nodes, base, W.FlattenAll(items, base)) && count == k + |items|
    requires RefsAt(d, body, k, W.Refs(items, base)) && depth <= R.MAX_DEPTH
    requires depth + R.NestingAll(ToVals(items)) <= R.MAX_DEPTH && Affords(purse, W.SizeAll(items), R.PayloadAll(ToVals(items)))
    ensures R.Items(d, body, count, k, depth, purse) ==
      Some((ToVals(items), Less(purse, W.SizeAll(items), R.PayloadAll(ToVals(items)))))
    decreases items, 0
  {
    hide Holds, R.Object, R.Reference, W.Flatten, Writable, ToVal, R.Nesting, R.Payload, W.Size, RefsAt;
    if items != [] {
      var v, rest := items[0], items[1..];
      var next := base + W.Size(v);
      var vs, rs := ToVals(items), W.Refs(items, base);
      assert vs[0] == ToVal(v) && vs[1..] == ToVals(rest);
      assert rs[0] == base && rs[1..] == W.Refs(rest, next);
      SubSplit(nodes, base, W.Flatten(v, base), W.FlattenAll(rest, next));
      RefsTail(d, body, k, rs);
      ObjectBack(d, nodes, base, v, depth + 1, purse);
      ItemsBack(d, nodes, rest, next, body, count, k + 1, depth, Less(purse, W.Size(v), R.Payload(ToVal(v))));
    }
  }

  lemma {:induction false} DictBack(d: R.Doc, nodes: seq<W.Node>, i: nat, entries: seq<W.Entry>, depth: nat, purse: R.Purse)
    requires Holds(d, nodes) && EntriesWritable(entries) && Sub(nodes, i, W.Flatten(W.Dict(entries), i))
    requires depth + R.NestingPairs(ToPairs(entries)) <= R.MAX_DEPTH
    requires Affords(purse, 1 + |entries| + W.SizeEntries(entries), R.PayloadPairs(ToPairs(entries)))
    ensures R.Object(d, i, depth, purse) ==
      Some((R.Dict(ToPairs(entries)), Less(purse, 1 + |entries| + W.SizeEntries(entries), R.PayloadPairs(ToPairs(entries)))))
    decreases entries, 1
  {
    hide *;
    var n := |entries|;
    var ks, vs := W.KeyRefs(n, i + 1), W.ValueRefs(entries, i + 1 + n);
    DictNodes(nodes, i, entries, n, ks, vs);
    HoldsFew(d, nodes);
    AffordsLess(purse, 1 + (n + W.SizeEntries(entries)), R.PayloadPairs(ToPairs(entries)));
    NestingFits(depth, R.NestingPairs(ToPairs(entries)));
    var body := DictHead(d, nodes, i, ks, vs);
    DictReads(d, i, body, ks, vs, depth, purse);
    DictRefs(d, i, body, ks, vs);
    EntriesBack(d, nodes, entries, i + 1, i + 1 + n, body, n, 0, depth, purse.(objects := purse.objects - 1));
  }

  lemma DictRefs(d: R.Doc, i: nat, body: nat, ks: seq<nat>, vs: seq<nat>)
    requires DictAt(d, i, body, ks, vs)
    ensures RefsAt(d, body, 0, ks) && RefsAt(d, body, |ks|, vs)
  {
  }

  lemma {:induction false} EntriesBack(
      d: R.Doc, nodes: seq<W.Node>, entries: seq<W.Entry>, keyBase: nat, base: nat, body: nat, count: nat, k: nat, depth: nat, purse: R.Purse)
    requires Holds(d, nodes) && EntriesWritable(entries) && count == k + |entries| && depth <= R.MAX_DEPTH
    requires Sub(nodes, keyBase, W.KeyNodes(entries)) && Sub(nodes, base, W.FlattenEntries(entries, base))
    requires RefsAt(d, body, k, W.KeyRefs(|entries|, keyBase)) && RefsAt(d, body, count + k, W.ValueRefs(entries, base))
    requires depth + R.NestingPairs(ToPairs(entries)) <= R.MAX_DEPTH
    requires Affords(purse, |entries| + W.SizeEntries(entries), R.PayloadPairs(ToPairs(entries)))
    ensures R.Entries(d, body, count, k, depth, purse) ==
      Some((ToPairs(entries), Less(purse, |entries| + W.SizeEntries(entries), R.PayloadPairs(ToPairs(entries)))))
    decreases entries, 0
  {
    hide *;
    if entries == [] {
      NoEntriesBack(d, body, count, depth, purse);
    } else {
      var e, rest := entries[0], entries[1..];
      var next := base + W.Size(e.value);
      EntryCosts(entries, depth, purse);
      EntryNodes(nodes, entries, keyBase, base);
      EntryRefs(d, body, count, k, entries, keyBase, base);
      StringObjectBack(d, nodes, keyBase, e.key, depth + 1, purse);
      var keyed := Less(purse, 1, |Utf8.Encode(e.key)|);
      ObjectBack(d, nodes, base, e.value, depth + 1, keyed);
      var left := Less(keyed, W.Size(e.value), R.Payload(ToVal(e.value)));
      EntriesBack(d, nodes, rest, keyBase + 1, next, body, count, k + 1, depth, left);
      EntryReads(d, body, count, k, depth, purse, keyBase, base, e, keyed, left);
    }
  }

  lemma NoEntriesBack(d: R.Doc, body: nat, count: nat, depth: nat, purse: R.Purse)
    requires depth <= R.MAX_DEPTH
    ensures ToPairs([]) == [] && W.SizeEntries([]) == 0 && R.PayloadPairs([]) == 0
    ensures R.Entries(d, body, count, count, depth, purse) == Some(([], purse)) && Less(purse, 0, 0) == purse
  {
  }

  /** What the first entry of a dictionary leaves for the rest. */
  lemma {:induction false} EntryCosts(entries: seq<W.Entry>, depth: nat, purse: R.Purse)
    requires entries != [] && EntriesWritable(entries) && depth + R.NestingPairs(ToPairs(entries)) <= R.MAX_DEPTH
    requires Affords(purse, |entries| + W.SizeEntries(entries), R.PayloadPairs(ToPairs(entries)))
    ensures var e, rest := entries[0], entries[1..];
      && StringFits(e.key) && Writable(e.value) && EntriesWritable(rest)
      && depth + 1 + R.Nesting(ToVal(e.value)) <= R.MAX_DEPTH && depth + R.NestingPairs(ToPairs(rest)) <= R.MAX_DEPTH
      && ToPairs(entries) == [R.Pair(e.key, ToVal(e.value))] + ToPairs(rest)
      && Affords(purse, 1, |Utf8.Encode(e.key)|)
      && var keyed := Less(purse, 1, |Utf8.Encode(e.key)|);
         Affords(keyed, W.Size(e.value), R.Payload(ToVal(e.value)))
         && var left := Less(keyed, W.Size(e.value), R.Payload(ToVal(e.value)));
            Affords(left, |rest| + W.SizeEntries(rest), R.PayloadPairs(ToPairs(rest)))
            && Less(left, |rest| + W.SizeEntries(rest), R.PayloadPairs(ToPairs(rest)))
              == Less(purse, |entries| + W.SizeEntries(entries), R.PayloadPairs(ToPairs(entries)))
  {
    hide Writable, ToVal, R.Nesting, R.Payload, W.Size, StringFits, Utf8.Encode;
    var ps := ToPairs(entries);
    assert ps[0] == R.Pair(entries[0].key, ToVal(entries[0].value)) && ps[1..] == ToPairs(entries[1..]);
  }

  /** One step of reading a dictionary whose key and value read. */
  lemma EntryReads(d: R.Doc, body: nat, count: nat, k: nat, depth: nat, purse: R.Purse, keyAt: nat, at: nat, e: W.Entry, keyed: R.Purse, left: R.Purse)
    requires k < count && depth <= R.MAX_DEPTH && R.Reference(d, body, k) == Some(keyAt) && R.Reference(d, body, count + k) == Some(at)
    requires R.Object(d, keyAt, depth + 1, purse) == Some((R.Str(e.key), keyed))
    requires R.Object(d, at, depth + 1, keyed) == Some((ToVal(e.value), left))
    ensures R.Entries(d, body, count, k, depth, purse) ==
      match R.Entries(d, body, count, k + 1, depth, left)
      case None => None
      case Some((rest, end)) => Some(([R.Pair(e.key, ToVal(e.value))] + rest, end))
  {
    hide R.Object, R.Reference, ToVal;
  }

  lemma EntryNodes(nodes: seq<W.Node>, entries: seq<W.Entry>, keyBase: nat, base: nat)
    requires entries != [] && Sub(nodes, keyBase, W.KeyNodes(entries)) && Sub(nodes, base, W.FlattenEntries(entries, base))
    ensures keyBase < |nodes| && nodes[keyBase] == W.NodeStr(entries[0].key) && Sub(nodes, keyBase + 1, W.KeyNodes(entries[1..]))
    ensures Sub(nodes, base, W.Flatten(entries[0].value, base))
    ensures Sub(nodes, base + W.Size(entries[0].value), W.FlattenEntries(entries[1..], base + W.Size(entries[0].value)))
  {
    hide W.Flatten, W.Size;
    var e, rest := entries[0], entries[1..];
    SubSplit(nodes, base, W.Flatten(e.value, base), W.FlattenEntries(rest, base + W.Size(e.value)));
    assert W.KeyNodes(entries) == [W.NodeStr(e.key)] + W.KeyNodes(rest);
    SubSplit(nodes, keyBase, [W.NodeStr(e.key)], W.KeyNodes(rest));
  }

  lemma EntryRefs(d: R.Doc, body: nat, count: nat, k: nat, entries: seq<W.Entry>, keyBase: nat, base: nat)
    requires entries != []
    requires RefsAt(d, body, k, W.KeyRefs(|entries|, keyBase)) && RefsAt(d, body, count + k, W.ValueRefs(entries, base))
    ensures R.Reference(d, body, k) == Some(keyBase) && R.Reference(d, body, count + k) == Some(base)
    ensures RefsAt(d, body, k + 1, W.KeyRefs(|entries[1..]|, keyBase + 1))
    ensures RefsAt(d, body, count + (k + 1), W.ValueRefs(entries[1..], base + W.Size(entries[0].value)))
  {
    hide R.Reference, RefsAt, W.Size;
    var ks, vs := W.KeyRefs(|entries|, keyBase), W.ValueRefs(entries, base);
    RefsTail(d, body, k, ks);
    RefsTail(d, body, count + k, vs);
    assert ks[1..] == W.KeyRefs(|entries[1..]|, keyBase + 1);
    assert vs[1..] == W.ValueRefs(entries[1..], base + W.Size(entries[0].value));
    assert count + k + 1 == count + (k + 1);
  }

  // ------------------------------------------------------------------ the whole document ---

  function DocOf(v: W.Value): R.Doc {
    R.Doc(W.Encode(v), W.TableStart(v), W.OffsetSize(v), W.RefSize(v), W.Size(v))
  }

  function TrailerOf(v: W.Value): seq<U8> { W.Trailer(W.OffsetSize(v), W.RefSize(v), W.Size(v), W.TableStart(v)) }

  lemma Layout(v: W.Value)
    ensures At(W.Encode(v), 0, W.MAGIC) && At(W.Encode(v), |W.MAGIC|, W.Objects(v))
    ensures At(W.Encode(v), W.TableStart(v), W.OffsetTable(v))
    ensures |W.Encode(v)| == W.TableStart(v) + W.Size(v) * W.OffsetSize(v) + 32
    ensures W.Encode(v)[|W.Encode(v)| - 32..] == TrailerOf(v)
  {
    hide W.Objects, W.OffsetTable, W.OffsetSize, W.RefSize, W.Trailer, W.Size;
    var a, b, c, d := W.MAGIC, W.Objects(v), W.OffsetTable(v), TrailerOf(v);
    var buf := W.Encode(v);
    assert buf == a + b + c + d;
    TableSize(v);
    FourParts(a, b, c, d);
  }

  lemma TableSize(v: W.Value)
    ensures |W.OffsetTable(v)| == W.Size(v) * W.OffsetSize(v)
  {
    hide W.Table, W.Bodies, W.ByteWidth, W.Flatten, W.Offsets;
    TableLength(W.Offsets(W.Flatten(v, 0), W.RefSize(v), |W.MAGIC|), W.OffsetSize(v));
  }

  lemma FourParts(a: seq<U8>, b: seq<U8>, c: seq<U8>, d: seq<U8>)
    ensures var buf := a + b + c + d;
      At(buf, 0, a) && At(buf, |a|, b) && At(buf, |a| + |b|, c) && buf[|a| + |b| + |c|..] == d
  {
    hide At;
    var buf := a + b + c + d;
    WholeAt(buf);
    AtSplit(buf, 0, a + b + c, d);
    AtSplit(buf, 0, a + b, c);
    AtSplit(buf, 0, a, b);
    Slices(a + b + c, d);
  }

  lemma TrailerBack(offsetSize: nat, refSize: nat, count: nat, tableStart: nat)
    requires offsetSize <= 8 && refSize <= 8 && count < TWO_64 && tableStart < TWO_64
    ensures var t := W.Trailer(offsetSize, refSize, count, tableStart);
      && t[6] == offsetSize && t[7] == refSize
      && FromBigEndian(t[8..16]) == count && FromBigEndian(t[16..24]) == 0 && FromBigEndian(t[24..32]) == tableStart
  {
    hide BigEndian, FromBigEndian;
    R.TrailerNumbers([0, 0, 0, 0, 0, 0, offsetSize, refSize], count, 0, tableStart);
  }

  lemma Widths(v: W.Value)
    requires |W.Encode(v)| < TWO_64
    ensures W.Size(v) < TWO_64 && W.TableStart(v) < TWO_64
    ensures 1 <= W.OffsetSize(v) <= 8 && 1 <= W.RefSize(v) <= 8
    ensures W.TableStart(v) < Pow256(W.OffsetSize(v)) && W.Size(v) < Pow256(W.RefSize(v))
  {
    hide W.Flatten, W.Bodies, W.Table, W.Trailer, Pow256, W.ByteWidth, W.Encode, W.Size;
    Layout(v);
    AtLeastOne(v);
    W.WidthIsLeast(W.TableStart(v) % TWO_64);
    W.WidthIsLeast(W.Size(v) % TWO_64);
  }

  lemma AtLeastOne(v: W.Value)
    ensures W.Size(v) <= W.TableStart(v)
  {
    hide W.Flatten, W.Bodies, W.RefSize;
    BodiesAtLeast(W.Flatten(v, 0), W.RefSize(v));
  }

  lemma {:induction false} BodiesAtLeast(nodes: seq<W.Node>, refSize: nat)
    ensures |nodes| <= |W.Bodies(nodes, refSize)|
  {
    if nodes != [] {
      hide W.Marker, W.Table;
      BodiesAtLeast(nodes[1..], refSize);
    }
  }

  lemma OpenValues(buf: seq<U8>, offsetSize: nat, refSize: nat, count: nat, tableStart: nat)
    requires 1 <= offsetSize <= 8 && 1 <= refSize <= 8 && 1 <= count < TWO_64 && 8 <= tableStart < TWO_64
    requires |buf| == tableStart + count * offsetSize + 32 && At(buf, 0, W.MAGIC)
    requires buf[|buf| - 32..] == W.Trailer(offsetSize, refSize, count, tableStart)
    ensures R.Open(buf) ==
      if count <= R.MAX_ELEMENTS then Some((R.Doc(buf, tableStart, offsetSize, refSize, count), 0)) else None
  {
    hide W.Trailer, FromBigEndian;
    TrailerBack(offsetSize, refSize, count, tableStart);
    assert buf[..8] == W.MAGIC;
    Positive(count, offsetSize);
  }

  lemma Positive(a: nat, b: nat)
    ensures a * b >= 0
  {
  }

  /** The reader accepts the trailer exactly when there are few enough objects. */
  lemma OpenBack(v: W.Value)
    requires |W.Encode(v)| < TWO_64
    ensures R.Open(W.Encode(v)) == if W.Size(v) <= R.MAX_ELEMENTS then Some((DocOf(v), 0)) else None
  {
    hide W.Objects, W.OffsetTable, W.OffsetSize, W.RefSize, W.Trailer, Pow256, W.Encode, W.Size, W.TableStart, R.Open, At;
    Layout(v);
    Widths(v);
    AtLeastEight(v);
    OpenValues(W.Encode(v), W.OffsetSize(v), W.RefSize(v), W.Size(v), W.TableStart(v));
  }

  lemma AtLeastEight(v: W.Value)
    ensures W.TableStart(v) >= 8
  {
    hide W.Objects;
  }

  /** Every object is where the table says, and every width is wide enough. */
  lemma HoldsBack(v: W.Value)
    requires |W.Encode(v)| < TWO_64 && W.Size(v) <= R.MAX_ELEMENTS
    ensures Holds(DocOf(v), W.Flatten(v, 0))
  {
    hide W.ObjectBytes, W.Flatten, W.Bodies, W.Offsets, W.Table, Pow256, At, W.ByteWidth, W.Encode, W.Size;
    Widths(v);
    var nodes, d := W.Flatten(v, 0), DocOf(v);
    forall i | 0 <= i < |nodes| ensures Placed(d, i, W.ObjectBytes(nodes[i], d.refSize)) {
      PlacedBack(v, i);
    }
  }

  lemma PlacedBack(v: W.Value, i: nat)
    requires |W.Encode(v)| < TWO_64 && i < W.Size(v)
    ensures Placed(DocOf(v), i, W.ObjectBytes(W.Flatten(v, 0)[i], W.RefSize(v)))
  {
    hide W.ObjectBytes, W.Flatten, W.Bodies, W.Offsets, W.Table, Pow256, At, W.ByteWidth, W.Encode, FromBigEndian, R.Get, W.RefSize, W.OffsetSize, W.Size;
    Widths(v);
    Layout(v);
    var nodes, buf := W.Flatten(v, 0), W.Encode(v);
    BodiesAt(buf, |W.MAGIC|, nodes, W.RefSize(v), i);
    TableAt(buf, W.TableStart(v), W.Offsets(nodes, W.RefSize(v), |W.MAGIC|), W.OffsetSize(v), i);
  }

  // ---------------------------------------------------------------- budgets and bounds ---

  lemma {:induction false} BodiesAppend(a: seq<W.Node>, b: seq<W.Node>, refSize: nat)
    ensures W.Bodies(a + b, refSize) == W.Bodies(a, refSize) + W.Bodies(b, refSize)
  {
    hide W.ObjectBytes;
    if a == [] {
      assert a + b == b;
    } else {
      assert (a + b)[1..] == a[1..] + b;
      BodiesAppend(a[1..], b, refSize);
    }
  }

  lemma BodiesOne(n: W.Node, refSize: nat)
    ensures W.Bodies([n], refSize) == W.ObjectBytes(n, refSize)
  {
    hide W.ObjectBytes;
    assert [n][1..] == [];
  }

  lemma StringCost(s: string)
    ensures |Utf8.Encode(s)| <= 2 * |W.StringBytes(s)|
  {
    hide W.Marker, W.BytesOf16;
    Utf8.EncodeBounds(s);
    UnitsBack(Utf8.Encode16(s));
  }

  /** Text and data cost at most twice the bytes they are written in, so an encoder's output is never refused. */
  lemma {:induction false} PayloadCost(v: W.Value, base: nat, refSize: nat)
    ensures R.Payload(ToVal(v)) <= 2 * |W.Bodies(W.Flatten(v, base), refSize)|
    decreases v
  {
    hide W.Marker, W.Table, W.StringBytes, Utf8.Encode, W.FlattenAll, W.FlattenEntries, W.Refs, W.ValueRefs, W.Bodies, W.SizeAll, W.SizeEntries;
    BodiesOne(W.Flatten(v, base)[0], refSize);
    match v
    case Str(s) => StringCost(s);
    case Data(_) =>
    case Bool(_) =>
    case Array(items) =>
      PayloadCostAll(items, base + 1, refSize);
      BodiesAppend([W.Flatten(v, base)[0]], W.FlattenAll(items, base + 1), refSize);
    case Dict(entries) =>
      var n := |entries|;
      PayloadCostEntries(entries, base + 1 + n, refSize);
      var head := [W.Flatten(v, base)[0]];
      BodiesAppend(head, W.KeyNodes(entries), refSize);
      BodiesAppend(head + W.KeyNodes(entries), W.FlattenEntries(entries, base + 1 + n), refSize);
  }

  lemma {:induction false} PayloadCostAll(items: seq<W.Value>, base: nat, refSize: nat)
    ensures R.PayloadAll(ToVals(items)) <= 2 * |W.Bodies(W.FlattenAll(items, base), refSize)|
    decreases items
  {
    hide W.Flatten, W.Bodies, ToVal, R.Payload, W.Size;
    if items != [] {
      var next := base + W.Size(items[0]);
      assert ToVals(items)[1..] == ToVals(items[1..]);
      PayloadCost(items[0], base, refSize);
      PayloadCostAll(items[1..], next, refSize);
      BodiesAppend(W.Flatten(items[0], base), W.FlattenAll(items[1..], next), refSize);
    }
  }

  lemma {:induction false} PayloadCostEntries(entries: seq<W.Entry>, base: nat, refSize: nat)
    ensures R.PayloadPairs(ToPairs(entries)) <=
      2 * |W.Bodies(W.KeyNodes(entries), refSize)| + 2 * |W.Bodies(W.FlattenEntries(entries, base), refSize)|
    decreases entries
  {
    hide W.Flatten, W.Bodies, ToVal, R.Payload, W.Size, W.StringBytes, Utf8.Encode;
    if entries != [] {
      var e, rest := entries[0], entries[1..];
      var next := base + W.Size(e.value);
      assert ToPairs(entries)[1..] == ToPairs(rest);
      PayloadCost(e.value, base, refSize);
      PayloadCostEntries(rest, next, refSize);
      StringCost(e.key);
      assert W.KeyNodes(entries) == [W.NodeStr(e.key)] + W.KeyNodes(rest);
      BodiesOne(W.NodeStr(e.key), refSize);
      BodiesAppend([W.NodeStr(e.key)], W.KeyNodes(rest), refSize);
      BodiesAppend(W.Flatten(e.value, base), W.FlattenEntries(rest, next), refSize);
    }
  }

  // ---------------------------------------------------------- lengths past four bytes ---

  /** A length past four bytes reads back as its low four. */
  lemma CutMarker(d: R.Doc, at: nat, kind: U8, len: nat)
    requires len >= TWO_32 && kind % 16 == 0 && kind <= 0xF0 && At(d.buf, at, W.Marker(kind, len))
    ensures at < |d.buf| && d.buf[at] / 16 == kind / 16
    ensures R.Sized(d, at, d.buf[at] % 16) == Some((len % TWO_32, at + |W.Marker(kind, len)|))
  {
    hide FromBigEndian, BigEndian, R.Shift, W.Marker, At;
    ShiftValues();
    CutBigEndian(len);
    LongMarker(kind, len);
    var first: U8 := kind + 0x0F;
    AtSplit(d.buf, at, [first, 0x12], BigEndian(len, 4));
    assert [first, 0x12] == [first] + [0x12];
    AtGet(d.buf, at + 2, BigEndian(len, 4));
    AtSplit(d.buf, at, [first], [0x12]);
    AtGet(d.buf, at, [first]);
    AtGet(d.buf, at + 1, [0x12]);
  }

  lemma LongMarker(kind: U8, len: nat)
    requires len >= TWO_32 && kind <= 0xF0
    ensures W.Marker(kind, len) == [kind + 0x0F, 0x12] + BigEndian(len, 4)
  {
    assert [kind + 0x0F] + ([0x12] + BigEndian(len, 4)) == [kind + 0x0F, 0x12] + BigEndian(len, 4);
  }

  lemma CutBigEndian(len: nat)
    ensures FromBigEndian(BigEndian(len, 4)) == len % TWO_32
  {
    hide FromBigEndian, BigEndian;
    var a := len / 256;
    var b := a / 256;
    var c := b / 256;
    FourDigits(c / 256, c % 256, b % 256, a % 256, len % 256);
  }

  lemma FourDigits(e: nat, w: U8, x: U8, y: U8, z: U8)
    ensures var len := (((e * 256 + w) * 256 + x) * 256 + y) * 256 + z; FromBigEndian(BigEndian(len, 4)) == len % TWO_32
  {
    hide FromBigEndian, BigEndian;
    FourWritten(e, w, x, y, z);
    FourRead(w, x, y, z);
    FourKept(e, ((w * 256 + x) * 256 + y) * 256 + z);
  }

  lemma FourKept(e: nat, low: nat)
    requires low < TWO_32
    ensures (e * TWO_32 + low) % TWO_32 == low
  {
  }

  lemma FourWritten(e: nat, w: U8, x: U8, y: U8, z: U8)
    ensures BigEndian((((e * 256 + w) * 256 + x) * 256 + y) * 256 + z, 4) == [] + [w] + [x] + [y] + [z]
  {
    hide BigEndian;
    var c := e * 256 + w;
    var b := c * 256 + x;
    var a := b * 256 + y;
    WriteMore(a, z, 3);
    WriteMore(b, y, 2);
    WriteMore(c, x, 1);
    WriteMore(e, w, 0);
    Nothing(e);
  }

  lemma FourRead(w: U8, x: U8, y: U8, z: U8)
    ensures FromBigEndian([] + [w] + [x] + [y] + [z]) == ((w * 256 + x) * 256 + y) * 256 + z
  {
    hide FromBigEndian;
    Nothing(0);
    FoldMore([], 0, w);
    FoldMore([] + [w], w, x);
    FoldMore([] + [w] + [x], w * 256 + x, y);
    FoldMore([] + [w] + [x] + [y], (w * 256 + x) * 256 + y, z);
  }

  lemma Nothing(v: nat)
    ensures BigEndian(v, 0) == [] && FromBigEndian([]) == 0
  {
  }

  lemma WriteMore(q: nat, r: U8, width: nat)
    ensures BigEndian(q * 256 + r, width + 1) == BigEndian(q, width) + [r]
  {
    var v := q * 256 + r;
    assert v / 256 == q && v % 256 == r;
    assert BigEndian(v, width + 1) == BigEndian(v / 256, width) + [v % 256];
  }

  lemma FoldMore(b: seq<U8>, v: nat, x: U8)
    requires FromBigEndian(b) == v && v < 0x100_0000
    ensures FromBigEndian(b + [x]) == v * 256 + x
  {
    assert (b + [x])[..|b|] == b;
  }

  // ------------------------------------------------ what reads back was within lengths ---

  lemma {:induction false} UnitsCount(raw: seq<U8>)
    ensures |R.UnitsOf(raw)| == |raw| / 2
    decreases |raw|
  {
    if |raw| >= 2 {
      UnitsCount(raw[2..]);
    }
  }

  /** Text whose length does not fit is read as shorter text, if it is read at all. */
  lemma UnfitText(d: R.Doc, at: nat, s: string, purse: R.Purse)
    requires At(d.buf, at, W.StringBytes(s)) && !StringFits(s)
    ensures at < |d.buf| && !R.IsContainer(d.buf[at])
    ensures R.Leaf(d, at, purse).Some? ==> R.Leaf(d, at, purse).value.0.Str? && R.Leaf(d, at, purse).value.0.s != s
  {
    hide Utf8.Ascii, Utf8.Encode, Utf8.Encode16, Utf8.Lossy, Utf8.Lossy16, W.BytesOf16, W.Marker, R.Sized, R.UnitsOf, At;
    if Utf8.Ascii(s) {
      var body := Utf8.Encode(s);
      AtSplit(d.buf, at, W.Marker(0x50, |body|), body);
      CutMarker(d, at, 0x50, |body|);
      Utf8.AsciiLength(s);
      UnfitAscii(d, at, s, purse);
    } else {
      var units := Utf8.Encode16(s);
      AtSplit(d.buf, at, W.Marker(0x60, |units|), W.BytesOf16(units));
      CutMarker(d, at, 0x60, |units|);
      UnfitWide(d, at, s, purse);
    }
  }

  lemma UnfitAscii(d: R.Doc, at: nat, s: string, purse: R.Purse)
    requires at < |d.buf| && d.buf[at] / 16 == 0x5
    requires R.Sized(d, at, d.buf[at] % 16).Some? && R.Sized(d, at, d.buf[at] % 16).value.0 < |s|
    ensures R.Leaf(d, at, purse).Some? ==> R.Leaf(d, at, purse).value.0.Str? && R.Leaf(d, at, purse).value.0.s != s
  {
    hide Utf8.Encode, Utf8.Lossy, Utf8.Lossy16, R.Sized, R.UnitsOf;
    var (len, body) := R.Sized(d, at, d.buf[at] % 16).value;
    var raw := R.Get(d.buf, body, body + len);
    if raw.Some? {
      Utf8.LossyShrinks(raw.value);
    }
  }

  lemma UnfitWide(d: R.Doc, at: nat, s: string, purse: R.Purse)
    requires at < |d.buf| && d.buf[at] / 16 == 0x6
    requires R.Sized(d, at, d.buf[at] % 16).Some? && R.Sized(d, at, d.buf[at] % 16).value.0 < |Utf8.Encode16(s)|
    ensures R.Leaf(d, at, purse).Some? ==> R.Leaf(d, at, purse).value.0.Str? && R.Leaf(d, at, purse).value.0.s != s
  {
    hide Utf8.Encode, Utf8.Encode16, Utf8.Lossy, Utf8.Lossy16, R.Sized, R.UnitsOf;
    var (units, body) := R.Sized(d, at, d.buf[at] % 16).value;
    var raw := R.Get(d.buf, body, body + 2 * units);
    if raw.Some? {
      UnitsCount(raw.value);
      Utf8.Lossy16Shrinks(R.UnitsOf(raw.value));
    }
  }

  lemma UnfitData(d: R.Doc, at: nat, data: seq<U8>, purse: R.Purse)
    requires At(d.buf, at, W.Marker(0x40, |data|) + data) && |data| >= TWO_32
    ensures at < |d.buf| && !R.IsContainer(d.buf[at])
    ensures R.Leaf(d, at, purse).Some? ==> R.Leaf(d, at, purse).value.0 != R.Data(data)
  {
    hide W.Marker, R.Sized, At;
    AtSplit(d.buf, at, W.Marker(0x40, |data|), data);
    CutMarker(d, at, 0x40, |data|);
  }

  /** An object read for a text node is text, and if it is the node's text then its length fits. */
  lemma TextWritable(d: R.Doc, nodes: seq<W.Node>, i: nat, s: string, depth: nat, purse: R.Purse)
    requires Holds(d, nodes) && i < |nodes| && nodes[i] == W.NodeStr(s) && R.Object(d, i, depth, purse).Some?
    ensures R.Object(d, i, depth, purse).value.0.Str?
    ensures R.Object(d, i, depth, purse).value.0 == R.Str(s) ==> StringFits(s)
  {
    hide W.StringBytes, R.Leaf, R.OffsetOf, At, StringFits;
    assert Placed(d, i, W.ObjectBytes(nodes[i], d.refSize));
    var at, spent := R.OffsetOf(d, i).value, purse.(objects := purse.objects - 1);
    if StringFits(s) {
      FitText(d, at, s, spent);
    } else {
      UnfitText(d, at, s, spent);
    }
  }

  lemma FitText(d: R.Doc, at: nat, s: string, purse: R.Purse)
    requires At(d.buf, at, W.StringBytes(s)) && StringFits(s)
    ensures at < |d.buf| && !R.IsContainer(d.buf[at])
    ensures R.Leaf(d, at, purse).Some? ==> R.Leaf(d, at, purse).value.0.Str?
  {
    hide Utf8.Encode, Utf8.Encode16, Utf8.Lossy, Utf8.Lossy16, R.UnitsOf, W.StringBytes, R.Sized, At, Utf8.Ascii;
    if Utf8.Ascii(s) {
      AsciiBack(d, at, s);
    } else {
      WideBack(d, at, s);
    }
  }

  lemma DataWritable(d: R.Doc, nodes: seq<W.Node>, i: nat, data: seq<U8>, depth: nat, purse: R.Purse)
    requires Holds(d, nodes) && i < |nodes| && nodes[i] == W.NodeData(data)
    requires R.Object(d, i, depth, purse).Some? && R.Object(d, i, depth, purse).value.0 == R.Data(data)
    ensures |data| < TWO_32
  {
    hide W.Marker, R.Leaf, R.OffsetOf, At;
    assert Placed(d, i, W.ObjectBytes(nodes[i], d.refSize));
    if |data| >= TWO_32 {
      UnfitData(d, R.OffsetOf(d, i).value, data, purse.(objects := purse.objects - 1));
    }
  }

  ghost predicate ReadsAs(r: Option<(R.Val, R.Purse)>, v: W.Value) { r.Some? && r.value.0 == ToVal(v) }

  ghost predicate ItemsRead(r: Option<(seq<R.Val>, R.Purse)>, items: seq<W.Value>) { r.Some? && r.value.0 == ToVals(items) }

  ghost predicate EntriesRead(r: Option<(seq<R.Pair>, R.Purse)>, entries: seq<W.Entry>) { r.Some? && r.value.0 == ToPairs(entries) }

  /** A subtree that reads back as it was holds nothing too long. */
  lemma {:induction false} ObjectWritable(d: R.Doc, nodes: seq<W.Node>, i: nat, v: W.Value, depth: nat, purse: R.Purse)
    requires Holds(d, nodes) && Sub(nodes, i, W.Flatten(v, i)) && ReadsAs(R.Object(d, i, depth, purse), v)
    ensures Writable(v)
    decreases v
  {
    hide Holds, R.Object, ToVals, ToPairs, W.FlattenAll, W.FlattenEntries;
    assert nodes[i] == W.Flatten(v, i)[0];
    match v
    case Str(s) => TextWritable(d, nodes, i, s, depth, purse);
    case Data(data) => DataWritable(d, nodes, i, data, depth, purse);
    case Bool(_) =>
    case Array(items) => ArrayWritable(d, nodes, i, items, depth, purse);
    case Dict(entries) => DictWritable(d, nodes, i, entries, depth, purse);
  }

  lemma ObjectEntered(d: R.Doc, i: nat, depth: nat, purse: R.Purse, v: W.Value)
    requires ReadsAs(R.Object(d, i, depth, purse), v)
    ensures depth <= R.MAX_DEPTH && purse.objects > 0
  {
  }

  lemma {:induction false} ArrayWritable(d: R.Doc, nodes: seq<W.Node>, i: nat, items: seq<W.Value>, depth: nat, purse: R.Purse)
    requires Holds(d, nodes) && Sub(nodes, i, W.Flatten(W.Array(items), i)) && ReadsAs(R.Object(d, i, depth, purse), W.Array(items))
    ensures AllWritable(items)
    decreases items, 1
  {
    hide *;
    ObjectEntered(d, i, depth, purse, W.Array(items));
    var spent := purse.(objects := purse.objects - 1);
    var rs := W.Refs(items, i + 1);
    ArrayNodes(nodes, i, items);
    HoldsFew(d, nodes);
    CountBelow(items);
    var body := ArrayHead(d, nodes, i, rs);
    ArrayReads(d, i, body, rs, depth, purse);
    ArrayRefs(d, i, body, rs);
    ArrayIs(R.Object(d, i, depth, purse), R.Items(d, body, |items|, 0, depth, spent), items);
    ItemsWritable(d, nodes, items, i + 1, body, |items|, 0, depth, spent);
  }

  lemma ArrayIs(r: Option<(R.Val, R.Purse)>, of: Option<(seq<R.Val>, R.Purse)>, items: seq<W.Value>)
    requires ReadsAs(r, W.Array(items)) && r == match of case None => None case Some((vals, left)) => Some((R.Array(vals), left))
    ensures ItemsRead(of, items)
  {
  }

  lemma DictIs(r: Option<(R.Val, R.Purse)>, of: Option<(seq<R.Pair>, R.Purse)>, entries: seq<W.Entry>)
    requires ReadsAs(r, W.Dict(entries)) && r == match of case None => None case Some((pairs, left)) => Some((R.Dict(pairs), left))
    ensures EntriesRead(of, entries)
  {
  }

  lemma {:induction false} ItemsWritable(d: R.Doc, nodes: seq<W.Node>, items: seq<W.Value>, base: nat, body: nat, count: nat, k: nat, depth: nat, purse: R.Purse)
    requires Holds(d, nodes) && Sub(nodes, base, W.FlattenAll(items, base)) && count == k + |items|
    requires RefsAt(d, body, k, W.Refs(items, base)) && depth <= R.MAX_DEPTH
    requires ItemsRead(R.Items(d, body, count, k, depth, purse), items)
    ensures AllWritable(items)
    decreases items, 0
  {
    hide Holds, R.Object, R.Reference, W.Flatten, Writable, ToVal, W.Size, RefsAt;
    if items != [] {
      var v, rest := items[0], items[1..];
      var next := base + W.Size(v);
      var vs, rs := ToVals(items), W.Refs(items, base);
      assert vs[0] == ToVal(v) && vs[1..] == ToVals(rest);
      assert rs[0] == base && rs[1..] == W.Refs(rest, next);
      SubSplit(nodes, base, W.Flatten(v, base), W.FlattenAll(rest, next));
      RefsTail(d, body, k, rs);
      var (first, left) := R.Object(d, base, depth + 1, purse).value;
      var more := R.Items(d, body, count, k + 1, depth, left).value.0;
      assert vs == [first] + more && ([first] + more)[1..] == more;
      ObjectWritable(d, nodes, base, v, depth + 1, purse);
      ItemsWritable(d, nodes, rest, next, body, count, k + 1, depth, left);
    }
  }

  lemma {:induction false} DictWritable(d: R.Doc, nodes: seq<W.Node>, i: nat, entries: seq<W.Entry>, depth: nat, purse: R.Purse)
    requires Holds(d, nodes) && Sub(nodes, i, W.Flatten(W.Dict(entries), i)) && ReadsAs(R.Object(d, i, depth, purse), W.Dict(entries))
    ensures EntriesWritable(entries)
    decreases entries, 1
  {
    hide *;
    ObjectEntered(d, i, depth, purse, W.Dict(entries));
    var spent := purse.(objects := purse.objects - 1);
    var n := |entries|;
    var ks, vs := W.KeyRefs(n, i + 1), W.ValueRefs(entries, i + 1 + n);
    DictNodes(nodes, i, entries, n, ks, vs);
    HoldsFew(d, nodes);
    var body := DictHead(d, nodes, i, ks, vs);
    DictReads(d, i, body, ks, vs, depth, purse);
    DictRefs(d, i, body, ks, vs);
    DictIs(R.Object(d, i, depth, purse), R.Entries(d, body, n, 0, depth, spent), entries);
    EntriesAreWritable(d, nodes, entries, i + 1, i + 1 + n, body, n, 0, depth, spent);
  }

  lemma {:induction false} EntriesAreWritable(
      d: R.Doc, nodes: seq<W.Node>, entries: seq<W.Entry>, keyBase: nat, base: nat, body: nat, count: nat, k: nat, depth: nat, purse: R.Purse)
    requires Holds(d, nodes) && count == k + |entries| && depth <= R.MAX_DEPTH
    requires Sub(nodes, keyBase, W.KeyNodes(entries)) && Sub(nodes, base, W.FlattenEntries(entries, base))
    requires RefsAt(d, body, k, W.KeyRefs(|entries|, keyBase)) && RefsAt(d, body, count + k, W.ValueRefs(entries, base))
    requires EntriesRead(R.Entries(d, body, count, k, depth, purse), entries)
    ensures EntriesWritable(entries)
    decreases entries, 0
  {
    hide Holds, R.Object, R.Reference, W.Flatten, Writable, ToVal, W.Size, StringFits, RefsAt;
    if entries != [] {
      var e, rest := entries[0], entries[1..];
      var next := base + W.Size(e.value);
      var ps := ToPairs(entries);
      assert ps[0] == R.Pair(e.key, ToVal(e.value)) && ps[1..] == ToPairs(rest);
      EntryNodes(nodes, entries, keyBase, base);
      EntryRefs(d, body, count, k, entries, keyBase, base);
      TextWritable(d, nodes, keyBase, e.key, depth + 1, purse);
      var (key, keyed) := R.Object(d, keyBase, depth + 1, purse).value;
      var (v, left) := R.Object(d, base, depth + 1, keyed).value;
      var more := R.Entries(d, body, count, k + 1, depth, left).value.0;
      assert ps == [R.Pair(key.s, v)] + more && ([R.Pair(key.s, v)] + more)[1..] == more;
      ObjectWritable(d, nodes, base, e.value, depth + 1, keyed);
      EntriesAreWritable(d, nodes, rest, keyBase + 1, next, body, count, k + 1, depth, left);
    }
  }

  // -------------------------------------------------------------------------- theorems ---

  lemma ReadsBack(v: W.Value)
    requires Writable(v) && |W.Encode(v)| < TWO_64 && W.Size(v) <= R.MAX_ELEMENTS && R.Nesting(ToVal(v)) <= R.MAX_DEPTH
    ensures R.Parse(W.Encode(v)) == Some(ToVal(v))
  {
    hide W.Flatten, W.Bodies, W.Table, W.Encode, W.Size, Holds, R.Object, R.Open, Writable, R.Payload, ToVal;
    OpenBack(v);
    HoldsBack(v);
    Layout(v);
    PayloadCost(v, 0, W.RefSize(v));
    var nodes := W.Flatten(v, 0);
    ObjectBack(DocOf(v), nodes, 0, v, 0, R.Purse(R.MAX_TOTAL_OBJECTS, R.ByteBudget(|W.Encode(v)|)));
  }

  /**
    What was written reads back as the same tree, order and duplicate keys kept, exactly when
    every text, key and data length is under 2^32, and there are at most 4096 objects and at
    most 16 levels. The budgets never come into it.
   */
  lemma RoundTrip(v: W.Value)
    requires |W.Encode(v)| < TWO_64
    ensures R.Parse(W.Encode(v)) == Some(ToVal(v)) <==>
      Writable(v) && W.Size(v) <= R.MAX_ELEMENTS && R.Nesting(ToVal(v)) <= R.MAX_DEPTH
  {
    hide W.Encode, W.Size, R.Object, R.Open, Writable, ToVal, R.Nesting, W.Flatten, Holds;
    OpenBack(v);
    if Writable(v) && W.Size(v) <= R.MAX_ELEMENTS && R.Nesting(ToVal(v)) <= R.MAX_DEPTH {
      ReadsBack(v);
    } else if R.Parse(W.Encode(v)) == Some(ToVal(v)) {
      R.ParseBounded(W.Encode(v));
      HoldsBack(v);
      var nodes := W.Flatten(v, 0);
      assert nodes[0..0 + |nodes|] == nodes;
      ObjectWritable(DocOf(v), nodes, 0, v, 0, R.Purse(R.MAX_TOTAL_OBJECTS, R.ByteBudget(|W.Encode(v)|)));
    }
  }

  // A document of so few objects always fits in memory's address space.

  predicate NodeFits(n: W.Node) {
    match n
    case NodeStr(s) => StringFits(s)
    case NodeData(d) => |d| < TWO_32
    case NodeBool(_) => true
    case NodeArray(children) => |children| <= R.MAX_ELEMENTS
    case NodeDict(keys, values) => |keys| <= R.MAX_ELEMENTS && |values| <= R.MAX_ELEMENTS
  }

  predicate AllFit(nodes: seq<W.Node>) { forall k :: 0 <= k < |nodes| ==> NodeFits(nodes[k]) }

  lemma AllFitAppend(a: seq<W.Node>, b: seq<W.Node>)
    requires AllFit(a) && AllFit(b)
    ensures AllFit(a + b)
  {
    hide NodeFits;
  }

  lemma {:induction false} CountBelowEntries(entries: seq<W.Entry>)
    ensures |entries| <= W.SizeEntries(entries)
  {
    if entries != [] {
      CountBelowEntries(entries[1..]);
    }
  }

  lemma {:induction false} FlattenFits(v: W.Value, base: nat)
    requires Writable(v) && W.Size(v) <= R.MAX_ELEMENTS
    ensures AllFit(W.Flatten(v, base))
    decreases v
  {
    hide W.FlattenAll, W.FlattenEntries, W.Refs, W.ValueRefs, W.SizeAll, W.SizeEntries, StringFits;
    match v
    case Str(_) =>
    case Data(_) =>
    case Bool(_) =>
    case Array(items) =>
      CountBelow(items);
      FlattenAllFits(items, base + 1);
      AllFitAppend([W.Flatten(v, base)[0]], W.FlattenAll(items, base + 1));
    case Dict(entries) =>
      var n := |entries|;
      FlattenEntriesFit(entries, base + 1 + n);
      var head := [W.Flatten(v, base)[0]];
      AllFitAppend(head, W.KeyNodes(entries));
      AllFitAppend(head + W.KeyNodes(entries), W.FlattenEntries(entries, base + 1 + n));
  }

  lemma {:induction false} FlattenAllFits(items: seq<W.Value>, base: nat)
    requires AllWritable(items) && W.SizeAll(items) <= R.MAX_ELEMENTS
    ensures AllFit(W.FlattenAll(items, base))
    decreases items
  {
    hide W.Flatten, W.Size, Writable, AllFit;
    if items != [] {
      FlattenFits(items[0], base);
      FlattenAllFits(items[1..], base + W.Size(items[0]));
      AllFitAppend(W.Flatten(items[0], base), W.FlattenAll(items[1..], base + W.Size(items[0])));
    } else {
      NoneFit();
    }
  }

  lemma NoneFit()
    ensures AllFit([])
  {
  }

  lemma {:induction false} FlattenEntriesFit(entries: seq<W.Entry>, base: nat)
    requires EntriesWritable(entries) && W.SizeEntries(entries) <= R.MAX_ELEMENTS
    ensures AllFit(W.FlattenEntries(entries, base)) && AllFit(W.KeyNodes(entries))
    decreases entries
  {
    hide W.Flatten, W.Size, Writable, StringFits;
    if entries != [] {
      var e, rest := entries[0], entries[1..];
      FlattenFits(e.value, base);
      FlattenEntriesFit(rest, base + W.Size(e.value));
      AllFitAppend(W.Flatten(e.value, base), W.FlattenEntries(rest, base + W.Size(e.value)));
      assert W.KeyNodes(entries) == [W.NodeStr(e.key)] + W.KeyNodes(rest);
    }
  }

  lemma StringLength(s: string)
    requires StringFits(s)
    ensures |W.StringBytes(s)| <= 0x3_0000_0000
  {
    hide W.Marker, W.BytesOf16, Utf8.Encode, Utf8.Encode16;
    UnitsBack(Utf8.Encode16(s));
  }

  lemma ShortTable(rs: seq<nat>, width: nat)
    requires |rs| <= R.MAX_ELEMENTS && width <= 8
    ensures |W.Table(rs, width)| <= 8 * R.MAX_ELEMENTS
  {
    TableLength(rs, width);
  }

  lemma ObjectLength(n: W.Node, refSize: nat)
    requires NodeFits(n) && refSize <= 8
    ensures |W.ObjectBytes(n, refSize)| <= 0x4_0000_0000
  {
    hide W.Marker, W.Table, W.StringBytes, StringFits;
    match n
    case NodeStr(s) => StringLength(s);
    case NodeData(_) =>
    case NodeBool(_) =>
    case NodeArray(children) => ShortTable(children, refSize);
    case NodeDict(keys, values) =>
      ShortTable(keys, refSize);
      ShortTable(values, refSize);
  }

  lemma {:induction false} BodiesLength(nodes: seq<W.Node>, refSize: nat)
    requires AllFit(nodes) && refSize <= 8
    ensures |W.Bodies(nodes, refSize)| <= |nodes| * 0x4_0000_0000
  {
    hide W.ObjectBytes, NodeFits;
    if nodes != [] {
      ObjectLength(nodes[0], refSize);
      BodiesLength(nodes[1..], refSize);
    }
  }

  lemma EncodeFits(v: W.Value)
    requires Writable(v) && W.Size(v) <= R.MAX_ELEMENTS
    ensures |W.Encode(v)| < TWO_64
  {
    hide W.Flatten, W.Bodies, W.Table, AllFit, Writable, W.Encode, W.Size;
    Layout(v);
    FlattenFits(v, 0);
    BodiesLength(W.Flatten(v, 0), W.RefSize(v));
    Product(W.Size(v), W.OffsetSize(v));
  }

  lemma Product(n: nat, w: nat)
    requires n <= R.MAX_ELEMENTS && w <= 8
    ensures n * w <= 8 * R.MAX_ELEMENTS
  {
  }

  /** Every tree of at most 4096 objects, at most 16 levels and lengths under 2^32 comes back as it was. */
  lemma EveryTreeReturns(v: W.Value)
    requires Writable(v) && W.Size(v) <= R.MAX_ELEMENTS && R.Nesting(ToVal(v)) <= R.MAX_DEPTH
    ensures R.Parse(W.Encode(v)) == Some(ToVal(v))
  {
    hide *;
    EncodeFits(v);
    ReadsBack(v);
  }

  /** What becomes of a length past 2^32: its top is lost, and only the start of the data comes back. */
  lemma LongDataIsCut(data: seq<U8>)
    requires TWO_32 <= |data| && |W.Encode(W.Data(data))| < TWO_64
    ensures R.Parse(W.Encode(W.Data(data))) == Some(R.Data(data[..|data| % TWO_32]))
  {
    hide W.Flatten, W.Bodies, W.Table, W.Encode, W.Size, W.ObjectBytes, Holds, R.Object, R.Open, R.Leaf, Placed;
    var v := W.Data(data);
    OneObject(data);
    OpenBack(v);
    PlacedBack(v, 0);
    CutObject(DocOf(v), data, R.Purse(R.MAX_TOTAL_OBJECTS, R.ByteBudget(|W.Encode(v)|)));
  }

  lemma OneObject(data: seq<U8>)
    ensures W.Size(W.Data(data)) == 1 && W.Flatten(W.Data(data), 0) == [W.NodeData(data)]
  {
  }

  lemma CutObject(d: R.Doc, data: seq<U8>, purse: R.Purse)
    requires |data| >= TWO_32 && Placed(d, 0, W.ObjectBytes(W.NodeData(data), d.refSize)) && purse.objects > 0
    requires |d.buf| <= purse.bytes
    ensures R.Object(d, 0, 0, purse).Some? && R.Object(d, 0, 0, purse).value.0 == R.Data(data[..|data| % TWO_32])
  {
    hide R.OffsetOf, R.Leaf, W.Marker, At;
    CutLeaf(d, R.OffsetOf(d, 0).value, data, purse.(objects := purse.objects - 1));
  }

  lemma CutLeaf(d: R.Doc, at: nat, data: seq<U8>, purse: R.Purse)
    requires |data| >= TWO_32 && At(d.buf, at, W.Marker(0x40, |data|) + data) && |d.buf| <= purse.bytes
    ensures at < |d.buf| && !R.IsContainer(d.buf[at])
    ensures R.Leaf(d, at, purse).Some? && R.Leaf(d, at, purse).value.0 == R.Data(data[..|data| % TWO_32])
  {
    hide W.Marker, R.Sized, At;
    var m, kept, lost := W.Marker(0x40, |data|), data[..|data| % TWO_32], data[|data| % TWO_32..];
    AtSplit(d.buf, at, m, data);
    CutMarker(d, at, 0x40, |data|);
    assert data == kept + lost;
    AtSplit(d.buf, at + |m|, kept, lost);
    AtGet(d.buf, at + |m|, kept);
  }
}
