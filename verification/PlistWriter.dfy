/** The binary plist writer: number every value in a first pass, write objects and their offsets in a second. */
module PlistWriter {
  import opened Bytes
  import Utf8

  datatype Value =
    | Str(s: string)
    | Data(d: seq<U8>)
    | Bool(b: bool)
    | Array(items: seq<Value>)
    | Dict(entries: seq<Entry>)

  datatype Entry = Entry(key: string, value: Value)

  /** One entry of the flat object list: a container names its children by their places in it. */
  datatype Node =
    | NodeStr(s: string)
    | NodeData(d: seq<U8>)
    | NodeBool(b: bool)
    | NodeArray(children: seq<nat>)
    | NodeDict(keys: seq<nat>, values: seq<nat>)

  const MAGIC: seq<U8> := [0x62, 0x70, 0x6C, 0x69, 0x73, 0x74, 0x30, 0x30]

  // --------------------------------------------------------------------- numbering ---

  /** How many objects a value becomes; the keys of a dictionary are counted apart. */
  function Size(v: Value): (n: nat)
    ensures n >= 1
  {
    match v
    case Array(items) => 1 + SizeAll(items)
    case Dict(entries) => 1 + |entries| + SizeEntries(entries)
    case _ => 1
  }

  function SizeAll(items: seq<Value>): nat {
    if items == [] then 0 else Size(items[0]) + SizeAll(items[1..])
  }

  function SizeEntries(entries: seq<Entry>): nat {
    if entries == [] then 0 else Size(entries[0].value) + SizeEntries(entries[1..])
  }

  /** The indices of consecutive subtrees, the first of them at `base`. */
  function Refs(items: seq<Value>, base: nat): (r: seq<nat>)
    ensures |r| == |items|
  {
    if items == [] then [] else [base] + Refs(items[1..], base + Size(items[0]))
  }

  function ValueRefs(entries: seq<Entry>, base: nat): (r: seq<nat>)
    ensures |r| == |entries|
  {
    if entries == [] then [] else [base] + ValueRefs(entries[1..], base + Size(entries[0].value))
  }

  function KeyRefs(n: nat, base: nat): (r: seq<nat>)
    ensures |r| == n
  {
    seq(n, i => base + i)
  }

  function KeyNodes(entries: seq<Entry>): (r: seq<Node>)
    ensures |r| == |entries|
  {
    seq(|entries|, i requires 0 <= i < |entries| => NodeStr(entries[i].key))
  }

  /** The objects of the tree rooted at index `base`: the container first, then its children in order. */
  function Flatten(v: Value, base: nat): (nodes: seq<Node>)
    ensures |nodes| == Size(v)
  {
    match v
    case Str(s) => [NodeStr(s)]
    case Data(d) => [NodeData(d)]
    case Bool(b) => [NodeBool(b)]
    case Array(items) => [NodeArray(Refs(items, base + 1))] + FlattenAll(items, base + 1)
    case Dict(entries) =>
      [NodeDict(KeyRefs(|entries|, base + 1), ValueRefs(entries, base + 1 + |entries|))]
      + KeyNodes(entries) + FlattenEntries(entries, base + 1 + |entries|)
  }

  function FlattenAll(items: seq<Value>, base: nat): (nodes: seq<Node>)
    ensures |nodes| == SizeAll(items)
  {
    if items == [] then [] else Flatten(items[0], base) + FlattenAll(items[1..], base + Size(items[0]))
  }

  function FlattenEntries(entries: seq<Entry>, base: nat): (nodes: seq<Node>)
    ensures |nodes| == SizeEntries(entries)
  {
    if entries == [] then []
    else Flatten(entries[0].value, base) + FlattenEntries(entries[1..], base + Size(entries[0].value))
  }

  // ------------------------------------------------------------------------- bytes ---

  function ByteWidth(max: U64): (w: nat)
    ensures w == 1 || w == 2 || w == 4 || w == 8
  {
    if max <= 0xFF then 1 else if max <= 0xFFFF then 2 else if max <= 0xFFFF_FFFF then 4 else 8
  }

  /** The least of the four widths that holds the number. */
  lemma WidthIsLeast(max: U64)
    ensures max < Pow256(ByteWidth(max))
    ensures forall w :: w in {1, 2, 4, 8} && w < ByteWidth(max) ==> Pow256(w) <= max
  {
    hide Pow256;
    Pow256Values();
  }

  /** An integer object used as a length. Four bytes at most: a longer length loses its top. */
  function IntObject(v: nat): (b: seq<U8>)
    ensures |b| <= 5
  {
    if v <= 0xFF then [0x10] + BigEndian(v, 1)
    else if v <= 0xFFFF then [0x11] + BigEndian(v, 2)
    else [0x12] + BigEndian(v, 4)
  }

  function Marker(kind: U8, len: nat): (b: seq<U8>)
    requires kind <= 0xF0
    ensures 1 <= |b| <= 6
  {
    if len < 0x0F then [kind + len] else [kind + 0x0F] + IntObject(len)
  }

  /** Fixed-width integers one after another: reference lists and the offset table. */
  function Table(rs: seq<nat>, width: nat): seq<U8> {
    if rs == [] then [] else BigEndian(rs[0], width) + Table(rs[1..], width)
  }

  function BytesOf16(units: seq<U16>): seq<U8> {
    if units == [] then [] else [units[0] / 256, units[0] % 256] + BytesOf16(units[1..])
  }

  function StringBytes(s: string): seq<U8> {
    if Utf8.Ascii(s) then Marker(0x50, |Utf8.Encode(s)|) + Utf8.Encode(s)
    else Marker(0x60, |Utf8.Encode16(s)|) + BytesOf16(Utf8.Encode16(s))
  }

  function ObjectBytes(n: Node, refSize: nat): seq<U8> {
    match n
    case NodeBool(b) => [if b then 0x09 else 0x08]
    case NodeStr(s) => StringBytes(s)
    case NodeData(d) => Marker(0x40, |d|) + d
    case NodeArray(children) => Marker(0xA0, |children|) + Table(children, refSize)
    case NodeDict(keys, values) => Marker(0xD0, |keys|) + (Table(keys, refSize) + Table(values, refSize))
  }

  function Bodies(nodes: seq<Node>, refSize: nat): seq<U8> {
    if nodes == [] then [] else ObjectBytes(nodes[0], refSize) + Bodies(nodes[1..], refSize)
  }

  /** Where each object starts, the first of them at `start`. */
  function Offsets(nodes: seq<Node>, refSize: nat, start: nat): (r: seq<nat>)
    ensures |r| == |nodes|
  {
    if nodes == [] then [] else [start] + Offsets(nodes[1..], refSize, start + |ObjectBytes(nodes[0], refSize)|)
  }

  function Trailer(offsetSize: nat, refSize: nat, count: nat, tableStart: nat): (b: seq<U8>)
    requires offsetSize <= 8 && refSize <= 8
    ensures |b| == 32
  {
    [0, 0, 0, 0, 0, 0, offsetSize, refSize] + BigEndian(count, 8) + BigEndian(0, 8) + BigEndian(tableStart, 8)
  }

  function RefSize(v: Value): nat { ByteWidth(Size(v) % TWO_64) }

  function Objects(v: Value): seq<U8> { Bodies(Flatten(v, 0), RefSize(v)) }

  function TableStart(v: Value): nat { |MAGIC| + |Objects(v)| }

  function OffsetSize(v: Value): nat { ByteWidth(TableStart(v) % TWO_64) }

  function OffsetTable(v: Value): seq<U8> {
    Table(Offsets(Flatten(v, 0), RefSize(v), |MAGIC|), OffsetSize(v))
  }

  function Encode(v: Value): seq<U8> {
    MAGIC + Objects(v) + OffsetTable(v) + Trailer(OffsetSize(v), RefSize(v), Size(v), TableStart(v))
  }

  // ----------------------------------------------------------------------- methods ---

  /** The growing object list of the first pass. */
  class Numbering {
    var objects: seq<Node>

    constructor ()
      ensures objects == []
    {
      objects := [];
    }

    /** A container's slot is reserved before its children are numbered, and filled in after. */
    method Add(v: Value) returns (index: nat)
      modifies this
      ensures index == |old(objects)|
      ensures objects == old(objects) + Flatten(v, |old(objects)|)
      decreases v
    {
      hide FlattenAll, FlattenEntries, Refs, ValueRefs, KeyRefs, KeyNodes, Size;
      index := |objects|;
      match v
      case Str(s) => objects := objects + [NodeStr(s)];
      case Data(d) => objects := objects + [NodeData(d)];
      case Bool(b) => objects := objects + [NodeBool(b)];
      case Array(items) => AddArray(items);
      case Dict(entries) => AddDict(entries);
    }

    method AddArray(items: seq<Value>)
      modifies this
      ensures objects == old(objects) + ([NodeArray(Refs(items, |old(objects)| + 1))] + FlattenAll(items, |old(objects)| + 1))
      decreases items, 1
    {
      hide *;
      var index := |objects|;
      objects := objects + [NodeArray([])];
      var kids := AddItems(items);
      objects := objects[index := NodeArray(kids)];
      Filled(old(objects), NodeArray([]), NodeArray(kids), FlattenAll(items, index + 1));
    }

    method AddDict(entries: seq<Entry>)
      modifies this
      ensures var at := |old(objects)| + 1;
        objects == old(objects) + ([NodeDict(KeyRefs(|entries|, at), ValueRefs(entries, at + |entries|))] + KeyNodes(entries)
          + FlattenEntries(entries, at + |entries|))
      decreases entries, 1
    {
      hide *;
      var index := |objects|;
      objects := objects + [NodeDict([], [])];
      var keys := AddKeys(entries);
      var values := AddValues(entries);
      objects := objects[index := NodeDict(keys, values)];
      ghost var nested := FlattenEntries(entries, index + 1 + |entries|);
      Associate(old(objects) + [NodeDict([], [])], KeyNodes(entries), nested);
      Filled(old(objects), NodeDict([], []), NodeDict(keys, values), KeyNodes(entries) + nested);
      Associate([NodeDict(keys, values)], KeyNodes(entries), nested);
    }

    method AddItems(items: seq<Value>) returns (kids: seq<nat>)
      modifies this
      ensures kids == Refs(items, |old(objects)|)
      ensures objects == old(objects) + FlattenAll(items, |old(objects)|)
      decreases items, 0
    {
      hide Flatten, FlattenAll, Refs, Size;
      kids := [];
      assert items[0..] == items && [] + Refs(items, |objects|) == Refs(items, |objects|);
      for i := 0 to |items|
        invariant kids + Refs(items[i..], |objects|) == Refs(items, |old(objects)|)
        invariant objects + FlattenAll(items[i..], |objects|) == old(objects) + FlattenAll(items, |old(objects)|)
      {
        ItemsStep(items, i, |objects|);
        ghost var was := objects;
        var kid := Add(items[i]);
        Associate(was, Flatten(items[i], |was|), FlattenAll(items[i + 1..], |objects|));
        Associate(kids, [kid], Refs(items[i + 1..], |objects|));
        kids := kids + [kid];
      }
      ItemsStep(items, |items|, |objects|);
    }

    method AddKeys(entries: seq<Entry>) returns (keys: seq<nat>)
      modifies this
      ensures keys == KeyRefs(|entries|, |old(objects)|)
      ensures objects == old(objects) + KeyNodes(entries)
    {
      keys := [];
      for i := 0 to |entries|
        invariant keys == KeyRefs(i, |old(objects)|)
        invariant objects == old(objects) + KeyNodes(entries)[..i]
      {
        keys := keys + [|objects|];
        objects := objects + [NodeStr(entries[i].key)];
      }
    }

    method AddValues(entries: seq<Entry>) returns (values: seq<nat>)
      modifies this
      ensures values == ValueRefs(entries, |old(objects)|)
      ensures objects == old(objects) + FlattenEntries(entries, |old(objects)|)
      decreases entries, 0
    {
      hide Flatten, FlattenEntries, ValueRefs, Size;
      values := [];
      assert entries[0..] == entries && [] + ValueRefs(entries, |objects|) == ValueRefs(entries, |objects|);
      for i := 0 to |entries|
        invariant values + ValueRefs(entries[i..], |objects|) == ValueRefs(entries, |old(objects)|)
        invariant objects + FlattenEntries(entries[i..], |objects|) == old(objects) + FlattenEntries(entries, |old(objects)|)
      {
        EntriesStep(entries, i, |objects|);
        ghost var was := objects;
        var kid := Add(entries[i].value);
        Associate(was, Flatten(entries[i].value, |was|), FlattenEntries(entries[i + 1..], |objects|));
        Associate(values, [kid], ValueRefs(entries[i + 1..], |objects|));
        values := values + [kid];
      }
      EntriesStep(entries, |entries|, |objects|);
    }
  }

  lemma ItemsStep(items: seq<Value>, i: nat, base: nat)
    requires i <= |items|
    ensures i == |items| ==> Refs(items[i..], base) == [] && FlattenAll(items[i..], base) == []
    ensures i < |items| ==> Refs(items[i..], base) == [base] + Refs(items[i + 1..], base + Size(items[i]))
    ensures i < |items| ==>
      FlattenAll(items[i..], base) == Flatten(items[i], base) + FlattenAll(items[i + 1..], base + Size(items[i]))
  {
    hide Flatten, Size;
    if i < |items| {
      assert items[i..][1..] == items[i + 1..];
    }
  }

  lemma EntriesStep(entries: seq<Entry>, i: nat, base: nat)
    requires i <= |entries|
    ensures i == |entries| ==> ValueRefs(entries[i..], base) == [] && FlattenEntries(entries[i..], base) == []
    ensures i < |entries| ==> ValueRefs(entries[i..], base) == [base] + ValueRefs(entries[i + 1..], base + Size(entries[i].value))
    ensures i < |entries| ==>
      FlattenEntries(entries[i..], base) == Flatten(entries[i].value, base) + FlattenEntries(entries[i + 1..], base + Size(entries[i].value))
  {
    hide Flatten, Size;
    if i < |entries| {
      assert entries[i..][1..] == entries[i + 1..];
    }
  }

  lemma Filled(before: seq<Node>, blank: Node, node: Node, rest: seq<Node>)
    ensures (before + [blank] + rest)[|before| := node] == before + ([node] + rest)
  {
  }

  /** The document being written in the second pass. */
  class Output {
    var out: seq<U8>

    constructor ()
      ensures out == MAGIC
    {
      out := MAGIC;
    }

    method WriteUint(v: nat, width: nat)
      requires width <= 8
      modifies this
      ensures out == old(out) + BigEndian(v, width)
    {
      out := out + BigEndian(v, width);
    }

    method WriteIntObject(v: nat)
      modifies this
      ensures out == old(out) + IntObject(v)
    {
      var marker, width := 0x12, 4;
      if v <= 0xFF {
        marker, width := 0x10, 1;
      } else if v <= 0xFFFF {
        marker, width := 0x11, 2;
      }
      out := out + [marker];
      WriteUint(v, width);
    }

    method WriteMarker(kind: U8, len: nat)
      requires kind <= 0xF0
      modifies this
      ensures out == old(out) + Marker(kind, len)
    {
      hide IntObject, BigEndian;
      if len < 0x0F {
        out := out + [kind + len];
      } else {
        out := out + [kind + 0x0F];
        WriteIntObject(len);
      }
    }

    method WriteString(s: string)
      modifies this
      ensures out == old(out) + StringBytes(s)
    {
      hide Marker, BytesOf16, Utf8.Encode, Utf8.Encode16;
      if Utf8.Ascii(s) {
        WriteMarker(0x50, |Utf8.Encode(s)|);
        out := out + Utf8.Encode(s);
        Associate(old(out), Marker(0x50, |Utf8.Encode(s)|), Utf8.Encode(s));
      } else {
        var units := Utf8.Encode16(s);
        WriteMarker(0x60, |units|);
        WriteUnits(units);
        Associate(old(out), Marker(0x60, |units|), BytesOf16(units));
      }
    }

    method WriteUnits(units: seq<U16>)
      modifies this
      ensures out == old(out) + BytesOf16(units)
    {
      for i := 0 to |units|
        invariant out + BytesOf16(units[i..]) == old(out) + BytesOf16(units)
      {
        assert units[i..][1..] == units[i + 1..];
        Associate(out, [units[i] / 256, units[i] % 256], BytesOf16(units[i + 1..]));
        out := out + [units[i] / 256, units[i] % 256];
      }
      assert units[|units|..] == [];
    }

    method WriteTable(rs: seq<nat>, width: nat)
      requires width <= 8
      modifies this
      ensures out == old(out) + Table(rs, width)
    {
      for i := 0 to |rs|
        invariant out + Table(rs[i..], width) == old(out) + Table(rs, width)
      {
        assert rs[i..][1..] == rs[i + 1..];
        ghost var before := out;
        WriteUint(rs[i], width);
        Associate(before, BigEndian(rs[i], width), Table(rs[i + 1..], width));
      }
    }

    method WriteObject(n: Node, refSize: nat)
      requires refSize <= 8
      modifies this
      ensures out == old(out) + ObjectBytes(n, refSize)
    {
      hide Marker, Table, StringBytes;
      match n
      case NodeBool(b) => out := out + [if b then 0x09 else 0x08];
      case NodeStr(s) => WriteString(s);
      case NodeData(d) =>
        WriteMarker(0x40, |d|);
        out := out + d;
        Associate(old(out), Marker(0x40, |d|), d);
      case NodeArray(children) =>
        WriteMarker(0xA0, |children|);
        WriteTable(children, refSize);
        Associate(old(out), Marker(0xA0, |children|), Table(children, refSize));
      case NodeDict(keys, values) =>
        WriteMarker(0xD0, |keys|);
        WriteTable(keys, refSize);
        WriteTable(values, refSize);
        Associate(old(out) + Marker(0xD0, |keys|), Table(keys, refSize), Table(values, refSize));
        Associate(old(out), Marker(0xD0, |keys|), Table(keys, refSize) + Table(values, refSize));
    }

    method WriteObjects(objects: seq<Node>, refSize: nat) returns (offsets: seq<nat>)
      requires refSize <= 8
      modifies this
      ensures out == old(out) + Bodies(objects, refSize)
      ensures offsets == Offsets(objects, refSize, |old(out)|)
    {
      hide ObjectBytes, Bodies, Offsets;
      offsets := [];
      BodiesStep(objects, refSize, |out|, |objects|);
      assert objects[0..] == objects;
      for i := 0 to |objects|
        invariant out + Bodies(objects[i..], refSize) == old(out) + Bodies(objects, refSize)
        invariant offsets + Offsets(objects[i..], refSize, |out|) == Offsets(objects, refSize, |old(out)|)
      {
        BodiesStep(objects, refSize, |out|, i);
        Associate(out, ObjectBytes(objects[i], refSize), Bodies(objects[i + 1..], refSize));
        Associate(offsets, [|out|], Offsets(objects[i + 1..], refSize, |out| + |ObjectBytes(objects[i], refSize)|));
        offsets := offsets + [|out|];
        WriteObject(objects[i], refSize);
      }
    }
  }

  lemma BodiesStep(objects: seq<Node>, refSize: nat, start: nat, i: nat)
    requires i <= |objects|
    ensures i == |objects| ==> Bodies(objects[i..], refSize) == []
    ensures i == |objects| ==> forall s: nat :: Offsets(objects[i..], refSize, s) == []
    ensures i < |objects| ==> Bodies(objects[i..], refSize) == ObjectBytes(objects[i], refSize) + Bodies(objects[i + 1..], refSize)
    ensures i < |objects| ==>
      Offsets(objects[i..], refSize, start) == [start] + Offsets(objects[i + 1..], refSize, start + |ObjectBytes(objects[i], refSize)|)
  {
    if i < |objects| {
      assert objects[i..][1..] == objects[i + 1..];
    }
  }

  /** `encode`: number the tree, write the objects, then the table of where they went. */
  method EncodePlist(root: Value) returns (document: seq<U8>)
    ensures document == Encode(root)
  {
    hide Flatten, Bodies, Offsets, Table, Trailer, ByteWidth, Size;
    var numbering := new Numbering();
    var index := numbering.Add(root);
    var objects := numbering.objects;
    assert objects == Flatten(root, 0);
    var refSize := ByteWidth(|objects| % TWO_64);
    var output := new Output();
    var offsets := output.WriteObjects(objects, refSize);
    var tableStart := |output.out|;
    var offsetSize := ByteWidth(tableStart % TWO_64);
    output.WriteTable(offsets, offsetSize);
    document := output.out + Trailer(offsetSize, refSize, |objects|, tableStart);
  }
}
