/**
  The binary plist reader. Every offset, length and reference comes from another device, so
  each is checked before use, and what is built is paid for out of two budgets.
 */
module PlistReader {
  import opened Bytes
  import Utf8
  import W = PlistWriter

  datatype Val =
    | Str(s: string)
    | Data(d: seq<U8>)
    | Int(i: I64)
    | Bool(b: bool)
    | Array(items: seq<Val>)
    | Dict(entries: seq<Pair>)
    | Other

  datatype Pair = Pair(key: string, value: Val)

  const MAX_DEPTH := 16
  const MAX_ELEMENTS := 4096
  const MAX_TOTAL_OBJECTS := 100_000
  const BYTE_AMPLIFICATION := 8
  const MIN_BYTE_BUDGET := 256 * 1024

  /** A document whose trailer has been read. */
  datatype Doc = Doc(buf: seq<U8>, tableStart: nat, offsetSize: nat, refSize: nat, numObjects: nat)

  /** Objects and leaf bytes that may still be built. */
  datatype Purse = Purse(objects: nat, bytes: nat)

  function Get(buf: seq<U8>, lo: nat, hi: nat): (r: Option<seq<U8>>)
    ensures r.Some? ==> lo <= hi <= |buf| && r.value == buf[lo..hi]
  {
    if lo <= hi <= |buf| then Some(buf[lo..hi]) else None
  }

  function OffsetOf(d: Doc, index: nat): (r: Option<nat>)
    ensures r.Some? ==> r.value < |d.buf|
  {
    if index >= d.numObjects then None
    else
      var at := d.tableStart + index * d.offsetSize;
      var raw :- Get(d.buf, at, at + d.offsetSize);
      var offset := FromBigEndian(raw);
      if offset < |d.buf| then Some(offset) else None
  }

  /** `1 << n`. */
  function Shift(n: nat): nat { if n == 0 then 1 else 2 * Shift(n - 1) }

  /** The length an object's marker gives, and where its body starts. */
  function Sized(d: Doc, at: nat, low: nat): Option<(nat, nat)> {
    if low != 0x0F then Some((low, at + 1))
    else if at + 1 >= |d.buf| then None
    else
      var m := d.buf[at + 1];
      if m / 16 != 0x1 then None
      else
        var width := Shift(m % 16);
        var raw :- Get(d.buf, at + 2, at + 2 + width);
        Some((FromBigEndian(raw), at + 2 + width))
  }

  function Reference(d: Doc, body: nat, i: nat): Option<nat> {
    var at := body + i * d.refSize;
    var raw :- Get(d.buf, at, at + d.refSize);
    Some(FromBigEndian(raw))
  }

  /** `chunks_exact(2)`, each pair one code unit. */
  function UnitsOf(raw: seq<U8>): seq<U16> {
    if |raw| < 2 then []
    else
      var high: int := raw[0];
      [high * 256 + raw[1]] + UnitsOf(raw[2..])
  }

  /** Bytes are charged for what was built, not for what was read. */
  function Charge(v: Val, cost: nat, purse: Purse): Option<(Val, Purse)> {
    if cost > purse.bytes then None else Some((v, purse.(bytes := purse.bytes - cost)))
  }

  /** Everything but the two containers. */
  function Leaf(d: Doc, at: nat, purse: Purse): Option<(Val, Purse)>
    requires at < |d.buf|
  {
    var kind, low := d.buf[at] / 16, d.buf[at] % 16;
    match kind
    case 0x0 => Some((if d.buf[at] == 0x08 then Bool(false) else if d.buf[at] == 0x09 then Bool(true) else Other, purse))
    case 0x1 =>
      var raw :- Get(d.buf, at + 1, at + 1 + Shift(low));
      Some((Int(I64OfU64(FromBigEndian(raw))), purse))
    case 0x4 =>
      var (len, body) :- Sized(d, at, low);
      var raw :- Get(d.buf, body, body + len);
      Charge(Data(raw), |raw|, purse)
    case 0x5 =>
      var (len, body) :- Sized(d, at, low);
      var raw :- Get(d.buf, body, body + len);
      var s := Utf8.Lossy(raw);
      Charge(Str(s), |Utf8.Encode(s)|, purse)
    case 0x6 =>
      var (units, body) :- Sized(d, at, low);
      var raw :- Get(d.buf, body, body + 2 * units);
      var s := Utf8.Lossy16(UnitsOf(raw));
      Charge(Str(s), |Utf8.Encode(s)|, purse)
    case _ => Some((Other, purse))
  }

  predicate IsContainer(marker: U8) { marker / 16 == 0xA || marker / 16 == 0xD }

  /** How many levels may still be entered. */
  function Room(depth: nat): nat { if depth > MAX_DEPTH then 0 else 1 + MAX_DEPTH - depth }

  function Object(d: Doc, index: nat, depth: nat, purse: Purse): Option<(Val, Purse)>
    decreases Room(depth), 1, 0
  {
    if depth > MAX_DEPTH || purse.objects == 0 then None
    else
      var spent := purse.(objects := purse.objects - 1);
      var at :- OffsetOf(d, index);
      var marker := d.buf[at];
      if !IsContainer(marker) then Leaf(d, at, spent)
      else
        var (count, body) :- Sized(d, at, marker % 16);
        if count > MAX_ELEMENTS then None
        else if marker / 16 == 0xA then
          var (items, left) :- Items(d, body, count, 0, depth, spent);
          Some((Array(items), left))
        else
          var (entries, left) :- Entries(d, body, count, 0, depth, spent);
          Some((Dict(entries), left))
  }

  /** The references of an array from the `i`th on. */
  function Items(d: Doc, body: nat, count: nat, i: nat, depth: nat, purse: Purse): (r: Option<(seq<Val>, Purse)>)
    requires i <= count && depth <= MAX_DEPTH
    decreases Room(depth), 0, count - i
  {
    if i == count then Some(([], purse))
    else
      var r :- Reference(d, body, i);
      var (v, left) :- Object(d, r, depth + 1, purse);
      var (rest, end) :- Items(d, body, count, i + 1, depth, left);
      Some(([v] + rest, end))
  }

  /** Keys come first, then values. A key that is not text costs its object and is passed over with its value. */
  function Entries(d: Doc, body: nat, count: nat, i: nat, depth: nat, purse: Purse): (r: Option<(seq<Pair>, Purse)>)
    requires i <= count && depth <= MAX_DEPTH
    decreases Room(depth), 0, count - i
  {
    if i == count then Some(([], purse))
    else
      var kr :- Reference(d, body, i);
      var vr :- Reference(d, body, count + i);
      var (k, keyed) :- Object(d, kr, depth + 1, purse);
      if !k.Str? then Entries(d, body, count, i + 1, depth, keyed)
      else
        var (v, left) :- Object(d, vr, depth + 1, keyed);
        var (rest, end) :- Entries(d, body, count, i + 1, depth, left);
        Some(([Pair(k.s, v)] + rest, end))
  }

  /** The trailer, if it describes a table that lies inside the buffer. */
  function Open(buf: seq<U8>): Option<(Doc, nat)> {
    if |buf| < 40 || buf[..8] != W.MAGIC then None
    else
      var t := buf[|buf| - 32..];
      var offsetSize, refSize := t[6], t[7];
      var numObjects, root, tableStart := FromBigEndian(t[8..16]), FromBigEndian(t[16..24]), FromBigEndian(t[24..32]);
      if offsetSize == 0 || offsetSize > 8 || refSize == 0 || refSize > 8 then None
      else if numObjects == 0 || numObjects > MAX_ELEMENTS || root >= numObjects then None
      else if tableStart + numObjects * offsetSize > |buf| then None
      else Some((Doc(buf, tableStart, offsetSize, refSize, numObjects), root))
  }

  function ByteBudget(length: nat): nat {
    if length * BYTE_AMPLIFICATION > MIN_BYTE_BUDGET then length * BYTE_AMPLIFICATION else MIN_BYTE_BUDGET
  }

  function Parse(buf: seq<U8>): Option<Val> {
    var (d, root) :- Open(buf);
    var (v, _) :- Object(d, root, 0, Purse(MAX_TOTAL_OBJECTS, ByteBudget(|buf|)));
    Some(v)
  }

  /** `Val::get`: the first entry under a key. */
  function Lookup(v: Val, key: string): (r: Option<Val>)
    ensures !v.Dict? ==> r == None
  {
    if v.Dict? then First(v.entries, key) else None
  }

  function First(entries: seq<Pair>, key: string): (r: Option<Val>)
    ensures r.None? <==> forall k :: 0 <= k < |entries| ==> entries[k].key != key
    ensures r.Some? ==> exists k :: (
      0 <= k < |entries| && entries[k] == Pair(key, r.value) && forall j :: 0 <= j < k ==> entries[j].key != key)
  {
    if entries == [] then None
    else if entries[0].key == key then Some(entries[0].value)
    else
      var r := First(entries[1..], key);
      assert r.Some? ==> forall k :: 0 <= k < |entries| - 1 ==> entries[1..][k] == entries[k + 1];
      r
  }

  // ------------------------------------------------------------------ the cursor object ---

  /** What is still to come, given what the elements before it left. */
  ghost predicate ItemsFrom(d: Doc, body: nat, count: nat, i: nat, depth: nat, purse: Purse, out: seq<Val>, all: Option<(seq<Val>, Purse)>)
    requires i <= count && depth <= MAX_DEPTH
  {
    match Items(d, body, count, i, depth, purse)
    case None => all == None
    case Some((rest, end)) => all == Some((out + rest, end))
  }

  ghost predicate EntriesFrom(d: Doc, body: nat, count: nat, i: nat, depth: nat, purse: Purse, out: seq<Pair>, all: Option<(seq<Pair>, Purse)>)
    requires i <= count && depth <= MAX_DEPTH
  {
    match Entries(d, body, count, i, depth, purse)
    case None => all == None
    case Some((rest, end)) => all == Some((out + rest, end))
  }

  lemma Ends(d: Doc, body: nat, count: nat, depth: nat, purse: Purse)
    requires depth <= MAX_DEPTH
    ensures ItemsFrom(d, body, count, 0, depth, purse, [], Items(d, body, count, 0, depth, purse))
    ensures EntriesFrom(d, body, count, 0, depth, purse, [], Entries(d, body, count, 0, depth, purse))
    ensures forall out: seq<Val>, all :: ItemsFrom(d, body, count, count, depth, purse, out, all) ==> all == Some((out, purse))
    ensures forall out: seq<Pair>, all :: EntriesFrom(d, body, count, count, depth, purse, out, all) ==> all == Some((out, purse))
  {
    var items, entries := Items(d, body, count, 0, depth, purse), Entries(d, body, count, 0, depth, purse);
    assert items.Some? ==> [] + items.value.0 == items.value.0;
    assert entries.Some? ==> [] + entries.value.0 == entries.value.0;
    assert forall out: seq<Val> :: out + [] == out;
    assert forall out: seq<Pair> :: out + [] == out;
  }

  lemma ItemsStep(d: Doc, body: nat, count: nat, i: nat, depth: nat, purse: Purse, out: seq<Val>, all: Option<(seq<Val>, Purse)>)
    requires i < count && depth <= MAX_DEPTH && ItemsFrom(d, body, count, i, depth, purse, out, all)
    requires Reference(d, body, i).Some? && Object(d, Reference(d, body, i).value, depth + 1, purse).Some?
    ensures var (v, left) := Object(d, Reference(d, body, i).value, depth + 1, purse).value;
      ItemsFrom(d, body, count, i + 1, depth, left, out + [v], all)
  {
    hide Object, Reference;
    var (v, left) := Object(d, Reference(d, body, i).value, depth + 1, purse).value;
    var more := Items(d, body, count, i + 1, depth, left);
    if more.Some? {
      assert out + ([v] + more.value.0) == out + [v] + more.value.0;
    }
  }

  lemma EntriesStep(d: Doc, body: nat, count: nat, i: nat, depth: nat, purse: Purse, out: seq<Pair>, all: Option<(seq<Pair>, Purse)>)
    requires i < count && depth <= MAX_DEPTH && EntriesFrom(d, body, count, i, depth, purse, out, all)
    requires Reference(d, body, i).Some? && Reference(d, body, count + i).Some?
    requires Object(d, Reference(d, body, i).value, depth + 1, purse).Some?
    ensures var (k, keyed) := Object(d, Reference(d, body, i).value, depth + 1, purse).value;
      if !k.Str? then EntriesFrom(d, body, count, i + 1, depth, keyed, out, all)
      else
        match Object(d, Reference(d, body, count + i).value, depth + 1, keyed)
        case None => all == None
        case Some((v, left)) => EntriesFrom(d, body, count, i + 1, depth, left, out + [Pair(k.s, v)], all)
  {
    hide Object, Reference;
    var (k, keyed) := Object(d, Reference(d, body, i).value, depth + 1, purse).value;
    if k.Str? && Object(d, Reference(d, body, count + i).value, depth + 1, keyed).Some? {
      var (v, left) := Object(d, Reference(d, body, count + i).value, depth + 1, keyed).value;
      var more := Entries(d, body, count, i + 1, depth, left);
      if more.Some? {
        assert out + ([Pair(k.s, v)] + more.value.0) == out + [Pair(k.s, v)] + more.value.0;
      }
    }
  }

  class Parser {
    const d: Doc
    var budget: nat
    var bytes: nat

    function Left(): Purse
      reads this
    {
      Purse(budget, bytes)
    }

    constructor (d: Doc)
      ensures this.d == d && Left() == Purse(MAX_TOTAL_OBJECTS, ByteBudget(|d.buf|))
    {
      this.d := d;
      budget := MAX_TOTAL_OBJECTS;
      bytes := ByteBudget(|d.buf|);
    }

    method SpendBytes(n: nat) returns (ok: bool)
      modifies this`bytes
      ensures ok == (n <= old(bytes)) && bytes == if ok then old(bytes) - n else old(bytes)
    {
      ok := n <= bytes;
      if ok {
        bytes := bytes - n;
      }
    }

    /** The bytes of a sized leaf, whose length counts pieces of `width` bytes. */
    method ReadSized(at: nat, low: nat, width: nat) returns (raw: Option<seq<U8>>)
      ensures match Sized(d, at, low)
        case None => raw == None
        case Some((len, body)) => raw == Get(d.buf, body, body + width * len)
    {
      var sized := Sized(d, at, low);
      if sized.None? {
        return None;
      }
      var (len, body) := sized.value;
      raw := Get(d.buf, body, body + width * len);
    }

    method Charged(value: Val, cost: nat) returns (v: Option<Val>)
      modifies this`bytes
      ensures match Charge(value, cost, old(Left()))
        case None => v == None && Left() == old(Left())
        case Some((w, left)) => v == Some(w) && Left() == left
    {
      var ok := SpendBytes(cost);
      v := if ok then Some(value) else None;
    }

    method ReadLeaf(at: nat) returns (v: Option<Val>)
      requires at < |d.buf|
      modifies this`bytes
      ensures match Leaf(d, at, old(Left()))
        case None => v == None
        case Some((value, left)) => v == Some(value) && Left() == left
    {
      hide Utf8.Lossy, Utf8.Lossy16, Utf8.Encode, UnitsOf, Sized, Shift, FromBigEndian;
      var kind, low := d.buf[at] / 16, d.buf[at] % 16;
      match kind
      case 0x0 => return Some(if d.buf[at] == 0x08 then Bool(false) else if d.buf[at] == 0x09 then Bool(true) else Other);
      case 0x1 =>
        var raw := Get(d.buf, at + 1, at + 1 + Shift(low));
        return if raw.None? then None else Some(Int(I64OfU64(FromBigEndian(raw.value))));
      case 0x4 =>
        var raw := ReadSized(at, low, 1);
        if raw.None? {
          return None;
        }
        v := Charged(Data(raw.value), |raw.value|);
      case 0x5 =>
        var raw := ReadSized(at, low, 1);
        if raw.None? {
          return None;
        }
        var s := Utf8.Lossy(raw.value);
        v := Charged(Str(s), |Utf8.Encode(s)|);
      case 0x6 =>
        var raw := ReadSized(at, low, 2);
        if raw.None? {
          return None;
        }
        var s := Utf8.Lossy16(UnitsOf(raw.value));
        v := Charged(Str(s), |Utf8.Encode(s)|);
      case _ => return Some(Other);
    }

    method ReadObject(index: nat, depth: nat) returns (v: Option<Val>)
      modifies this
      ensures match Object(d, index, depth, old(Left()))
        case None => v == None
        case Some((value, left)) => v == Some(value) && Left() == left
      decreases Room(depth), 1, 0
    {
      hide Leaf, Sized, OffsetOf;
      if depth > MAX_DEPTH || budget == 0 {
        return None;
      }
      budget := budget - 1;
      var at := OffsetOf(d, index);
      if at.None? {
        return None;
      }
      var marker := d.buf[at.value];
      if !IsContainer(marker) {
        v := ReadLeaf(at.value);
        return;
      }
      var sized := Sized(d, at.value, marker % 16);
      if sized.None? {
        return None;
      }
      var (count, body) := sized.value;
      if count > MAX_ELEMENTS {
        return None;
      }
      if marker / 16 == 0xA {
        var items := ReadItems(body, count, depth);
        v := if items.None? then None else Some(Array(items.value));
      } else {
        var entries := ReadEntries(body, count, depth);
        v := if entries.None? then None else Some(Dict(entries.value));
      }
    }

    method ReadItems(body: nat, count: nat, depth: nat) returns (r: Option<seq<Val>>)
      requires depth <= MAX_DEPTH
      modifies this
      ensures match Items(d, body, count, 0, depth, old(Left()))
        case None => r == None
        case Some((items, left)) => r == Some(items) && Left() == left
      decreases Room(depth), 0, 0
    {
      hide Object, Reference;
      var out := [];
      Ends(d, body, count, depth, Left());
      for i := 0 to count
        invariant ItemsFrom(d, body, count, i, depth, Left(), out, Items(d, body, count, 0, depth, old(Left())))
      {
        var target := Reference(d, body, i);
        if target.None? {
          return None;
        }
        ghost var was := Left();
        var v := ReadObject(target.value, depth + 1);
        if v.None? {
          return None;
        }
        ItemsStep(d, body, count, i, depth, was, out, Items(d, body, count, 0, depth, old(Left())));
        out := out + [v.value];
      }
      Ends(d, body, count, depth, Left());
      return Some(out);
    }

    method ReadEntries(body: nat, count: nat, depth: nat) returns (r: Option<seq<Pair>>)
      requires depth <= MAX_DEPTH
      modifies this
      ensures match Entries(d, body, count, 0, depth, old(Left()))
        case None => r == None
        case Some((entries, left)) => r == Some(entries) && Left() == left
      decreases Room(depth), 0, 0
    {
      hide Object, Reference;
      var out := [];
      Ends(d, body, count, depth, Left());
      for i := 0 to count
        invariant EntriesFrom(d, body, count, i, depth, Left(), out, Entries(d, body, count, 0, depth, old(Left())))
      {
        var kr := Reference(d, body, i);
        if kr.None? {
          return None;
        }
        var vr := Reference(d, body, count + i);
        if vr.None? {
          return None;
        }
        ghost var was := Left();
        var k := ReadObject(kr.value, depth + 1);
        if k.None? {
          return None;
        }
        EntriesStep(d, body, count, i, depth, was, out, Entries(d, body, count, 0, depth, old(Left())));
        if !k.value.Str? {
          continue;
        }
        var v := ReadObject(vr.value, depth + 1);
        if v.None? {
          return None;
        }
        out := out + [Pair(k.value.s, v.value)];
      }
      Ends(d, body, count, depth, Left());
      return Some(out);
    }
  }

  method ParsePlist(buf: seq<U8>) returns (v: Option<Val>)
    ensures v == Parse(buf)
  {
    hide Object, Open;
    var trailer := Open(buf);
    if trailer.None? {
      return None;
    }
    var parser := new Parser(trailer.value.0);
    OpenBuf(buf);
    v := parser.ReadObject(trailer.value.1, 0);
  }

  lemma OpenBuf(buf: seq<U8>)
    ensures Open(buf).Some? ==> Open(buf).value.0.buf == buf
  {
  }

  // --------------------------------------------------------------- arbitrary bytes ---

  /** How many values were built, keys included. */
  function Nodes(v: Val): nat {
    match v
    case Array(items) => 1 + NodesAll(items)
    case Dict(entries) => 1 + NodesPairs(entries)
    case _ => 1
  }

  function NodesAll(items: seq<Val>): nat { if items == [] then 0 else Nodes(items[0]) + NodesAll(items[1..]) }

  function NodesPairs(entries: seq<Pair>): nat {
    if entries == [] then 0 else 1 + Nodes(entries[0].value) + NodesPairs(entries[1..])
  }

  /** How many bytes of text and data were built, keys included. */
  function Payload(v: Val): nat {
    match v
    case Str(s) => |Utf8.Encode(s)|
    case Data(d) => |d|
    case Array(items) => PayloadAll(items)
    case Dict(entries) => PayloadPairs(entries)
    case _ => 0
  }

  function PayloadAll(items: seq<Val>): nat { if items == [] then 0 else Payload(items[0]) + PayloadAll(items[1..]) }

  function PayloadPairs(entries: seq<Pair>): nat {
    if entries == [] then 0 else |Utf8.Encode(entries[0].key)| + Payload(entries[0].value) + PayloadPairs(entries[1..])
  }

  /** The levels below a value; an entry's key is one level down, as its value is at least. */
  function Nesting(v: Val): nat {
    match v
    case Array(items) => NestingAll(items)
    case Dict(entries) => NestingPairs(entries)
    case _ => 0
  }

  function NestingAll(items: seq<Val>): nat { if items == [] then 0 else Max(1 + Nesting(items[0]), NestingAll(items[1..])) }

  function NestingPairs(entries: seq<Pair>): nat {
    if entries == [] then 0 else Max(1 + Nesting(entries[0].value), NestingPairs(entries[1..]))
  }

  ghost predicate Paid(before: Purse, after: Purse, nodes: nat, payload: nat) {
    after.objects + nodes <= before.objects && after.bytes + payload <= before.bytes
  }

  lemma LeafPaid(d: Doc, at: nat, purse: Purse)
    requires at < |d.buf| && Leaf(d, at, purse).Some?
    ensures var (v, left) := Leaf(d, at, purse).value; Nodes(v) == 1 && Nesting(v) == 0 && Paid(purse, left, 0, Payload(v))
  {
    hide Utf8.Encode, Utf8.Lossy, Utf8.Lossy16, UnitsOf, Sized, Shift, FromBigEndian;
  }

  /** Whatever is built was paid for, however often a reference is followed. */
  lemma {:induction false} ObjectPaid(d: Doc, index: nat, depth: nat, purse: Purse)
    requires Object(d, index, depth, purse).Some?
    ensures var (v, left) := Object(d, index, depth, purse).value; Paid(purse, left, Nodes(v), Payload(v)) && depth + Nesting(v) <= MAX_DEPTH
    decreases Room(depth), 1, 0
  {
    hide OffsetOf, Sized, Leaf;
    var spent := purse.(objects := purse.objects - 1);
    var at := OffsetOf(d, index).value;
    var marker := d.buf[at];
    if !IsContainer(marker) {
      LeafPaid(d, at, spent);
    } else {
      var (count, body) := Sized(d, at, marker % 16).value;
      if marker / 16 == 0xA {
        ItemsPaid(d, body, count, 0, depth, spent);
      } else {
        EntriesPaid(d, body, count, 0, depth, spent);
      }
    }
  }

  lemma {:induction false} ItemsPaid(d: Doc, body: nat, count: nat, i: nat, depth: nat, purse: Purse)
    requires i <= count && depth <= MAX_DEPTH && Items(d, body, count, i, depth, purse).Some?
    ensures var (vs, left) := Items(d, body, count, i, depth, purse).value;
      Paid(purse, left, NodesAll(vs), PayloadAll(vs)) && depth + NestingAll(vs) <= MAX_DEPTH
    decreases Room(depth), 0, count - i
  {
    hide Object, Reference;
    if i < count {
      var r := Reference(d, body, i).value;
      ObjectPaid(d, r, depth + 1, purse);
      ItemsPaid(d, body, count, i + 1, depth, Object(d, r, depth + 1, purse).value.1);
      var vs := Items(d, body, count, i, depth, purse).value.0;
      assert vs[1..] == Items(d, body, count, i + 1, depth, Object(d, r, depth + 1, purse).value.1).value.0;
    }
  }

  lemma {:induction false} EntriesPaid(d: Doc, body: nat, count: nat, i: nat, depth: nat, purse: Purse)
    requires i <= count && depth <= MAX_DEPTH && Entries(d, body, count, i, depth, purse).Some?
    ensures var (es, left) := Entries(d, body, count, i, depth, purse).value;
      Paid(purse, left, NodesPairs(es), PayloadPairs(es)) && depth + NestingPairs(es) <= MAX_DEPTH
    decreases Room(depth), 0, count - i
  {
    hide Object, Reference;
    if i < count {
      var kr, vr := Reference(d, body, i).value, Reference(d, body, count + i).value;
      ObjectPaid(d, kr, depth + 1, purse);
      var (k, keyed) := Object(d, kr, depth + 1, purse).value;
      if !k.Str? {
        EntriesPaid(d, body, count, i + 1, depth, keyed);
      } else {
        ObjectPaid(d, vr, depth + 1, keyed);
        var left := Object(d, vr, depth + 1, keyed).value.1;
        EntriesPaid(d, body, count, i + 1, depth, left);
        var es := Entries(d, body, count, i, depth, purse).value.0;
        assert es[1..] == Entries(d, body, count, i + 1, depth, left).value.0;
      }
    }
  }

  /**
    No bytes at all can make the reader build more than its budgets: at most 100000 values,
    at most 16 levels, and text and data within eight times the input or 256 KiB.
   */
  lemma ParseBounded(buf: seq<U8>)
    requires Parse(buf).Some?
    ensures var v := Parse(buf).value; Nodes(v) <= 100_000 && Nesting(v) <= 16 && Payload(v) <= Max(8 * |buf|, 0x4_0000)
  {
    hide Object, Nodes, Payload, Nesting, Open;
    var (d, root) := Open(buf).value;
    var purse := Purse(MAX_TOTAL_OBJECTS, ByteBudget(|buf|));
    ObjectPaid(d, root, 0, purse);
    var (v, left) := Object(d, root, 0, purse).value;
    assert Parse(buf) == Some(v);
  }

  /** A document opens exactly on these terms; every buffer of 32 octets or more ends in such a trailer. */
  lemma OpensExactly(front: seq<U8>, unused: seq<U8>, offsetSize: U8, refSize: U8, count: U64, root: U64, tableStart: U64)
    requires |unused| == 6
    ensures var buf := front + (unused + [offsetSize, refSize] + BigEndian(count, 8) + BigEndian(root, 8) + BigEndian(tableStart, 8));
      Open(buf)
      == if |front| >= 8 && front[..8] == [0x62, 0x70, 0x6C, 0x69, 0x73, 0x74, 0x30, 0x30] && 1 <= offsetSize <= 8 && 1 <= refSize <= 8
            && 1 <= count <= 4096 && root < count && tableStart + count * offsetSize <= |buf|
         then Some((Doc(buf, tableStart, offsetSize, refSize, count), root))
         else None
  {
    hide BigEndian, FromBigEndian;
    var head := unused + [offsetSize, refSize];
    var t := head + BigEndian(count, 8) + BigEndian(root, 8) + BigEndian(tableStart, 8);
    var buf := front + t;
    TrailerNumbers(head, count, root, tableStart);
    Slices(front, t);
    assert buf[|buf| - 32..] == t;
    assert |front| >= 8 ==> buf[..8] == front[..8];
    assert unused + [offsetSize, refSize] + BigEndian(count, 8) == head + BigEndian(count, 8);
    OpenByTrailer(buf, t);
  }

  lemma OpenByTrailer(buf: seq<U8>, t: seq<U8>)
    requires |buf| >= 32 && buf[|buf| - 32..] == t
    ensures var count, root, tableStart := FromBigEndian(t[8..16]), FromBigEndian(t[16..24]), FromBigEndian(t[24..32]);
      Open(buf)
      == if |buf| >= 40 && buf[..8] == [0x62, 0x70, 0x6C, 0x69, 0x73, 0x74, 0x30, 0x30] && 1 <= t[6] <= 8 && 1 <= t[7] <= 8
            && 1 <= count <= 4096 && root < count && tableStart + count * t[6] <= |buf|
         then Some((Doc(buf, tableStart, t[6], t[7], count), root))
         else None
  {
    hide FromBigEndian;
  }

  lemma TrailerNumbers(head: seq<U8>, count: U64, root: U64, tableStart: U64)
    requires |head| == 8
    ensures var t := head + BigEndian(count, 8) + BigEndian(root, 8) + BigEndian(tableStart, 8);
      && t[6] == head[6] && t[7] == head[7]
      && FromBigEndian(t[8..16]) == count && FromBigEndian(t[16..24]) == root && FromBigEndian(t[24..32]) == tableStart
  {
    hide BigEndian, FromBigEndian, Pow256;
    Pow256Values();
    BigEndianRoundTrip(count, 8);
    BigEndianRoundTrip(root, 8);
    BigEndianRoundTrip(tableStart, 8);
    var t := head + BigEndian(count, 8) + BigEndian(root, 8) + BigEndian(tableStart, 8);
    assert t[8..16] == BigEndian(count, 8);
    assert t[16..24] == BigEndian(root, 8);
    assert t[24..32] == BigEndian(tableStart, 8);
  }

  /** An integer object of one, two, four or eight octets gives the number they spell; of eight, a negative one too. */
  lemma IntegersRead(d: Doc, at: nat, v: I64, width: nat, purse: Purse)
    requires width == 1 || width == 2 || width == 4 || width == 8
    requires width < 8 ==> 0 <= v < Pow256(width)
    requires At(d.buf, at, [if width == 1 then 0x10 else if width == 2 then 0x11 else if width == 4 then 0x12 else 0x13]
      + BigEndian(U64OfI64(v), width))
    ensures Leaf(d, at, purse) == Some((Int(v), purse))
  {
    hide BigEndian, FromBigEndian, Pow256;
    Pow256Values();
    var k: U8 := if width == 1 then 0x10 else if width == 2 then 0x11 else if width == 4 then 0x12 else 0x13;
    AtSplit(d.buf, at, [k], BigEndian(U64OfI64(v), width));
    assert d.buf[at..at + 1][0] == d.buf[at];
    BigEndianRoundTrip(U64OfI64(v), width);
    Shifts();
  }

  lemma Shifts()
    ensures Shift(0) == 1 && Shift(1) == 2 && Shift(2) == 4 && Shift(3) == 8
  {
    assert Shift(3) == 2 * Shift(2);
  }

  /** What is refused unread: an object below the sixteenth level, past the budget, or not in the table. */
  lemma RefusedUnread(d: Doc, index: nat, depth: nat, purse: Purse)
    requires depth > 16 || purse.objects == 0 || index >= d.numObjects
    ensures Object(d, index, depth, purse) == None
  {
  }

  /** A container of more than 4096 elements is refused, wherever it stands. */
  lemma TooWideRefused(d: Doc, index: nat, depth: nat, purse: Purse)
    requires var at := OffsetOf(d, index);
      && at.Some? && IsContainer(d.buf[at.value])
      && var size := Sized(d, at.value, d.buf[at.value] % 16); size.Some? && size.value.0 > 4096
    ensures Object(d, index, depth, purse) == None
  {
    hide Sized, OffsetOf;
  }

  // ---------------------------------------------------------------- reference cycles ---

  /** A text object, by its marker. */
  predicate IsText(d: Doc, index: nat) {
    var at := OffsetOf(d, index);
    at.Some? && (d.buf[at.value] / 16 == 0x5 || d.buf[at.value] / 16 == 0x6)
  }

  /** Whether reading the `k`th element of a container's body reads object `child`: a value only under a key of text. */
  predicate ElementReads(d: Doc, isArray: bool, body: nat, count: nat, k: nat, child: nat) {
    || Reference(d, body, k) == Some(child)
    || (!isArray && Reference(d, body, count + k) == Some(child) && Reference(d, body, k).Some? && IsText(d, Reference(d, body, k).value))
  }

  predicate BodyReads(d: Doc, isArray: bool, body: nat, count: nat, child: nat) {
    exists k :: 0 <= k < count && ElementReads(d, isArray, body, count, k, child)
  }

  /** Reading object `index` reads object `child`, if it gets as far as that. */
  predicate Reads(d: Doc, index: nat, child: nat) {
    var at := OffsetOf(d, index);
    at.Some?
    && var marker := d.buf[at.value];
       IsContainer(marker)
       && var sized := Sized(d, at.value, marker % 16);
          sized.Some? && BodyReads(d, marker / 16 == 0xA, sized.value.1, sized.value.0, child)
  }

  lemma {:induction false} ItemIsRead(d: Doc, body: nat, count: nat, i: nat, depth: nat, purse: Purse, k: nat, child: nat) returns (left: Purse)
    requires i <= k < count && depth <= MAX_DEPTH && Items(d, body, count, i, depth, purse).Some? && ElementReads(d, true, body, count, k, child)
    ensures Object(d, child, depth + 1, left).Some?
    decreases count - i
  {
    hide Object, Reference, IsText;
    if i == k {
      left := purse;
    } else {
      left := ItemIsRead(d, body, count, i + 1, depth, Object(d, Reference(d, body, i).value, depth + 1, purse).value.1, k, child);
    }
  }

  lemma TextReadsAsText(d: Doc, index: nat, depth: nat, purse: Purse)
    requires IsText(d, index) && Object(d, index, depth, purse).Some?
    ensures Object(d, index, depth, purse).value.0.Str?
  {
    hide Sized, OffsetOf, UnitsOf, Utf8.Lossy, Utf8.Lossy16, Utf8.Encode;
  }

  lemma {:induction false} EntryIsRead(d: Doc, body: nat, count: nat, i: nat, depth: nat, purse: Purse, k: nat, child: nat) returns (left: Purse)
    requires i <= k < count && depth <= MAX_DEPTH && Entries(d, body, count, i, depth, purse).Some? && ElementReads(d, false, body, count, k, child)
    ensures Object(d, child, depth + 1, left).Some?
    decreases count - i
  {
    hide Object, Reference, IsText;
    var (key, keyed) := Object(d, Reference(d, body, i).value, depth + 1, purse).value;
    if i < k {
      var rest := if key.Str? then Object(d, Reference(d, body, count + i).value, depth + 1, keyed).value.1 else keyed;
      left := EntryIsRead(d, body, count, i + 1, depth, rest, k, child);
    } else if Reference(d, body, k) == Some(child) {
      left := purse;
    } else {
      TextReadsAsText(d, Reference(d, body, k).value, depth + 1, purse);
      left := keyed;
    }
  }

  /** A container that is read has read each object it refers to, one level down. */
  lemma ChildIsRead(d: Doc, index: nat, depth: nat, purse: Purse, child: nat) returns (left: Purse)
    requires Object(d, index, depth, purse).Some? && Reads(d, index, child)
    ensures depth <= MAX_DEPTH && Object(d, child, depth + 1, left).Some?
  {
    hide Sized, OffsetOf, Reference, ElementReads, Items, Entries;
    var at := OffsetOf(d, index).value;
    var (count, body) := Sized(d, at, d.buf[at] % 16).value;
    var isArray := d.buf[at] / 16 == 0xA;
    var k: nat :| k < count && ElementReads(d, isArray, body, count, k, child);
    var spent := purse.(objects := purse.objects - 1);
    if isArray {
      left := ItemIsRead(d, body, count, 0, depth, spent, k, child);
    } else {
      left := EntryIsRead(d, body, count, 0, depth, spent, k, child);
    }
  }

  /** Each object of the list reads the next, and the last reads the first. */
  predicate IsLoop(d: Doc, loop: seq<nat>) {
    loop != [] && forall k :: 0 <= k < |loop| ==> Reads(d, loop[k], loop[if k + 1 < |loop| then k + 1 else 0])
  }

  predicate IsPath(d: Doc, path: seq<nat>) { path != [] && forall k :: 0 < k < |path| ==> Reads(d, path[k - 1], path[k]) }

  /** No object of a reference cycle reads, whatever containers are on it, at any depth and for any budget. */
  lemma {:induction false} LoopRefused(d: Doc, loop: seq<nat>, k: nat, depth: nat, purse: Purse)
    requires IsLoop(d, loop) && k < |loop|
    ensures Object(d, loop[k], depth, purse) == None
    decreases Room(depth)
  {
    hide Object, Reads;
    if Object(d, loop[k], depth, purse).Some? {
      var next := if k + 1 < |loop| then k + 1 else 0;
      var left := ChildIsRead(d, loop[k], depth, purse, loop[next]);
      LoopRefused(d, loop, next, depth + 1, left);
    }
  }

  lemma {:induction false} PathRefused(d: Doc, path: seq<nat>, loop: seq<nat>, depth: nat, purse: Purse)
    requires IsLoop(d, loop) && IsPath(d, path) && path[|path| - 1] == loop[0]
    ensures Object(d, path[0], depth, purse) == None
    decreases |path|
  {
    hide Object, Reads;
    if |path| == 1 {
      LoopRefused(d, loop, 0, depth, purse);
    } else if Object(d, path[0], depth, purse).Some? {
      var left := ChildIsRead(d, path[0], depth, purse, path[1]);
      PathRefused(d, path[1..], loop, depth + 1, left);
    }
  }

  /** A document from whose root a reference cycle can be reached is refused. */
  lemma CycleRefused(buf: seq<U8>, d: Doc, root: nat, path: seq<nat>, loop: seq<nat>)
    requires Open(buf) == Some((d, root))
    requires IsPath(d, path) && path[0] == root && IsLoop(d, loop) && path[|path| - 1] == loop[0]
    ensures Parse(buf) == None
  {
    hide Open, Object, IsPath, IsLoop;
    PathRefused(d, path, loop, 0, Purse(MAX_TOTAL_OBJECTS, ByteBudget(|buf|)));
  }

  /** So an array that refers to itself is refused at every depth: a cycle of one. */
  lemma SelfReferenceRefused(d: Doc, index: nat, depth: nat, purse: Purse, k: nat)
    requires OffsetOf(d, index).Some? && d.buf[OffsetOf(d, index).value] / 16 == 0xA
    requires var s := Sized(d, OffsetOf(d, index).value, d.buf[OffsetOf(d, index).value] % 16);
      s.Some? && k < s.value.0 && Reference(d, s.value.1, k) == Some(index)
    ensures Object(d, index, depth, purse) == None
  {
    hide Reference, Sized, OffsetOf, Object;
    var (count, body) := Sized(d, OffsetOf(d, index).value, d.buf[OffsetOf(d, index).value] % 16).value;
    assert ElementReads(d, true, body, count, k, index);
    LoopRefused(d, [index], 0, depth, purse);
  }
}
