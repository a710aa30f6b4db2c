/**
  mDNS packets: compressed names read with bounded jumps, and records written and read back.
  A Rust `String` is kept as its UTF-8 bytes; a dot is the same byte in both.
 */
module Dns {
  import opened Bytes
  import Utf8

  type Text = seq<U8>

  const MAX_JUMPS := 16
  const MAX_NAME := 255
  const MAX_QUESTIONS := 64
  const MAX_RECORDS := 128
  const DOT: U8 := 0x2E
  const TYPE_PTR := 12

  datatype Question = Question(name: Text, qtype: U16)

  datatype Record = Record(name: Text, rtype: U16, ttl: U32, rdata: seq<U8>, rdataAt: nat)

  datatype Message = Message(questions: seq<Question>, records: seq<Record>)

  // ------------------------------------------------------------------ names, reading ---

  function Grown(out: Text, part: seq<U8>): Text { if out == [] then part else out + [DOT] + part }

  function Target(buf: seq<U8>, pos: nat): nat
    requires pos + 1 < |buf|
  {
    var high: int := buf[pos] % 0x40;
    high * 256 + buf[pos + 1]
  }

  predicate IsPointer(b: U8) { b >= 0xC0 }

  /** The loop of `name`: `out` so far, the next byte at `pos`. */
  function NameFrom(buf: seq<U8>, pos: nat, jumps: nat, out: Text): Option<Text>
    decreases if jumps > MAX_JUMPS then 0 else MAX_JUMPS + 1 - jumps, if pos > |buf| then 0 else |buf| - pos
  {
    if pos >= |buf| then None
    else if IsPointer(buf[pos]) then
      if pos + 1 >= |buf| then None
      else if jumps + 1 > MAX_JUMPS || Target(buf, pos) >= |buf| then None
      else NameFrom(buf, Target(buf, pos), jumps + 1, out)
    else if buf[pos] == 0 then Some(out)
    else
      var end := pos + 1 + buf[pos];
      if end > |buf| then None
      else
        var part := buf[pos + 1..end];
        if |out| + |part| + 1 > MAX_NAME || !Utf8.Valid(part) then None else NameFrom(buf, end, jumps, Grown(out, part))
  }

  /** Where the name ends in place: after its zero byte, or after its first pointer. */
  function After(buf: seq<U8>, pos: nat): Option<nat>
    decreases if pos > |buf| then 0 else |buf| - pos
  {
    if pos >= |buf| then None
    else if IsPointer(buf[pos]) then if pos + 1 >= |buf| then None else Some(pos + 2)
    else if buf[pos] == 0 then Some(pos + 1)
    else After(buf, pos + 1 + buf[pos])
  }

  function Name(buf: seq<U8>, pos: nat): Option<(Text, nat)> {
    var text :- NameFrom(buf, pos, 0, []);
    var end :- After(buf, pos);
    Some((text, end))
  }

  // Section 4.1.4 of RFC 1035: a name is labels ending in a zero octet, a pointer, or labels
  // ending in a pointer. Length octets of 0x40 to 0xBF, which the RFC reserves, count as labels here.

  /** The name at `pos` is these labels, reached over this many pointers. */
  ghost predicate Expands(buf: seq<U8>, pos: nat, labels: seq<seq<U8>>, jumps: nat)
    decreases jumps, |labels|
  {
    && pos < |buf|
    && if IsPointer(buf[pos]) then pos + 1 < |buf| && jumps > 0 && Expands(buf, Target(buf, pos), labels, jumps - 1)
       else if buf[pos] == 0 then labels == [] && jumps == 0
       else
         var end := pos + 1 + buf[pos];
         end <= |buf| && labels != [] && labels[0] == buf[pos + 1..end] && Expands(buf, end, labels[1..], jumps)
  }

  /** Labels with dots between them, after what is there already. */
  function Joined(out: Text, labels: seq<seq<U8>>): Text
    decreases |labels|
  {
    if labels == [] then out else Joined(Grown(out, labels[0]), labels[1..])
  }

  predicate AllText(labels: seq<seq<U8>>) { forall k :: 0 <= k < |labels| ==> Utf8.Valid(labels[k]) }

  lemma {:induction false} JoinedGrows(out: Text, labels: seq<seq<U8>>)
    ensures |out| <= |Joined(out, labels)|
    ensures labels != [] && out != [] ==> |out| + 1 + |labels[0]| <= |Joined(out, labels)|
    decreases |labels|
  {
    if labels != [] {
      JoinedGrows(Grown(out, labels[0]), labels[1..]);
    }
  }

  /** What the reader returns is the expansion, within its bounds. */
  lemma {:induction false} ReadsExpansion(buf: seq<U8>, pos: nat, jumps: nat, out: Text) returns (labels: seq<seq<U8>>, more: nat)
    requires jumps <= MAX_JUMPS && NameFrom(buf, pos, jumps, out).Some? && |out| <= MAX_NAME
    ensures Expands(buf, pos, labels, more) && jumps + more <= MAX_JUMPS && AllText(labels)
    ensures NameFrom(buf, pos, jumps, out).value == Joined(out, labels) && |Joined(out, labels)| <= MAX_NAME
    decreases MAX_JUMPS + 1 - jumps, if pos > |buf| then 0 else |buf| - pos
  {
    if IsPointer(buf[pos]) {
      labels, more := ReadsExpansion(buf, Target(buf, pos), jumps + 1, out);
      more := more + 1;
    } else if buf[pos] == 0 {
      labels, more := [], 0;
    } else {
      var end := pos + 1 + buf[pos];
      var part := buf[pos + 1..end];
      var rest;
      rest, more := ReadsExpansion(buf, end, jumps, Grown(out, part));
      labels := [part] + rest;
      assert labels[1..] == rest;
    }
  }

  /** An expansion within the bounds is read, whatever loops the buffer holds elsewhere. */
  lemma {:induction false} ExpansionIsRead(buf: seq<U8>, pos: nat, labels: seq<seq<U8>>, more: nat, jumps: nat, out: Text)
    requires Expands(buf, pos, labels, more) && jumps + more <= MAX_JUMPS && AllText(labels) && |Joined(out, labels)| <= MAX_NAME
    ensures NameFrom(buf, pos, jumps, out) == Some(Joined(out, labels))
    decreases more, |labels|
  {
    hide Utf8.Valid;
    if IsPointer(buf[pos]) {
      assert Target(buf, pos) < |buf|;
      ExpansionIsRead(buf, Target(buf, pos), labels, more - 1, jumps + 1, out);
    } else if buf[pos] != 0 {
      var end := pos + 1 + buf[pos];
      JoinedGrows(out, labels);
      JoinedGrows(Grown(out, labels[0]), labels[1..]);
      assert AllText(labels[1..]);
      assert Utf8.Valid(labels[0]);
      ExpansionIsRead(buf, end, labels[1..], more, jumps, Grown(out, labels[0]));
    }
  }

  /** The expansion of a name, if it has one, is one. */
  lemma {:induction false} ExpansionUnique(buf: seq<U8>, pos: nat, a: seq<seq<U8>>, j: nat, b: seq<seq<U8>>, k: nat)
    requires Expands(buf, pos, a, j) && Expands(buf, pos, b, k)
    ensures a == b && j == k
    decreases j, |a|
  {
    if IsPointer(buf[pos]) {
      ExpansionUnique(buf, Target(buf, pos), a, j - 1, b, k - 1);
    } else if buf[pos] != 0 {
      ExpansionUnique(buf, pos + 1 + buf[pos], a[1..], j, b[1..], k);
      assert a == [a[0]] + a[1..] && b == [b[0]] + b[1..];
    }
  }

  lemma {:induction false} ExpansionEnds(buf: seq<U8>, pos: nat, labels: seq<seq<U8>>, jumps: nat)
    requires Expands(buf, pos, labels, jumps)
    ensures After(buf, pos).Some? && After(buf, pos).value <= |buf|
    decreases jumps, |labels|
  {
    if !IsPointer(buf[pos]) && buf[pos] != 0 {
      ExpansionEnds(buf, pos + 1 + buf[pos], labels[1..], jumps);
    }
  }

  ghost predicate IsExpansion(buf: seq<U8>, pos: nat, text: Text, labels: seq<seq<U8>>, jumps: nat) {
    Expands(buf, pos, labels, jumps) && jumps <= MAX_JUMPS && AllText(labels) && text == Joined([], labels) && |text| <= MAX_NAME
  }

  /**
    A name is read exactly when it has an expansion over at most 16 pointers, of valid text
    and at most 255 bytes with its dots; and then it is that expansion that is read.
   */
  lemma NameIsExpansion(buf: seq<U8>, pos: nat, text: Text)
    ensures (Name(buf, pos).Some? && Name(buf, pos).value.0 == text) <==>
      exists labels: seq<seq<U8>>, jumps: nat :: IsExpansion(buf, pos, text, labels, jumps)
    ensures Name(buf, pos).Some? ==> pos < Name(buf, pos).value.1 <= |buf|
  {
    hide NameFrom, Expands, Joined, AllText, After;
    if NameFrom(buf, pos, 0, []).Some? {
      var labels, jumps := ReadsExpansion(buf, pos, 0, []);
      assert IsExpansion(buf, pos, NameFrom(buf, pos, 0, []).value, labels, jumps);
      ExpansionEnds(buf, pos, labels, jumps);
    }
    if labels: seq<seq<U8>>, jumps: nat :| IsExpansion(buf, pos, text, labels, jumps) {
      ExpansionIsRead(buf, pos, labels, jumps, 0, []);
      ExpansionEnds(buf, pos, labels, jumps);
    }
    AfterIsLater(buf, pos);
  }

  lemma {:induction false} AfterIsLater(buf: seq<U8>, pos: nat)
    ensures After(buf, pos).Some? ==> pos < After(buf, pos).value <= |buf|
    decreases if pos > |buf| then 0 else |buf| - pos
  {
    if pos < |buf| && !IsPointer(buf[pos]) && buf[pos] != 0 {
      AfterIsLater(buf, pos + 1 + buf[pos]);
    }
  }

  // ---------------------------------------------------------------- packets, reading ---

  function U16At(buf: seq<U8>, pos: nat): Option<(U16, nat)> {
    if pos + 2 > |buf| then None
    else
      var high: int := buf[pos];
      Some((high * 0x100 + buf[pos + 1], pos + 2))
  }

  function U32At(buf: seq<U8>, pos: nat): Option<(U32, nat)> {
    var (a, p) :- U16At(buf, pos);
    var (b, q) :- U16At(buf, p);
    var high: int := a;
    Some((high * 0x1_0000 + b, q))
  }

  function QuestionAt(buf: seq<U8>, pos: nat): Option<(Question, nat)> {
    var (name, p) :- Name(buf, pos);
    var (qtype, q) :- U16At(buf, p);
    var (_, r) :- U16At(buf, q);
    Some((Question(name, qtype), r))
  }

  function RecordAt(buf: seq<U8>, pos: nat): Option<(Record, nat)> {
    var (name, p) :- Name(buf, pos);
    var (rtype, q) :- U16At(buf, p);
    var (_, r) :- U16At(buf, q);
    var (ttl, s) :- U32At(buf, r);
    var (length, at) :- U16At(buf, s);
    if at + length > |buf| then None else Some((Record(name, rtype, ttl, buf[at..at + length], at), at + length))
  }

  function Questions(buf: seq<U8>, pos: nat, count: nat): Option<(seq<Question>, nat)>
    decreases count
  {
    if count == 0 then Some(([], pos))
    else
      var (q, p) :- QuestionAt(buf, pos);
      var (rest, end) :- Questions(buf, p, count - 1);
      Some(([q] + rest, end))
  }

  function Records(buf: seq<U8>, pos: nat, count: nat): Option<seq<Record>>
    decreases count
  {
    if count == 0 then Some([])
    else
      var (r, p) :- RecordAt(buf, pos);
      var rest :- Records(buf, p, count - 1);
      Some([r] + rest)
  }

  function Parse(buf: seq<U8>): Option<Message> {
    var (_, a) :- U16At(buf, 0);
    var (_, b) :- U16At(buf, a);
    var (qd, c) :- U16At(buf, b);
    var (an, d) :- U16At(buf, c);
    var (ns, e) :- U16At(buf, d);
    var (ar, f) :- U16At(buf, e);
    if qd > MAX_QUESTIONS then None
    else
      var (questions, g) :- Questions(buf, f, qd);
      if an + ns + ar > MAX_RECORDS then None
      else
        var records :- Records(buf, g, an + ns + ar);
        Some(Message(questions, records))
  }

  /** The cursor of `parse`. It never passes the end of the buffer, whatever a read returns. */
  class Reader {
    const buf: seq<U8>
    var pos: nat

    ghost predicate Valid()
      reads this
    {
      pos <= |buf|
    }

    constructor (buf: seq<U8>)
      ensures Valid() && this.buf == buf && pos == 0
    {
      this.buf := buf;
      pos := 0;
    }

    method Byte() returns (v: Option<U8>)
      requires Valid()
      modifies this
      ensures Valid()
      ensures if old(pos) < |buf| then v == Some(buf[old(pos)]) && pos == old(pos) + 1 else v == None && pos == old(pos)
    {
      if pos >= |buf| {
        return None;
      }
      v := Some(buf[pos]);
      pos := pos + 1;
    }

    method Short() returns (v: Option<U16>)
      requires Valid()
      modifies this
      ensures Valid()
      ensures match U16At(buf, old(pos)) case None => v == None case Some((n, end)) => v == Some(n) && pos == end
    {
      var high := Byte();
      if high.None? {
        return None;
      }
      var low := Byte();
      if low.None? {
        return None;
      }
      var h: int := high.value;
      v := Some(h * 0x100 + low.value);
    }

    method Long() returns (v: Option<U32>)
      requires Valid()
      modifies this
      ensures Valid()
      ensures match U32At(buf, old(pos)) case None => v == None case Some((n, end)) => v == Some(n) && pos == end
    {
      var high := Short();
      if high.None? {
        return None;
      }
      var low := Short();
      if low.None? {
        return None;
      }
      var h: int := high.value;
      v := Some(h * 0x1_0000 + low.value);
    }

    method Take(n: nat) returns (v: Option<seq<U8>>)
      requires Valid()
      modifies this
      ensures Valid()
      ensures if old(pos) + n <= |buf| then v == Some(buf[old(pos)..old(pos) + n]) && pos == old(pos) + n else v == None && pos == old(pos)
    {
      if pos + n > |buf| {
        return None;
      }
      v := Some(buf[pos..pos + n]);
      pos := pos + n;
    }

    /** Moves past the name in place, and follows pointers only to read. */
    method ReadName() returns (text: Option<Text>)
      requires Valid()
      modifies this
      ensures Valid()
      ensures match Name(buf, old(pos)) case None => text == None case Some((t, end)) => text == Some(t) && pos == end
    {
      hide Utf8.Valid, Grown, Target;
      var out: Text := [];
      var at: nat := pos;
      var jumps: nat := 0;
      var advanced := false;
      while true
        invariant Valid() && jumps <= MAX_JUMPS
        invariant NameFrom(buf, at, jumps, out) == NameFrom(buf, old(pos), 0, [])
        invariant if advanced then After(buf, old(pos)) == Some(pos) else pos == old(pos) && After(buf, at) == After(buf, old(pos))
        decreases MAX_JUMPS + 1 - jumps, if at > |buf| then 0 else |buf| - at
      {
        if at >= |buf| {
          return None;
        }
        var len := buf[at];
        if IsPointer(len) {
          if at + 1 >= |buf| {
            return None;
          }
          var target := Target(buf, at);
          if !advanced {
            pos := at + 2;
            advanced := true;
          }
          jumps := jumps + 1;
          if jumps > MAX_JUMPS || target >= |buf| {
            return None;
          }
          at := target;
          continue;
        }
        if len == 0 {
          if !advanced {
            pos := at + 1;
          }
          break;
        }
        if at + 1 + len > |buf| {
          return None;
        }
        var part := buf[at + 1..at + 1 + len];
        if |out| + |part| + 1 > MAX_NAME || !Utf8.Valid(part) {
          return None;
        }
        out := Grown(out, part);
        at := at + 1 + len;
      }
      return Some(out);
    }

    method ReadQuestion() returns (q: Option<Question>)
      requires Valid()
      modifies this
      ensures Valid()
      ensures match QuestionAt(buf, old(pos)) case None => q == None case Some((v, end)) => q == Some(v) && pos == end
    {
      hide Name;
      var name := ReadName();
      if name.None? {
        return None;
      }
      var qtype := Short();
      if qtype.None? {
        return None;
      }
      var kind := Short();
      return if kind.None? then None else Some(Question(name.value, qtype.value));
    }

    method ReadRecord() returns (r: Option<Record>)
      requires Valid()
      modifies this
      ensures Valid()
      ensures match RecordAt(buf, old(pos)) case None => r == None case Some((v, end)) => r == Some(v) && pos == end
    {
      hide Name;
      var name := ReadName();
      if name.None? {
        return None;
      }
      var rtype := Short();
      if rtype.None? {
        return None;
      }
      var kind := Short();
      if kind.None? {
        return None;
      }
      var ttl := Long();
      if ttl.None? {
        return None;
      }
      var length := Short();
      if length.None? {
        return None;
      }
      var at := pos;
      var rdata := Take(length.value);
      return if rdata.None? then None else Some(Record(name.value, rtype.value, ttl.value, rdata.value, at));
    }

    method ReadQuestions(count: nat) returns (qs: Option<seq<Question>>)
      requires Valid()
      modifies this
      ensures Valid()
      ensures match Questions(buf, old(pos), count) case None => qs == None case Some((v, end)) => qs == Some(v) && pos == end
    {
      hide QuestionAt;
      var out: seq<Question> := [];
      assert forall s: seq<Question> :: [] + s == s;
      for i := 0 to count
        invariant Valid()
        invariant match Questions(buf, pos, count - i)
          case None => Questions(buf, old(pos), count) == None
          case Some((rest, end)) => Questions(buf, old(pos), count) == Some((out + rest, end))
      {
        var q := ReadQuestion();
        if q.None? {
          return None;
        }
        ghost var rest := Questions(buf, pos, count - i - 1);
        assert rest.Some? ==> out + [q.value] + rest.value.0 == out + ([q.value] + rest.value.0);
        out := out + [q.value];
      }
      assert out + [] == out;
      qs := Some(out);
    }

    method ReadRecords(count: nat) returns (rs: Option<seq<Record>>)
      requires Valid()
      modifies this
      ensures Valid()
      ensures rs == Records(buf, old(pos), count)
    {
      hide RecordAt;
      var out: seq<Record> := [];
      assert forall s: seq<Record> :: [] + s == s;
      for i := 0 to count
        invariant Valid()
        invariant match Records(buf, pos, count - i)
          case None => Records(buf, old(pos), count) == None
          case Some(rest) => Records(buf, old(pos), count) == Some(out + rest)
      {
        var r := ReadRecord();
        if r.None? {
          return None;
        }
        ghost var rest := Records(buf, pos, count - i - 1);
        assert rest.Some? ==> out + [r.value] + rest.value == out + ([r.value] + rest.value);
        out := out + [r.value];
      }
      assert out + [] == out;
      rs := Some(out);
    }
  }

  method ParsePacket(buf: seq<U8>) returns (m: Option<Message>)
    ensures m == Parse(buf)
  {
    hide QuestionAt, RecordAt, Questions, Records, U16At;
    var r := new Reader(buf);
    var header := [];
    for i := 0 to 6
      invariant r.Valid() && r.buf == buf && r.pos == 2 * i && |header| == i
      invariant forall k :: 0 <= k < i ==> U16At(buf, 2 * k) == Some((header[k], 2 * k + 2))
    {
      var v := r.Short();
      if v.None? {
        assert U16At(buf, 2 * i).None?;
        HeaderCut(buf, i);
        return None;
      }
      U16Ends(buf, 2 * i);
      header := header + [v.value];
    }
    HeaderRead(buf, header);
    hide Parse;
    if header[2] > MAX_QUESTIONS {
      return None;
    }
    var questions := r.ReadQuestions(header[2]);
    if questions.None? {
      return None;
    }
    var an: int, ns: int, ar: int := header[3], header[4], header[5];
    var total: nat := an + ns + ar;
    if total > MAX_RECORDS {
      return None;
    }
    var records := r.ReadRecords(total);
    m := if records.None? then None else Some(Message(questions.value, records.value));
  }

  lemma U16Ends(buf: seq<U8>, pos: nat)
    ensures U16At(buf, pos).Some? ==> U16At(buf, pos).value.1 == pos + 2
  {
  }

  /** What `parse` does once the six counts are read. */
  function Body(buf: seq<U8>, qd: nat, total: nat): Option<Message> {
    if qd > MAX_QUESTIONS then None
    else
      var (questions, at) :- Questions(buf, 12, qd);
      if total > MAX_RECORDS then None
      else
        var records :- Records(buf, at, total);
        Some(Message(questions, records))
  }

  function Total(an: nat, ns: nat, ar: nat): nat { an + ns + ar }

  lemma HeaderRead(buf: seq<U8>, h: seq<U16>)
    requires |h| == 6 && forall k :: 0 <= k < 6 ==> U16At(buf, 2 * k) == Some((h[k], 2 * k + 2))
    ensures Parse(buf) == Body(buf, h[2], Total(h[3], h[4], h[5]))
  {
    hide U16At, Questions, Records;
    assert U16At(buf, 2 * 0) == Some((h[0], 2 * 0 + 2));
    assert U16At(buf, 2 * 1) == Some((h[1], 2 * 1 + 2));
    assert U16At(buf, 2 * 2) == Some((h[2], 2 * 2 + 2));
    assert U16At(buf, 2 * 3) == Some((h[3], 2 * 3 + 2));
    assert U16At(buf, 2 * 4) == Some((h[4], 2 * 4 + 2));
    assert U16At(buf, 2 * 5) == Some((h[5], 2 * 5 + 2));
  }

  lemma HeaderCut(buf: seq<U8>, i: nat)
    requires i < 6 && U16At(buf, 2 * i).None?
    ensures Parse(buf) == None
  {
    assert |buf| < 12;
  }

  // ---------------------------------------------------------------- packets, writing ---

  /** The first dot, or the end. */
  function DotAt(n: Text): (i: nat)
    ensures i <= |n| && (i < |n| ==> n[i] == DOT) && forall k :: 0 <= k < i ==> n[k] != DOT
  {
    if n == [] || n[0] == DOT then 0 else 1 + DotAt(n[1..])
  }

  /** `split('.')`: always at least one piece, empty or not. */
  function Split(n: Text): (r: seq<Text>)
    ensures r != []
    decreases |n|
  {
    var i := DotAt(n);
    if i == |n| then [n] else [n[..i]] + Split(n[i + 1..])
  }

  /** Empty labels are passed over, and a length keeps its low byte. */
  function EncodeLabels(labels: seq<seq<U8>>): seq<U8> {
    if labels == [] then []
    else if labels[0] == [] then EncodeLabels(labels[1..])
    else [|labels[0]| % 0x100] + labels[0] + EncodeLabels(labels[1..])
  }

  function EncodeName(n: Text): seq<U8> { EncodeLabels(Split(n)) + [0] }

  datatype Answer = Answer(name: Text, rtype: U16, ttl: U32, rdata: seq<U8>, flush: bool)

  function RecordTail(a: Answer): seq<U8> {
    BigEndian(a.rtype, 2) + (BigEndian(if a.flush then 0x8001 else 0x0001, 2) + (BigEndian(a.ttl, 4) + (BigEndian(|a.rdata|, 2) + a.rdata)))
  }

  function RecordBytes(a: Answer): seq<U8> { EncodeName(a.name) + RecordTail(a) }

  function Concat(parts: seq<seq<U8>>): seq<U8> { if parts == [] then [] else parts[0] + Concat(parts[1..]) }

  function Header(id: U16, flags: U16, qd: nat, an: nat, ns: nat, ar: nat): (h: seq<U8>)
    ensures |h| == 12
  {
    BigEndian(id, 2) + (BigEndian(flags, 2) + (BigEndian(qd, 2) + (BigEndian(an, 2) + (BigEndian(ns, 2) + BigEndian(ar, 2)))))
  }

  /** Authoritative, of answers only. */
  function ResponseHeader(count: nat): seq<U8> { Header(0, 0x8400, 0, count, 0, 0) }

  function Response(answers: seq<seq<U8>>): seq<U8> { ResponseHeader(|answers|) + Concat(answers) }

  function AllBytes(answers: seq<Answer>): (r: seq<seq<U8>>)
    ensures |r| == |answers|
  {
    seq(|answers|, i requires 0 <= i < |answers| => RecordBytes(answers[i]))
  }

  /** A query's labels are written as they come, empty ones too. */
  function QueryLabels(labels: seq<seq<U8>>): seq<U8> {
    if labels == [] then [] else [|labels[0]| % 0x100] + labels[0] + QueryLabels(labels[1..])
  }

  /** One question: who offers this service. The class's top bit asks to be told directly. */
  function Query(service: Text, unicast: bool): seq<U8> {
    Header(0, 0, 1, 0, 0, 0) + (QueryLabels(Split(service)) + [0] + (BigEndian(TYPE_PTR, 2) + BigEndian(if unicast then 0x8001 else 1, 2)))
  }

  method WriteName(n: Text) returns (out: seq<U8>)
    ensures out == EncodeName(n)
  {
    hide Split;
    var labels := Split(n);
    out := [];
    for i := 0 to |labels|
      invariant out + EncodeLabels(labels[i..]) == EncodeLabels(labels)
    {
      assert labels[i..][1..] == labels[i + 1..];
      if labels[i] == [] {
        continue;
      }
      var piece := [|labels[i]| % 0x100] + labels[i];
      Associate(out, piece, EncodeLabels(labels[i + 1..]));
      out := out + piece;
    }
    assert labels[|labels|..] == [];
    out := out + [0];
  }

  method WriteResponse(answers: seq<seq<U8>>) returns (p: seq<U8>)
    ensures p == Response(answers)
  {
    p := ResponseHeader(|answers|);
    for i := 0 to |answers|
      invariant p + Concat(answers[i..]) == Response(answers)
    {
      assert answers[i..][1..] == answers[i + 1..];
      p := p + answers[i];
    }
    assert answers[|answers|..] == [];
  }

  method WriteQuery(service: Text, unicast: bool) returns (p: seq<U8>)
    ensures p == Query(service, unicast)
  {
    hide Split, BigEndian;
    var labels := Split(service);
    var head := Header(0, 0, 1, 0, 0, 0);
    p := head;
    for i := 0 to |labels|
      invariant p + QueryLabels(labels[i..]) == head + QueryLabels(labels)
    {
      assert labels[i..][1..] == labels[i + 1..];
      var piece := [|labels[i]| % 0x100] + labels[i];
      Associate(p, piece, QueryLabels(labels[i + 1..]));
      p := p + piece;
    }
    assert labels[|labels|..] == [];
    p := p + [0];
    p := p + BigEndian(TYPE_PTR, 2);
    p := p + BigEndian(if unicast then 0x8001 else 1, 2);
    Nested(head, QueryLabels(labels), [0], BigEndian(TYPE_PTR, 2), BigEndian(if unicast then 0x8001 else 1, 2));
  }

  lemma Nested(a: seq<U8>, b: seq<U8>, c: seq<U8>, d: seq<U8>, e: seq<U8>)
    ensures a + b + c + d + e == a + (b + c + (d + e))
  {
  }

  // -------------------------------------------------------------------- round trips ---

  /** Labels a length byte can carry without reading as a pointer. */
  predicate Short(labels: seq<seq<U8>>) { forall k :: 0 <= k < |labels| ==> 0 < |labels[k]| < 0xC0 }

  /** A name the reader will take back: the root, or no empty label and none of 192 bytes or more; 255 bytes at most. */
  predicate Encodable(n: Text) {
    Utf8.Valid(n) && (n == [] || Short(Split(n))) && |n| <= MAX_NAME
  }

  lemma LabelParts(buf: seq<U8>, pos: nat, l: seq<U8>, rest: seq<U8>)
    requires At(buf, pos, [|l| % 0x100] + l + rest + [0])
    ensures pos + 1 + |l| < |buf| && buf[pos] == |l| % 0x100 && buf[pos + 1..pos + 1 + |l|] == l
    ensures At(buf, pos + 1 + |l|, rest + [0])
  {
    var head: seq<U8> := [|l| % 0x100];
    assert head + l + rest + [0] == head + (l + (rest + [0]));
    AtSplit(buf, pos, head, l + (rest + [0]));
    AtSplit(buf, pos + 1, l, rest + [0]);
    assert buf[pos..pos + 1][0] == buf[pos];
  }

  lemma {:induction false} LabelsExpand(buf: seq<U8>, pos: nat, labels: seq<seq<U8>>)
    requires At(buf, pos, EncodeLabels(labels) + [0]) && Short(labels)
    ensures Expands(buf, pos, labels, 0) && After(buf, pos) == Some(pos + |EncodeLabels(labels)| + 1)
    decreases |labels|
  {
    if labels == [] {
      assert buf[pos..pos + 1][0] == buf[pos];
    } else {
      hide At;
      var l, rest := labels[0], labels[1..];
      assert 0 < |l| < 0xC0;
      LabelParts(buf, pos, l, EncodeLabels(rest));
      assert Short(rest);
      LabelsExpand(buf, pos + 1 + |l|, rest);
    }
  }

  lemma Cut(n: Text, i: nat)
    requires i < |n|
    ensures n == n[..i] + ([n[i]] + n[i + 1..])
  {
  }

  lemma SplitMore(n: Text)
    ensures var i := DotAt(n);
      if i == |n| then Split(n) == [n]
      else Split(n)[0] == n[..i] && Split(n)[1..] == Split(n[i + 1..]) && n == n[..i] + ([DOT] + n[i + 1..])
  {
    var i := DotAt(n);
    hide DotAt;
    if i < |n| {
      Cut(n, i);
      PairAt(n[..i], Split(n[i + 1..]));
    }
  }

  lemma PairAt(first: Text, rest: seq<Text>)
    ensures ([first] + rest)[0] == first && ([first] + rest)[1..] == rest
  {
  }

  lemma {:induction false} JoinAfter(out: Text, n: Text)
    requires out != []
    ensures Joined(out, Split(n)) == out + [DOT] + n
    decreases |n|
  {
    hide Split, DotAt;
    var i := DotAt(n);
    SplitMore(n);
    JoinOne(out, Split(n));
    if i < |n| {
      JoinAfter(Grown(out, n[..i]), n[i + 1..]);
      Regroup(out + [DOT], n[..i], [DOT], n[i + 1..]);
    }
  }

  lemma JoinOne(out: Text, labels: seq<seq<U8>>)
    requires labels != []
    ensures Joined(out, labels) == Joined(Grown(out, labels[0]), labels[1..])
    ensures |labels| == 1 ==> Joined(out, labels) == Grown(out, labels[0])
  {
  }

  lemma Regroup(a: Text, b: Text, c: Text, d: Text)
    ensures a + b + c + d == a + (b + (c + d))
  {
  }

  /** A name of no empty labels is its labels with dots between them. */
  lemma JoinSplit(n: Text)
    requires n != [] && Short(Split(n))
    ensures Joined([], Split(n)) == n
  {
    hide Split, DotAt;
    var i := DotAt(n);
    SplitMore(n);
    JoinOne([], Split(n));
    if i < |n| {
      assert 0 < |Split(n)[0]|;
      JoinAfter(n[..i], n[i + 1..]);
      Regroup([], n[..i], [DOT], n[i + 1..]);
    }
  }

  lemma FrontPrefix(n: seq<U8>, i: nat)
    requires n != [] && Utf8.Front(n).Scalar? && 0 < Utf8.Front(n).len <= i <= |n|
    ensures Utf8.Front(n[..i]) == Utf8.Front(n)
  {
    assert forall k: nat :: k < i ==> Utf8.ByteAt(n[..i], k) == Utf8.ByteAt(n, k);
  }

  lemma FrontStopsBefore(n: seq<U8>, i: nat)
    requires n != [] && Utf8.Front(n).Scalar? && 0 < i < |n| && n[i] < 0x80
    ensures Utf8.Front(n).len <= i
  {
  }

  /** Cutting text at a dot leaves text on both sides. */
  lemma {:induction false} ValidCut(n: seq<U8>, i: nat)
    requires Utf8.Valid(n) && i < |n| && n[i] < 0x80
    ensures Utf8.Valid(n[..i]) && Utf8.Valid(n[i + 1..])
    decreases |n|
  {
    if i == 0 {
      assert n[1..] == n[Utf8.Front(n).len..];
    } else {
      var k := Utf8.Front(n).len;
      FrontStopsBefore(n, i);
      FrontPrefix(n, i);
      ValidCut(n[k..], i - k);
      assert n[k..][..i - k] == n[..i][k..];
      assert n[k..][i - k + 1..] == n[i + 1..];
    }
  }

  lemma {:induction false} SplitIsText(n: Text)
    requires Utf8.Valid(n)
    ensures AllText(Split(n))
    decreases |n|
  {
    hide Utf8.Valid;
    var i := DotAt(n);
    if i < |n| {
      ValidCut(n, i);
      SplitIsText(n[i + 1..]);
    }
  }

  lemma NameBack(buf: seq<U8>, pos: nat, n: Text)
    requires At(buf, pos, EncodeName(n)) && Encodable(n)
    ensures Name(buf, pos) == Some((n, pos + |EncodeName(n)|))
  {
    hide At, Utf8.Valid, NameFrom, After, Expands;
    if n == [] {
      var none: seq<seq<U8>> := [[]];
      assert none[1..] == [] && Split(n) == none;
      LabelsExpand(buf, pos, []);
      ExpansionIsRead(buf, pos, [], 0, 0, []);
    } else {
      LabelsExpand(buf, pos, Split(n));
      JoinSplit(n);
      SplitIsText(n);
      ExpansionIsRead(buf, pos, Split(n), 0, 0, []);
    }
  }

  lemma TwoOctets(v: nat)
    ensures BigEndian(v, 2) == [v / 0x100 % 0x100, v % 0x100]
  {
    assert BigEndian(v / 256, 1) == BigEndian(v / 256 / 256, 0) + [v / 256 % 256];
  }

  lemma LowTwo(v: nat)
    ensures v / 0x100 % 0x100 * 0x100 + v % 0x100 == v % 0x1_0000
  {
  }

  lemma ShortBack(buf: seq<U8>, pos: nat, v: nat)
    requires At(buf, pos, BigEndian(v, 2))
    ensures U16At(buf, pos) == Some((v % 0x1_0000, pos + 2))
  {
    hide BigEndian;
    TwoOctets(v);
    LowTwo(v);
    assert buf[pos..pos + 2][0] == buf[pos] && buf[pos..pos + 2][1] == buf[pos + 1];
  }

  lemma LongBack(buf: seq<U8>, pos: nat, v: U32)
    requires At(buf, pos, BigEndian(v, 4))
    ensures U32At(buf, pos) == Some((v, pos + 4))
  {
    hide BigEndian, At, U16At;
    var high: int := v / 0x1_0000;
    FourIsTwo(v);
    AtSplit(buf, pos, BigEndian(high, 2), BigEndian(v, 2));
    ShortBack(buf, pos, high);
    ShortBack(buf, pos + 2, v);
  }

  lemma FourIsTwo(v: nat)
    ensures BigEndian(v, 4) == BigEndian(v / 0x1_0000, 2) + BigEndian(v, 2)
  {
    var a := v / 256;
    var b := a / 256;
    assert b == v / 0x1_0000;
    assert BigEndian(v, 4) == BigEndian(b, 2) + [a % 256] + [v % 256];
    assert BigEndian(a, 1) == BigEndian(b, 0) + [a % 256];
    assert BigEndian(v, 2) == [] + [a % 256] + [v % 256];
  }

  predicate Sendable(a: Answer) { Encodable(a.name) && |a.rdata| < 0x1_0000 }

  function DataAt(a: Answer, pos: nat): nat { pos + |EncodeName(a.name)| + 10 }

  function Told(a: Answer, pos: nat): Record { Record(a.name, a.rtype, a.ttl, a.rdata, DataAt(a, pos)) }

  lemma TailBack(buf: seq<U8>, p: nat, a: Answer)
    requires At(buf, p, RecordTail(a)) && |a.rdata| < 0x1_0000
    ensures U16At(buf, p) == Some((a.rtype, p + 2)) && U16At(buf, p + 2).Some? && U16At(buf, p + 2).value.1 == p + 4
    ensures U32At(buf, p + 4) == Some((a.ttl, p + 8)) && U16At(buf, p + 8) == Some((|a.rdata|, p + 10))
    ensures At(buf, p + 10, a.rdata) && |RecordTail(a)| == 10 + |a.rdata|
  {
    hide BigEndian, At, U16At, U32At;
    var flags: nat := if a.flush then 0x8001 else 0x0001;
    AtSplit(buf, p, BigEndian(a.rtype, 2), BigEndian(flags, 2) + (BigEndian(a.ttl, 4) + (BigEndian(|a.rdata|, 2) + a.rdata)));
    AtSplit(buf, p + 2, BigEndian(flags, 2), BigEndian(a.ttl, 4) + (BigEndian(|a.rdata|, 2) + a.rdata));
    AtSplit(buf, p + 4, BigEndian(a.ttl, 4), BigEndian(|a.rdata|, 2) + a.rdata);
    AtSplit(buf, p + 8, BigEndian(|a.rdata|, 2), a.rdata);
    ShortBack(buf, p, a.rtype);
    ShortBack(buf, p + 2, flags);
    LongBack(buf, p + 4, a.ttl);
    ShortBack(buf, p + 8, |a.rdata|);
  }

  /** A record as a packet that carries it is read: its own fields, and where its data stands. */
  predicate ReadAs(buf: seq<U8>, r: Record, a: Answer) {
    r.name == a.name && r.rtype == a.rtype && r.ttl == a.ttl && r.rdata == a.rdata && At(buf, r.rdataAt, a.rdata)
  }

  lemma RecordBack(buf: seq<U8>, pos: nat, a: Answer)
    requires At(buf, pos, RecordBytes(a)) && Sendable(a)
    ensures RecordAt(buf, pos) == Some((Told(a, pos), pos + |RecordBytes(a)|)) && ReadAs(buf, Told(a, pos), a)
  {
    hide At, U16At, U32At, Name, EncodeName, Encodable, RecordTail;
    var p := pos + |EncodeName(a.name)|;
    AtSplit(buf, pos, EncodeName(a.name), RecordTail(a));
    NameBack(buf, pos, a.name);
    TailBack(buf, p, a);
    AtBounds(buf, p + 10, a.rdata);
  }

  lemma AtBounds(buf: seq<U8>, pos: nat, b: seq<U8>)
    requires At(buf, pos, b)
    ensures pos + |b| <= |buf| && buf[pos..pos + |b|] == b
  {
  }

  /** The records a packet of these answers holds, the first of them at `pos`. */
  function ToldAll(answers: seq<Answer>, pos: nat): (r: seq<Record>)
    ensures |r| == |answers|
  {
    if answers == [] then [] else [Told(answers[0], pos)] + ToldAll(answers[1..], pos + |RecordBytes(answers[0])|)
  }

  lemma {:induction false} RecordsBack(buf: seq<U8>, pos: nat, answers: seq<Answer>)
    requires At(buf, pos, Concat(AllBytes(answers))) && forall k :: 0 <= k < |answers| ==> Sendable(answers[k])
    ensures Records(buf, pos, |answers|) == Some(ToldAll(answers, pos))
    ensures forall k :: 0 <= k < |answers| ==> ReadAs(buf, ToldAll(answers, pos)[k], answers[k])
    decreases |answers|
  {
    hide At, RecordBytes, RecordAt, Sendable, ReadAs, Told, AllBytes;
    if answers != [] {
      var a, rest := answers[0], answers[1..];
      BytesOfFirst(answers);
      AtSplit(buf, pos, RecordBytes(a), Concat(AllBytes(rest)));
      RecordBack(buf, pos, a);
      RecordsBack(buf, pos + |RecordBytes(a)|, rest);
    }
  }

  lemma BytesOfFirst(answers: seq<Answer>)
    requires answers != []
    ensures Concat(AllBytes(answers)) == RecordBytes(answers[0]) + Concat(AllBytes(answers[1..]))
  {
    hide RecordBytes;
    assert AllBytes(answers)[1..] == AllBytes(answers[1..]);
  }

  lemma HeaderBack(buf: seq<U8>, id: U16, flags: U16, qd: U16, an: U16, ns: U16, ar: U16)
    requires At(buf, 0, Header(id, flags, qd, an, ns, ar))
    ensures Parse(buf) == Body(buf, qd, Total(an, ns, ar))
  {
    hide BigEndian, At, U16At, Body;
    var h := [id, flags, qd, an, ns, ar];
    AtSplit(buf, 0, BigEndian(id, 2), BigEndian(flags, 2) + (BigEndian(qd, 2) + (BigEndian(an, 2) + (BigEndian(ns, 2) + BigEndian(ar, 2)))));
    AtSplit(buf, 2, BigEndian(flags, 2), BigEndian(qd, 2) + (BigEndian(an, 2) + (BigEndian(ns, 2) + BigEndian(ar, 2))));
    AtSplit(buf, 4, BigEndian(qd, 2), BigEndian(an, 2) + (BigEndian(ns, 2) + BigEndian(ar, 2)));
    AtSplit(buf, 6, BigEndian(an, 2), BigEndian(ns, 2) + BigEndian(ar, 2));
    AtSplit(buf, 8, BigEndian(ns, 2), BigEndian(ar, 2));
    ShortBack(buf, 0, id);
    ShortBack(buf, 2, flags);
    ShortBack(buf, 4, qd);
    ShortBack(buf, 6, an);
    ShortBack(buf, 8, ns);
    ShortBack(buf, 10, ar);
    HeaderRead(buf, h);
  }

  datatype Ask = Ask(name: Text, qtype: U16, qclass: U16)

  function QuestionBytes(q: Ask): seq<U8> { EncodeName(q.name) + (BigEndian(q.qtype, 2) + BigEndian(q.qclass, 2)) }

  function AllAsked(asked: seq<Ask>): (r: seq<seq<U8>>)
    ensures |r| == |asked|
  {
    seq(|asked|, i requires 0 <= i < |asked| => QuestionBytes(asked[i]))
  }

  lemma QuestionBack(buf: seq<U8>, pos: nat, q: Ask)
    requires At(buf, pos, QuestionBytes(q)) && Encodable(q.name)
    ensures QuestionAt(buf, pos) == Some((Question(q.name, q.qtype), pos + |QuestionBytes(q)|))
  {
    hide At, U16At, Name, EncodeName, Encodable, BigEndian;
    var p := pos + |EncodeName(q.name)|;
    AtSplit(buf, pos, EncodeName(q.name), BigEndian(q.qtype, 2) + BigEndian(q.qclass, 2));
    AtSplit(buf, p, BigEndian(q.qtype, 2), BigEndian(q.qclass, 2));
    NameBack(buf, pos, q.name);
    ShortBack(buf, p, q.qtype);
    ShortBack(buf, p + 2, q.qclass);
  }

  lemma {:induction false} QuestionsBack(buf: seq<U8>, pos: nat, asked: seq<Ask>)
    requires At(buf, pos, Concat(AllAsked(asked))) && forall k :: 0 <= k < |asked| ==> Encodable(asked[k].name)
    ensures Questions(buf, pos, |asked|) == Some((AskedAs(asked), pos + |Concat(AllAsked(asked))|))
    decreases |asked|
  {
    hide At, QuestionBytes, QuestionAt, Encodable;
    if asked != [] {
      var q, rest := asked[0], asked[1..];
      assert AllAsked(asked) == [QuestionBytes(q)] + AllAsked(rest);
      AtSplit(buf, pos, QuestionBytes(q), Concat(AllAsked(rest)));
      QuestionBack(buf, pos, q);
      QuestionsBack(buf, pos + |QuestionBytes(q)|, rest);
      assert AskedAs(asked) == [Question(q.name, q.qtype)] + AskedAs(rest);
    }
  }

  function AskedAs(asked: seq<Ask>): (r: seq<Question>)
    ensures |r| == |asked|
  {
    seq(|asked|, i requires 0 <= i < |asked| => Question(asked[i].name, asked[i].qtype))
  }

  /** A packet of all four sections, as section 4.1 of RFC 1035 lays it out. */
  function Packet(id: U16, flags: U16, asked: seq<Ask>, an: seq<Answer>, ns: seq<Answer>, ar: seq<Answer>): seq<U8> {
    Header(id, flags, |asked|, |an|, |ns|, |ar|)
    + (Concat(AllAsked(asked)) + (Concat(AllBytes(an)) + (Concat(AllBytes(ns)) + Concat(AllBytes(ar)))))
  }

  predicate Fits(asked: seq<Ask>, an: seq<Answer>, ns: seq<Answer>, ar: seq<Answer>) {
    && |asked| < 0x1_0000 && |an| < 0x1_0000 && |ns| < 0x1_0000 && |ar| < 0x1_0000
    && (forall k :: 0 <= k < |asked| ==> Encodable(asked[k].name))
    && (forall k :: 0 <= k < |an + ns + ar| ==> Sendable((an + ns + ar)[k]))
  }

  lemma {:induction false} ConcatAll(a: seq<Answer>, b: seq<Answer>)
    ensures Concat(AllBytes(a + b)) == Concat(AllBytes(a)) + Concat(AllBytes(b))
  {
    hide RecordBytes;
    if a == [] {
      assert a + b == b;
    } else {
      ConcatAll(a[1..], b);
      assert (a + b)[1..] == a[1..] + b;
      assert AllBytes(a + b) == [RecordBytes(a[0])] + AllBytes(a[1..] + b) && AllBytes(a) == [RecordBytes(a[0])] + AllBytes(a[1..]);
    }
  }

  lemma PacketRecords(asked: seq<Ask>, an: seq<Answer>, ns: seq<Answer>, ar: seq<Answer>, id: U16, flags: U16)
    requires Fits(asked, an, ns, ar)
    ensures var buf := Packet(id, flags, asked, an, ns, ar); var at := 12 + |Concat(AllAsked(asked))|;
      && Parse(buf) == Body(buf, |asked|, |an + ns + ar|)
      && Questions(buf, 12, |asked|) == Some((AskedAs(asked), at))
      && Records(buf, at, |an + ns + ar|) == Some(ToldAll(an + ns + ar, at))
      && forall k :: 0 <= k < |an + ns + ar| ==>
        ReadAs(buf, ToldAll(an + ns + ar, at)[k], (an + ns + ar)[k])
  {
    hide At, AllBytes, AllAsked, Parse, Body, Records, Questions, RecordBytes, Sendable, Encodable, ToldAll, Concat, BigEndian, ReadAs;
    var buf := Packet(id, flags, asked, an, ns, ar);
    WholeAt(buf);
    ConcatAll(an, ns);
    ConcatAll(an + ns, ar);
    Associate(Concat(AllBytes(an)), Concat(AllBytes(ns)), Concat(AllBytes(ar)));
    AtSplit(buf, 0, Header(id, flags, |asked|, |an|, |ns|, |ar|), Concat(AllAsked(asked)) + Concat(AllBytes(an + ns + ar)));
    AtSplit(buf, 12, Concat(AllAsked(asked)), Concat(AllBytes(an + ns + ar)));
    HeaderBack(buf, id, flags, |asked|, |an|, |ns|, |ar|);
    QuestionsBack(buf, 12, asked);
    RecordsBack(buf, 12 + |Concat(AllAsked(asked))|, an + ns + ar);
  }

  /**
    A packet of any four sections reads back as its questions in order and then the records of
    the other three, each with the place its data stands at. More than 64 questions or 128
    records are refused.
   */
  lemma PacketRoundTrip(id: U16, flags: U16, asked: seq<Ask>, an: seq<Answer>, ns: seq<Answer>, ar: seq<Answer>)
    requires Fits(asked, an, ns, ar)
    ensures var told := an + ns + ar; var buf := Packet(id, flags, asked, an, ns, ar); var m := Parse(buf);
      if |asked| > 64 || |told| > 128 then m == None
      else
        m.Some? && |m.value.questions| == |asked| && |m.value.records| == |told|
        && (forall k :: 0 <= k < |asked| ==> m.value.questions[k] == Question(asked[k].name, asked[k].qtype))
        && forall k :: 0 <= k < |told| ==> ReadAs(buf, m.value.records[k], told[k])
  {
    hide At, AllBytes, AllAsked, Parse, Records, Questions, Sendable, Encodable, ToldAll, Concat, Packet, Fits, ReadAs;
    PacketRecords(asked, an, ns, ar, id, flags);
  }

  /**
    A response of at most 128 records reads back as those records in order, each with the
    place its data stands at; one of more is refused.
   */
  lemma ResponseRoundTrip(answers: seq<Answer>)
    requires |answers| < 0x1_0000 && forall k :: 0 <= k < |answers| ==> Sendable(answers[k])
    ensures var buf := Response(AllBytes(answers)); var m := Parse(buf);
      if |answers| > MAX_RECORDS then m == None
      else
        m.Some? && m.value.questions == [] && |m.value.records| == |answers|
        && forall k :: 0 <= k < |answers| ==> ReadAs(buf, m.value.records[k], answers[k])
  {
    hide At, Parse, RecordBytes, Sendable, Encodable, BigEndian, ReadAs;
    assert answers + [] + [] == answers;
    PacketRoundTrip(0, 0x8400, [], answers, [], []);
    assert Concat(AllBytes(answers)) == [] + (Concat(AllBytes(answers)) + ([] + []));
  }

  // ------------------------------------------------- exactly which names come back ---

  function Kept(labels: seq<seq<U8>>): seq<seq<U8>> {
    if labels == [] then [] else (if labels[0] == [] then [] else [labels[0]]) + Kept(labels[1..])
  }

  function Sum(labels: seq<seq<U8>>): nat { if labels == [] then 0 else |labels[0]| + Sum(labels[1..]) }

  predicate Below192(labels: seq<seq<U8>>) { forall k :: 0 <= k < |labels| ==> |labels[k]| < 0xC0 }

  lemma {:induction false} KeptSame(labels: seq<seq<U8>>)
    requires Below192(labels) && AllText(labels)
    ensures EncodeLabels(Kept(labels)) == EncodeLabels(labels) && Sum(Kept(labels)) == Sum(labels)
    ensures Short(Kept(labels)) && AllText(Kept(labels))
    ensures |Kept(labels)| <= |labels| && (|Kept(labels)| == |labels| ==> Short(labels))
  {
    hide Utf8.Valid;
    if labels != [] {
      KeptSame(labels[1..]);
      var k := Kept(labels[1..]);
      if labels[0] != [] {
        assert ([labels[0]] + k)[1..] == k;
      } else {
        assert [] + k == k;
      }
    }
  }

  lemma {:induction false} JoinedLength(out: Text, labels: seq<seq<U8>>)
    requires Short(labels)
    ensures |Joined(out, labels)| == |out| + Sum(labels) + |labels| - if out == [] && labels != [] then 1 else 0
    decreases |labels|
  {
    if labels != [] {
      assert 0 < |labels[0]|;
      JoinedLength(Grown(out, labels[0]), labels[1..]);
    }
  }

  lemma {:induction false} SplitLength(n: Text)
    ensures Sum(Split(n)) + |Split(n)| == |n| + 1
    decreases |n|
  {
    hide Split, DotAt;
    SplitMore(n);
    if DotAt(n) < |n| {
      SplitLength(n[DotAt(n) + 1..]);
    }
  }

  lemma FirstDot(n: Text, i: nat)
    requires i <= |n| && (i < |n| ==> n[i] == DOT) && forall k :: 0 <= k < i ==> n[k] != DOT
    ensures DotAt(n) == i
  {
  }

  lemma {:induction false} SplitJoined(a: Text, b: Text)
    ensures Split(a + [DOT] + b) == Split(a) + Split(b)
    decreases |a|
  {
    hide DotAt;
    var n, i := a + [DOT] + b, DotAt(a);
    FirstDot(n, i);
    if i == |a| {
      assert n[..i] == a && n[i + 1..] == b;
    } else {
      assert n[..i] == a[..i] && n[i + 1..] == a[i + 1..] + [DOT] + b;
      SplitJoined(a[i + 1..], b);
      assert [a[..i]] + (Split(a[i + 1..]) + Split(b)) == ([a[..i]] + Split(a[i + 1..])) + Split(b);
    }
  }

  lemma {:induction false} PiecesFit(n: Text)
    ensures forall k :: 0 <= k < |Split(n)| ==> |Split(n)[k]| <= |n|
    decreases |n|
  {
    hide DotAt;
    if DotAt(n) < |n| {
      PiecesFit(n[DotAt(n) + 1..]);
    }
  }

  lemma {:induction false} LabelsBelow192(buf: seq<U8>, pos: nat, labels: seq<seq<U8>>, jumps: nat)
    requires Expands(buf, pos, labels, jumps)
    ensures Below192(labels)
    decreases jumps, |labels|
  {
    if IsPointer(buf[pos]) {
      LabelsBelow192(buf, Target(buf, pos), labels, jumps - 1);
    } else if buf[pos] != 0 {
      LabelsBelow192(buf, pos + 1 + buf[pos], labels[1..], jumps);
      assert labels == [labels[0]] + labels[1..] && |labels[0]| == buf[pos];
    }
  }

  /** Joining labels under 192 bytes leaves no piece between dots of 192 or more, dots inside labels or not. */
  lemma {:induction false} JoinedBelow192(out: Text, labels: seq<seq<U8>>)
    requires Below192(labels) && Below192(Split(out))
    ensures Below192(Split(Joined(out, labels)))
    decreases |labels|
  {
    hide Split;
    if labels != [] {
      PiecesFit(labels[0]);
      SplitJoined(out, labels[0]);
      assert |labels[0]| < 0xC0;
      JoinedBelow192(Grown(out, labels[0]), labels[1..]);
    }
  }

  lemma SplitNothing()
    ensures Below192(Split([]))
  {
  }

  /** A name takes at most two octets more than its text. */
  lemma EncodedLength(n: Text)
    ensures |EncodeName(n)| <= |n| + 2
  {
    LabelsLength(Split(n));
    SplitLength(n);
  }

  lemma {:induction false} LabelsLength(labels: seq<seq<U8>>)
    ensures |EncodeLabels(labels)| <= Sum(labels) + |labels|
  {
    if labels != [] {
      LabelsLength(labels[1..]);
    }
  }

  lemma EncodableLength(n: Text)
    requires Encodable(n)
    ensures |n| <= 255
  {
  }

  /**
    A name comes back as it was exactly when it has at most 255 bytes and either is the root, the
    empty name, or has no empty label and none of 192 bytes or more, which would read as a
    pointer or lose its length's high part.
   */
  lemma NameRoundTrip(n: Text)
    requires Utf8.Valid(n)
    ensures Name(EncodeName(n), 0) == Some((n, |EncodeName(n)|)) <==> Encodable(n)
  {
    hide At, Utf8.Valid, NameFrom, After, Expands, Split, Kept, EncodeLabels, Joined, Short, AllText, Below192;
    var buf := EncodeName(n);
    WholeAt(buf);
    if Encodable(n) {
      NameBack(buf, 0, n);
    }
    if NameFrom(buf, 0, 0, []) == Some(n) {
      var labels, jumps := ReadsExpansion(buf, 0, 0, []);
      LabelsBelow192(buf, 0, labels, jumps);
      SplitNothing();
      JoinedBelow192([], labels);
      SplitIsText(n);
      KeptSame(Split(n));
      LabelsExpand(buf, 0, Kept(Split(n)));
      ExpansionUnique(buf, 0, labels, jumps, Kept(Split(n)), 0);
      JoinedLength([], Kept(Split(n)));
      SplitLength(n);
    }
  }

  // ---------------------------------------------------- exactly which queries ask it ---

  /** The labels before the first empty one. */
  function Leading(labels: seq<seq<U8>>): seq<seq<U8>> {
    if labels == [] || labels[0] == [] then [] else [labels[0]] + Leading(labels[1..])
  }

  lemma {:induction false} LeadingPart(labels: seq<seq<U8>>)
    ensures Sum(Leading(labels)) + |Leading(labels)| <= Sum(labels) + |labels|
    ensures Sum(Leading(labels)) + |Leading(labels)| == Sum(labels) + |labels| ==> Leading(labels) == labels
    ensures forall k :: 0 <= k < |Leading(labels)| ==> Leading(labels)[k] != [] && Leading(labels)[k] in labels
  {
    if labels != [] && labels[0] != [] {
      LeadingPart(labels[1..]);
      assert Leading(labels)[1..] == Leading(labels[1..]);
      assert labels == [labels[0]] + labels[1..];
    }
  }

  /** An empty label ends the name where it stands. */
  lemma {:induction false} LeadingAt(buf: seq<U8>, pos: nat, labels: seq<seq<U8>>)
    requires At(buf, pos, QueryLabels(labels) + [0])
    ensures At(buf, pos, EncodeLabels(Leading(labels)) + [0])
    decreases |labels|
  {
    hide At;
    if labels != [] && labels[0] != [] {
      var head := [|labels[0]| % 0x100] + labels[0];
      var rest := Leading(labels[1..]);
      Associate(head, QueryLabels(labels[1..]), [0]);
      AtSplit(buf, pos, head, QueryLabels(labels[1..]) + [0]);
      LeadingAt(buf, pos + |head|, labels[1..]);
      assert ([labels[0]] + rest)[1..] == rest;
      AtJoin(buf, pos, head, EncodeLabels(rest) + [0]);
      Associate(head, EncodeLabels(rest), [0]);
    } else {
      assert [] + [0] == [0];
      assert labels != [] ==> QueryLabels(labels) + [0] == [0] + (labels[0] + QueryLabels(labels[1..]) + [0]);
      if labels != [] {
        AtSplit(buf, pos, [0], labels[0] + QueryLabels(labels[1..]) + [0]);
      }
    }
  }

  lemma AtJoin(buf: seq<U8>, pos: nat, a: seq<U8>, b: seq<U8>)
    requires At(buf, pos, a) && At(buf, pos + |a|, b)
    ensures At(buf, pos, a + b)
  {
  }

  lemma QuerySame(labels: seq<seq<U8>>)
    requires Short(labels)
    ensures QueryLabels(labels) == EncodeLabels(labels)
  {
    if labels != [] {
      QuerySame(labels[1..]);
    }
  }

  /** A query's name is read as asked exactly where the writer of records would have written the same. */
  lemma QueryName(buf: seq<U8>, pos: nat, n: Text)
    requires Utf8.Valid(n) && At(buf, pos, QueryLabels(Split(n)) + [0])
    ensures Name(buf, pos).Some? && Name(buf, pos).value.0 == n <==> Encodable(n)
    ensures Encodable(n) ==> Name(buf, pos).value.1 == pos + if n == [] then 1 else |QueryLabels(Split(n))| + 1
  {
    hide At, Utf8.Valid, NameFrom, After, Expands, Split, Leading, QueryLabels, EncodeLabels, Joined, AllText;
    LeadingAt(buf, pos, Split(n));
    if Encodable(n) {
      QueryNameRead(buf, pos, n);
    }
    if NameFrom(buf, pos, 0, []) == Some(n) {
      var labels, jumps := ReadsExpansion(buf, pos, 0, []);
      LabelsBelow192(buf, pos, labels, jumps);
      SplitNothing();
      JoinedBelow192([], labels);
      LeadingPart(Split(n));
      assert Short(Leading(Split(n)));
      LabelsExpand(buf, pos, Leading(Split(n)));
      ExpansionUnique(buf, pos, labels, jumps, Leading(Split(n)), 0);
      JoinedLength([], Leading(Split(n)));
      SplitLength(n);
      JoinedNothing();
    }
  }

  lemma JoinedNothing()
    ensures Joined([], []) == []
  {
  }

  lemma QueryNameRead(buf: seq<U8>, pos: nat, n: Text)
    requires Encodable(n) && At(buf, pos, QueryLabels(Split(n)) + [0])
    ensures Name(buf, pos) == Some((n, pos + if n == [] then 1 else |QueryLabels(Split(n))| + 1))
  {
    hide At, Utf8.Valid, Name, Split;
    if n == [] {
      RootSplit();
      LeadingAt(buf, pos, Split(n));
      assert EncodeName(n) == [0];
    } else {
      QuerySame(Split(n));
    }
    NameBack(buf, pos, n);
  }

  lemma RootSplit()
    ensures Split([]) == [[]] && Leading(Split([])) == [] && EncodeLabels(Split([])) == []
  {
    var none: seq<seq<U8>> := [[]];
    assert Split([]) == none && none[1..] == [];
  }

  /**
    A query reads back as the one question it puts, for that service's pointers, exactly when the
    service has a name at all, of no empty label, none of 192 bytes or more, and at most 255
    bytes. An empty label would end the name early, and what follows would be read as the type.
   */
  lemma QueryRoundTrip(service: Text, unicast: bool)
    requires Utf8.Valid(service)
    ensures Parse(Query(service, unicast)) == Some(Message([Question(service, 12)], [])) <==> service != [] && Encodable(service)
  {
    hide At, Utf8.Valid, Name, Split, QueryLabels, BigEndian, U16At, Parse, Encodable, Body, Header;
    var buf, name := Query(service, unicast), QueryLabels(Split(service)) + [0];
    var tail := BigEndian(TYPE_PTR, 2) + BigEndian(if unicast then 0x8001 else 1, 2);
    WholeAt(buf);
    AtSplit(buf, 0, Header(0, 0, 1, 0, 0, 0), name + tail);
    AtSplit(buf, 12, name, tail);
    HeaderBack(buf, 0, 0, 1, 0, 0, 0);
    OneQuestion(buf);
    QueryName(buf, 12, service);
    if service == [] {
      TwoOctets(TYPE_PTR);
      RootAsked(buf, tail);
    } else {
      AtSplit(buf, 12 + |name|, BigEndian(TYPE_PTR, 2), BigEndian(if unicast then 0x8001 else 1, 2));
      ShortBack(buf, 12 + |name|, TYPE_PTR);
      ShortBack(buf, 12 + |name| + 2, if unicast then 0x8001 else 1);
    }
  }

  lemma OneQuestion(buf: seq<U8>)
    ensures match QuestionAt(buf, 12)
      case None => Body(buf, 1, 0) == None
      case Some((q, _)) => Body(buf, 1, 0) == Some(Message([q], []))
  {
    hide QuestionAt;
    if QuestionAt(buf, 12).Some? {
      var (q, p) := QuestionAt(buf, 12).value;
      assert Questions(buf, p, 0) == Some(([], p));
      assert [q] + [] == [q];
    }
  }

  lemma RootAsked(buf: seq<U8>, tail: seq<U8>)
    requires |tail| == 4 && tail[0] == 0 && At(buf, 12, QueryLabels(Split([])) + [0]) && At(buf, 12 + |QueryLabels(Split([])) + [0]|, tail)
    ensures Name(buf, 12) == Some(([], 13)) && U16At(buf, 13) == Some((0, 15))
  {
    RootSplit();
    assert QueryLabels(Split([])) + [0] == [0, 0];
    assert buf[12..14] == [0, 0] && buf[12..14][0] == buf[12] && buf[12..14][1] == buf[13];
    assert buf[14..18] == tail && buf[14..18][0] == buf[14];
  }

  // --------------------------------------------------------------- octets by position ---

  lemma FourOctets(v: U32)
    ensures BigEndian(v, 4) == [v / 0x100_0000, v / 0x1_0000 % 0x100, v / 0x100 % 0x100, v % 0x100]
  {
    hide BigEndian;
    FourIsTwo(v);
    var high := v / 0x1_0000;
    TwoOctets(high);
    TwoOctets(v);
    assert high / 0x100 == v / 0x100_0000 && v / 0x100_0000 < 0x100;
  }

  /** What the reader skips stands where RFC 6762 puts it: a response says that it is one, authoritative, and how many answers follow. */
  lemma ResponseOctets(answers: seq<seq<U8>>)
    ensures var p := Response(answers);
      |p| >= 12 && p[..12] == [0, 0, 0x84, 0, 0, 0, |answers| / 0x100 % 0x100, |answers| % 0x100, 0, 0, 0, 0]
  {
    hide Header, Concat;
    HeaderIs(0, 0x8400, 0, |answers|, 0, 0);
    Slices(ResponseHeader(|answers|), Concat(answers));
  }

  /** A query has no flag and one question; its last octets ask for pointers, and its class whether to be told directly. */
  lemma QueryOctets(service: Text, unicast: bool)
    ensures var p := Query(service, unicast);
      && |p| >= 16 && p[..12] == [0, 0, 0, 0, 0, 1, 0, 0, 0, 0, 0, 0]
      && p[|p| - 4..] == [0, 12, if unicast then 0x80 else 0, 1]
  {
    hide Header, BigEndian, QueryLabels, Split;
    HeaderIs(0, 0, 1, 0, 0, 0);
    TwoOctets(TYPE_PTR);
    TwoOctets(if unicast then 0x8001 else 1);
    var head, name := Header(0, 0, 1, 0, 0, 0), QueryLabels(Split(service)) + [0];
    var tail := BigEndian(TYPE_PTR, 2) + BigEndian(if unicast then 0x8001 else 1, 2);
    Slices(head, name + tail);
    Associate(head, name, tail);
    Slices(head + name, tail);
  }

  lemma HeaderIs(id: U16, flags: U16, qd: nat, an: nat, ns: nat, ar: nat)
    ensures Header(id, flags, qd, an, ns, ar)
      == [id / 0x100, id % 0x100, flags / 0x100, flags % 0x100, qd / 0x100 % 0x100, qd % 0x100, an / 0x100 % 0x100, an % 0x100,
          ns / 0x100 % 0x100, ns % 0x100, ar / 0x100 % 0x100, ar % 0x100]
  {
    hide BigEndian;
    TwoOctets(id);
    TwoOctets(flags);
    TwoOctets(qd);
    TwoOctets(an);
    TwoOctets(ns);
    TwoOctets(ar);
  }

  /** Behind the name: the type, the class with its cache-flush bit on top, the lifetime, and the length of the data. */
  lemma RecordOctets(a: Answer)
    ensures RecordTail(a)[..10] == [a.rtype / 0x100, a.rtype % 0x100, if a.flush then 0x80 else 0, 1,
      a.ttl / 0x100_0000, a.ttl / 0x1_0000 % 0x100, a.ttl / 0x100 % 0x100, a.ttl % 0x100, |a.rdata| / 0x100 % 0x100, |a.rdata| % 0x100]
    ensures RecordTail(a)[10..] == a.rdata && RecordBytes(a) == EncodeName(a.name) + RecordTail(a)
  {
    hide BigEndian, EncodeName;
    TwoOctets(a.rtype);
    TwoOctets(if a.flush then 0x8001 else 0x0001);
    FourOctets(a.ttl);
    TwoOctets(|a.rdata|);
    var head := BigEndian(a.rtype, 2) + BigEndian(if a.flush then 0x8001 else 0x0001, 2) + BigEndian(a.ttl, 4) + BigEndian(|a.rdata|, 2);
    TailFlat(BigEndian(a.rtype, 2), BigEndian(if a.flush then 0x8001 else 0x0001, 2), BigEndian(a.ttl, 4), BigEndian(|a.rdata|, 2), a.rdata);
    Slices(head, a.rdata);
  }

  lemma TailFlat(a: seq<U8>, b: seq<U8>, c: seq<U8>, d: seq<U8>, e: seq<U8>)
    ensures a + (b + (c + (d + e))) == (a + b + c + d) + e
  {
  }

  // -------------------------------------------------------------------------- NSEC ---

  /** Whether a bitmap says a type exists; bits run from the most significant down. */
  function Bit(at: nat): bv8
    requires at < 8
  {
    0x80 >> at
  }

  predicate Says(bitmap: seq<bv8>, t: nat) { t / 8 < |bitmap| && bitmap[t / 8] & Bit(t % 8) != 0 }

  lemma BitsApart(b: bv8, i: nat, j: nat)
    requires i < 8 && j < 8
    ensures ((b | Bit(i)) & Bit(j) != 0) <==> (i == j || b & Bit(j) != 0)
  {
    BitValues(i);
    BitValues(j);
  }

  lemma BitValues(i: nat)
    requires i < 8
    ensures Bit(i) == if i == 0 then 0x80 else if i == 1 then 0x40 else if i == 2 then 0x20 else if i == 3 then 0x10
      else if i == 4 then 0x08 else if i == 5 then 0x04 else if i == 6 then 0x02 else 0x01
  {
  }

  function Highest(types: seq<U16>): (m: U16)
    ensures forall k :: 0 <= k < |types| ==> types[k] <= m
    ensures m == 0 || m in types
  {
    if types == [] then 0
    else
      var m := Highest(types[1..]);
      if types[0] > m then types[0] else m
  }

  /** The bitmap of `nsec_rdata`, its bits set in place: just long enough, and exactly the types given. */
  method Bitmap(types: seq<U16>) returns (bitmap: array<bv8>)
    ensures fresh(bitmap) && bitmap.Length == Highest(types) / 8 + 1
    ensures forall t: nat :: Says(bitmap[..], t) <==> t in types
  {
    hide Bit;
    var max := Highest(types);
    bitmap := new bv8[max / 8 + 1](_ => 0);
    forall t: nat ensures !Says(bitmap[..], t) {
      Blank(t);
    }
    for i := 0 to |types|
      invariant forall t: nat :: Says(bitmap[..], t) <==> t in types[..i]
    {
      var t := types[i];
      ghost var was := bitmap[..];
      bitmap[t / 8] := bitmap[t / 8] | Bit(t % 8);
      forall u: nat ensures Says(bitmap[..], u) <==> u in types[..i + 1] {
        SetOne(was, bitmap[..], t, u);
        assert types[..i + 1] == types[..i] + [t];
      }
    }
    assert types[..|types|] == types;
  }

  lemma Blank(t: nat)
    ensures 0 & Bit(t % 8) == 0
  {
    BitValues(t % 8);
  }

  lemma SetOne(was: seq<bv8>, now: seq<bv8>, t: nat, u: nat)
    requires t / 8 < |was| && now == was[t / 8 := was[t / 8] | Bit(t % 8)]
    ensures Says(now, u) <==> (u == t || Says(was, u))
  {
    BitsApart(was[t / 8], t % 8, u % 8);
    if u / 8 == t / 8 && u % 8 == t % 8 {
      assert u == 8 * (u / 8) + u % 8 && t == 8 * (t / 8) + t % 8;
    }
  }

  /** The bits of a bitmap as the bytes that carry them. */
  function Octets(bitmap: seq<bv8>): (b: seq<U8>)
    ensures |b| == |bitmap|
  {
    seq(|bitmap|, i requires 0 <= i < |bitmap| => bitmap[i] as int)
  }

  /** A bitmap for these types: as long as the highest needs, and exactly their bits. */
  ghost predicate IsBitmap(bitmap: seq<bv8>, types: seq<U16>) {
    |bitmap| == Highest(types) / 8 + 1 && forall t: nat :: Says(bitmap, t) <==> t in types
  }

  ghost predicate IsNsec(out: seq<U8>, next: Text, types: seq<U16>, bitmap: seq<bv8>) {
    IsBitmap(bitmap, types) && out == EncodeName(next) + [0, |bitmap| % 0x100] + Octets(bitmap)
  }

  /** One block from `at` to the end that section 4.1.2 of RFC 4034 allows: counted, of 1 to 32 octets, and with no zero octet last. */
  predicate IsBlock(out: seq<U8>, at: nat, window: U8) {
    && at + 2 < |out| && out[at] == window
    && 1 <= out[at + 1] <= 32 && |out| == at + 2 + out[at + 1]
    && out[|out| - 1] != 0
  }

  lemma ZeroOctet(b: bv8)
    requires forall i: nat :: i < 8 ==> b & Bit(i) == 0
    ensures b == 0
  {
    assert Bit(0) == 0x80 && Bit(1) == 0x40 && Bit(2) == 0x20 && Bit(3) == 0x10;
    assert Bit(4) == 0x08 && Bit(5) == 0x04 && Bit(6) == 0x02 && Bit(7) == 0x01;
    assert b & 0x80 == 0 && b & 0x40 == 0 && b & 0x20 == 0 && b & 0x10 == 0;
    assert b & 0x08 == 0 && b & 0x04 == 0 && b & 0x02 == 0 && b & 0x01 == 0;
  }

  /** The last octet of a bitmap has a bit set exactly when there is a type: the highest is in it. */
  lemma LastOctet(bitmap: seq<bv8>, types: seq<U16>)
    requires IsBitmap(bitmap, types)
    ensures bitmap[|bitmap| - 1] != 0 <==> types != []
  {
    if types == [] {
      forall i: nat | i < 8 ensures bitmap[0] & Bit(i) == 0 {
        assert !Says(bitmap, i);
      }
      ZeroOctet(bitmap[0]);
    } else {
      assert Highest(types) in types;
      assert Says(bitmap, Highest(types));
    }
  }

  lemma NoTypesNoBlock(next: Text, out: seq<U8>, bitmap: seq<bv8>)
    requires IsNsec(out, next, [], bitmap)
    ensures out == EncodeName(next) + [0, 1, 0]
  {
    hide Says, Bit;
    LastOctet(bitmap, []);
    assert Octets(bitmap) == [0];
  }

  lemma BlockWhen(next: Text, types: seq<U16>, out: seq<U8>, bitmap: seq<bv8>)
    requires IsNsec(out, next, types, bitmap)
    ensures IsBlock(out, |EncodeName(next)|, 0) <==> types != [] && forall t :: t in types ==> t < 0x100
  {
    hide Says, Bit, EncodeName;
    LastOctet(bitmap, types);
    var at := |EncodeName(next)|;
    assert out[at] == 0 && out[at + 1] == |bitmap| % 0x100 && |out| == at + 2 + |bitmap|;
    assert out[|out| - 1] == Octets(bitmap)[|bitmap| - 1] == bitmap[|bitmap| - 1] as int;
    assert Highest(types) < 0x100 <==> forall t :: t in types ==> t < 0x100;
  }

  /**
    A next name and one block of window 0. The block is one the standard allows exactly when
    there is a type and every type is below 256; for no types it is the zero octet the standard
    forbids, and past 255 its length is out of range.
   */
  method NsecRdata(next: Text, types: seq<U16>) returns (out: seq<U8>)
    ensures exists bitmap: seq<bv8> :: IsNsec(out, next, types, bitmap)
    ensures IsBlock(out, |EncodeName(next)|, 0) <==> types != [] && forall t :: t in types ==> t < 0x100
    ensures types == [] ==> out == EncodeName(next) + [0, 1, 0]
  {
    hide Bit, Says, IsBlock, EncodeName;
    out := WriteName(next);
    var bits := Bitmap(types);
    out := out + [0, bits.Length % 0x100] + Octets(bits[..]);
    assert IsNsec(out, next, types, bits[..]);
    BlockWhen(next, types, out, bits[..]);
    if types == [] {
      NoTypesNoBlock(next, out, bits[..]);
    }
  }
}
