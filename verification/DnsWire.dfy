/**
  DNS wire-format walks for the DoH cache (src/cache/dns.rs): names, questions and records.
  Functions give the meaning of the walks; methods are the program's loops.
 */
module DnsWire {
  import opened Common

  type Bytes = seq<byte>

  const EDNS0_TYPE := 41
  const SOA_TYPE := 6
  const U32_MAX := 0xFFFF_FFFF
  const SECOND := 1_000_000_000

  function U16(m: Bytes, i: nat): (v: nat)
    requires i + 2 <= |m|
    ensures v < 0x1_0000
  {
    m[i] as int * 256 + m[i + 1]
  }

  /** The number a big-endian byte string stands for. */
  function Value(b: Bytes): nat {
    if b == [] then 0 else Value(b[..|b| - 1]) * 256 + b[|b| - 1]
  }

  lemma ValueOfFour(b: Bytes)
    requires |b| == 4
    ensures Value(b) == ((b[0] as int * 256 + b[1]) * 256 + b[2]) * 256 + b[3]
  {
    assert b[..3][..2] == b[..2] && b[..2][..1] == b[..1] && b[..1][..0] == [];
    assert Value(b[..1]) == b[0];
    assert Value(b[..2]) == b[0] as int * 256 + b[1];
    assert Value(b[..3]) == (b[0] as int * 256 + b[1]) * 256 + b[2];
  }

  function U32(m: Bytes, i: nat): (v: nat)
    requires i + 4 <= |m|
    ensures v <= U32_MAX
  {
    ValueOfFour(m[i..i + 4]);
    Value(m[i..i + 4])
  }

  // ----- names ---------------------------------------------------------------------------------

  /** The offset just after the name at `offset`.  A length byte with its two high bits set
      starts a compression pointer, which ends the name. */
  function SkipName(m: Bytes, offset: nat): (r: Option<nat>)
    ensures r.Some? ==> offset < r.value <= |m|
    decreases |m| - offset
  {
    if offset >= |m| then None
    else if m[offset] == 0 then Some(offset + 1)
    else if m[offset] >= 0xC0 then if offset + 1 >= |m| then None else Some(offset + 2)
    else
      var next := offset + 1 + m[offset];
      if next > |m| then None else SkipName(m, next)
  }

  function Pointer(m: Bytes, offset: nat): nat
    requires offset + 1 < |m| && m[offset] >= 0xC0
  {
    U16(m, offset) - 0xC000
  }

  predicate Continues(m: Bytes, i: nat) {
    i < |m| && 0x80 <= m[i] <= 0xBF
  }

  /** Well-formed UTF-8 (table 3-7 of the Unicode Standard). */
  predicate Utf8(m: Bytes) {
    if m == [] then true
    else if m[0] < 0x80 then Utf8(m[1..])
    else if 0xC2 <= m[0] <= 0xDF then Continues(m, 1) && Utf8(m[2..])
    else if 0xE0 <= m[0] <= 0xEF then
      Continues(m, 1) && Continues(m, 2)
      && (m[0] == 0xE0 ==> m[1] >= 0xA0) && (m[0] == 0xED ==> m[1] <= 0x9F)
      && Utf8(m[3..])
    else if 0xF0 <= m[0] <= 0xF4 then
      Continues(m, 1) && Continues(m, 2) && Continues(m, 3)
      && (m[0] == 0xF0 ==> m[1] >= 0x90) && (m[0] == 0xF4 ==> m[1] <= 0x8F)
      && Utf8(m[4..])
    else false
  }

  function Lower(text: Bytes): Bytes {
    if text == [] then [] else [if 65 <= text[0] <= 90 then text[0] + 32 else text[0]] + Lower(text[1..])
  }

  datatype Name = Name(labels: seq<Bytes>, end: nat)

  /** The labels of the name at `offset`, after those in `labels`, following compression
      pointers at most eight deep; `end` is where the name ends at its own place. */
  function ReadName(m: Bytes, offset: nat, labels: seq<Bytes>, depth: nat): (r: Option<Name>)
    decreases 9 - depth, |m| - offset
  {
    if depth > 8 || offset >= |m| then None
    else if m[offset] == 0 then Some(Name(labels, offset + 1))
    else if m[offset] >= 0xC0 then
      if offset + 1 >= |m| then None
      else
        match ReadName(m, Pointer(m, offset), labels, depth + 1)
        case None => None
        case Some(name) => Some(Name(name.labels, offset + 2))
    else
      var next := offset + 1 + m[offset];
      if next > |m| || !Utf8(m[offset + 1..next]) then None
      else ReadName(m, next, labels + [Lower(m[offset + 1..next])], depth)
  }

  /** Whatever the pointers do, a name that can be read can be skipped, to the same place. */
  lemma {:induction false} ReadableIsSkippable(m: Bytes, offset: nat, labels: seq<Bytes>, depth: nat)
    requires ReadName(m, offset, labels, depth).Some?
    ensures SkipName(m, offset) == Some(ReadName(m, offset, labels, depth).value.end)
    decreases |m| - offset
  {
    if m[offset] != 0 && m[offset] < 0xC0 {
      var next := offset + 1 + m[offset];
      ReadableIsSkippable(m, next, labels + [Lower(m[offset + 1..next])], depth);
    }
  }

  /** The labels read so far stay in front of those still to come. */
  lemma {:induction false} LabelsAccumulate(m: Bytes, offset: nat, labels: seq<Bytes>, depth: nat)
    ensures match ReadName(m, offset, [], depth)
            case None => ReadName(m, offset, labels, depth) == None
            case Some(name) => ReadName(m, offset, labels, depth) == Some(Name(labels + name.labels, name.end))
    decreases 9 - depth, |m| - offset
  {
    if depth > 8 || offset >= |m| {
    } else if m[offset] == 0 {
      assert labels + [] == labels;
    } else if m[offset] >= 0xC0 {
      if offset + 1 < |m| {
        LabelsAccumulate(m, Pointer(m, offset), labels, depth + 1);
      }
    } else {
      var next := offset + 1 + m[offset];
      if next <= |m| {
        var text := Lower(m[offset + 1..next]);
        LabelsAccumulate(m, next, labels + [text], depth);
        LabelsAccumulate(m, next, [] + [text], depth);
        match ReadName(m, next, [], depth)
        case None =>
        case Some(name) => assert labels + [text] + name.labels == labels + ([] + [text] + name.labels);
      }
    }
  }

  method SkipNameLoop(m: Bytes, start: nat) returns (end: Option<nat>)
    ensures end == SkipName(m, start)
  {
    var offset := start;
    while true
      invariant SkipName(m, offset) == SkipName(m, start)
      decreases |m| - offset
    {
      if offset >= |m| { return None; }
      var len := m[offset];
      if len == 0 { return Some(offset + 1); }
      if len >= 0xC0 {
        if offset + 1 >= |m| { return None; }
        return Some(offset + 2);
      }
      offset := offset + 1 + len;
      if offset > |m| { return None; }
    }
  }

  method ReadNameLabels(m: Bytes, start: nat, before: seq<Bytes>, depth: nat) returns (r: Option<Name>)
    ensures r == ReadName(m, start, before, depth)
    decreases 9 - depth
  {
    if depth > 8 { return None; }
    var offset, labels := start, before;
    while true
      invariant ReadName(m, offset, labels, depth) == ReadName(m, start, before, depth)
      decreases |m| - offset
    {
      if offset >= |m| { return None; }
      var len := m[offset];
      if len == 0 { return Some(Name(labels, offset + 1)); }
      if len >= 0xC0 {
        if offset + 1 >= |m| { return None; }
        var inner := ReadNameLabels(m, Pointer(m, offset), labels, depth + 1);
        if inner.None? { return None; }
        return Some(Name(inner.value.labels, offset + 2));
      }
      var end := offset + 1 + len;
      if end > |m| || !Utf8(m[offset + 1..end]) { return None; }
      labels := labels + [Lower(m[offset + 1..end])];
      offset := end;
    }
  }

  // ----- records -------------------------------------------------------------------------------

  /** A record after its owner name: type, class, TTL, data length at `at`, the next one at `next`. */
  datatype Record = Record(at: nat, next: nat)

  predicate Fits(m: Bytes, r: Record) {
    r.at + 10 <= r.next <= |m|
  }

  predicate AllFit(m: Bytes, records: seq<Record>) {
    forall k :: 0 <= k < |records| ==> Fits(m, records[k])
  }

  function ReadRecord(m: Bytes, offset: nat): (r: Option<Record>)
    ensures r.Some? ==> offset < r.value.at && Fits(m, r.value)
  {
    match SkipName(m, offset)
    case None => None
    case Some(at) =>
      if |m| < at + 10 then None
      else
        var next := at + 10 + U16(m, at + 8);
        if next > |m| then None else Some(Record(at, next))
  }

  function ReadRecords(m: Bytes, offset: nat, count: nat): (r: Option<seq<Record>>)
    ensures r.Some? ==> |r.value| == count && AllFit(m, r.value)
    decreases count
  {
    if count == 0 then Some([])
    else
      match ReadRecord(m, offset)
      case None => None
      case Some(first) =>
        match ReadRecords(m, first.next, count - 1)
        case None => None
        case Some(rest) => Some([first] + rest)
  }

  function SkipQuestions(m: Bytes, offset: nat, count: nat): (r: Option<nat>)
    ensures r.Some? ==> offset <= r.value && (offset <= |m| ==> r.value <= |m|)
    decreases count
  {
    if count == 0 then Some(offset)
    else
      match SkipName(m, offset)
      case None => None
      case Some(end) => if end + 4 > |m| then None else SkipQuestions(m, end + 4, count - 1)
  }

  method SkipQuestionsLoop(m: Bytes, start: nat, count: nat) returns (end: Option<nat>)
    ensures end == SkipQuestions(m, start, count)
  {
    var offset: nat, i := start, 0;
    while i < count
      invariant i <= count && SkipQuestions(m, offset, count - i) == SkipQuestions(m, start, count)
    {
      var name := SkipNameLoop(m, offset);
      if name.None? || name.value + 4 > |m| { return None; }
      offset, i := name.value + 4, i + 1;
    }
    return Some(offset);
  }

  function Body(m: Bytes): (r: Option<nat>)
    ensures r.Some? ==> 12 <= r.value <= |m|
  {
    if |m| < 12 then None else SkipQuestions(m, 12, U16(m, 4))
  }

  /** All records of a message, in order. */
  function Records(m: Bytes): (r: Option<seq<Record>>)
    ensures r.Some? ==> |m| >= 12 && AllFit(m, r.value)
  {
    match Body(m)
    case None => None
    case Some(offset) => ReadRecords(m, offset, U16(m, 6) + U16(m, 8) + U16(m, 10))
  }

  predicate IsReal(m: Bytes, r: Record)
    requires Fits(m, r)
  {
    U16(m, r.at) != EDNS0_TYPE
  }

  function Ttl(m: Bytes, r: Record): (t: nat)
    requires Fits(m, r)
    ensures t <= U32_MAX
  {
    U32(m, r.at + 4)
  }

  /** Records in order, none overlapping, all behind `offset`. */
  ghost predicate Laid(m: Bytes, records: seq<Record>, offset: nat) {
    && AllFit(m, records)
    && (forall k :: 0 <= k < |records| ==> offset < records[k].at)
    && (forall j, k :: 0 <= j < k < |records| ==> records[j].next < records[k].at)
  }

  lemma {:induction false} ReadRecordsLaid(m: Bytes, offset: nat, count: nat)
    requires ReadRecords(m, offset, count).Some?
    ensures Laid(m, ReadRecords(m, offset, count).value, offset)
    decreases count
  {
    if count > 0 {
      var first := ReadRecord(m, offset).value;
      ReadRecordsLaid(m, first.next, count - 1);
    }
  }

  function Prepend(done: seq<Record>, rest: Option<seq<Record>>): Option<seq<Record>> {
    match rest
    case None => None
    case Some(more) => Some(done + more)
  }

  /** One turn of a record loop. */
  lemma ReadOneMore(m: Bytes, offset: nat, count: nat, done: seq<Record>)
    requires count > 0
    ensures match ReadRecord(m, offset)
            case None => Prepend(done, ReadRecords(m, offset, count)) == None
            case Some(r) => Prepend(done, ReadRecords(m, offset, count))
                            == Prepend(done + [r], ReadRecords(m, r.next, count - 1))
  {
    match ReadRecord(m, offset)
    case None =>
    case Some(r) =>
      match ReadRecords(m, r.next, count - 1)
      case None =>
      case Some(rest) => assert done + ([r] + rest) == done + [r] + rest;
  }

  /** A record loop has read `done` and is `left` records short of the end. */
  ghost predicate Reading(m: Bytes, start: nat, n: nat, done: seq<Record>, offset: nat, left: nat) {
    AllFit(m, done) && ReadRecords(m, start, n) == Prepend(done, ReadRecords(m, offset, left))
  }

  lemma ReadingStarts(m: Bytes, start: nat, n: nat)
    ensures Reading(m, start, n, [], start, n)
  {
    var all := ReadRecords(m, start, n);
    if all.Some? { assert [] + all.value == all.value; }
  }

  lemma ReadingOn(m: Bytes, start: nat, n: nat, done: seq<Record>, offset: nat, left: nat)
    requires Reading(m, start, n, done, offset, left) && left > 0
    ensures match ReadRecord(m, offset)
            case None => ReadRecords(m, start, n) == None
            case Some(r) => Reading(m, start, n, done + [r], r.next, left - 1)
  {
    ReadOneMore(m, offset, left, done);
  }

  lemma ReadingEnds(m: Bytes, start: nat, n: nat, done: seq<Record>, offset: nat)
    requires Reading(m, start, n, done, offset, 0)
    ensures ReadRecords(m, start, n) == Some(done)
  {
    assert done + [] == done;
  }
}
