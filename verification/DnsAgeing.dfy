/**
  Lifetimes of DNS answers and the ageing of a stored answer (src/cache/dns.rs).
 */
module DnsAgeing {
  import opened Common
  import opened DnsWire

  // ----- the smallest TTL ------------------------------------------------------------------------

  function MinTtl(m: Bytes, records: seq<Record>): Option<nat>
    requires AllFit(m, records)
  {
    if records == [] then None
    else
      var last := |records| - 1;
      var before := MinTtl(m, records[..last]);
      if !IsReal(m, records[last]) then before
      else Some(if before.None? then Ttl(m, records[last]) else Min(before.value, Ttl(m, records[last])))
  }

  /** The smallest TTL of all real records, in seconds, if it is positive. */
  function MinRrTtl(m: Bytes): Option<nat> {
    match Records(m)
    case None => None
    case Some(records) => if MinTtl(m, records) == Some(0) then None else MinTtl(m, records)
  }

  /** The head of every record loop: skip the name, then check the fixed part and the data. */
  method NextRecord(m: Bytes, offset: nat) returns (r: Option<Record>)
    ensures r == ReadRecord(m, offset)
  {
    var at := SkipNameLoop(m, offset);
    if at.None? || |m| < at.value + 10 { return None; }
    var next := at.value + 10 + U16(m, at.value + 8);
    if next > |m| { return None; }
    return Some(Record(at.value, next));
  }

  method MinTtlFrom(m: Bytes, start: nat, n: nat) returns (ok: bool, min: Option<nat>)
    ensures ok == ReadRecords(m, start, n).Some?
    ensures ok ==> min == MinTtl(m, ReadRecords(m, start, n).value)
  {
    var offset, i := start, 0;
    ok, min := true, None;
    ghost var done: seq<Record> := [];
    ReadingStarts(m, start, n);
    while i < n
      invariant i <= n && Reading(m, start, n, done, offset, n - i)
      invariant min == MinTtl(m, done)
    {
      ReadingOn(m, start, n, done, offset, n - i);
      var r := NextRecord(m, offset);
      if r.None? { return false, None; }
      if U16(m, r.value.at) != EDNS0_TYPE {
        var ttl := U32(m, r.value.at + 4);
        min := Some(if min.None? then ttl else Min(min.value, ttl));
      }
      done, offset, i := done + [r.value], r.value.next, i + 1;
    }
    ReadingEnds(m, start, n, done, offset);
  }

  method MinRrTtlLoop(m: Bytes) returns (r: Option<nat>)
    ensures r == MinRrTtl(m)
  {
    if |m| < 12 { return None; }
    var start := SkipQuestionsLoop(m, 12, U16(m, 4));
    if start.None? { return None; }
    var ok, min := MinTtlFrom(m, start.value, U16(m, 6) + U16(m, 8) + U16(m, 10));
    return if !ok || min == Some(0) then None else min;
  }

  // ----- ageing ----------------------------------------------------------------------------------------

  ghost predicate RealAt(m: Bytes, records: seq<Record>, k: int) {
    0 <= k < |records| && Fits(m, records[k]) && IsReal(m, records[k])
  }

  ghost predicate HasReal(m: Bytes, records: seq<Record>) {
    exists k :: RealAt(m, records, k)
  }

  /** Every real TTL outlasts `e` seconds. */
  ghost predicate Outlast(m: Bytes, records: seq<Record>, e: nat)
    requires AllFit(m, records)
  {
    forall k :: RealAt(m, records, k) ==> Ttl(m, records[k]) > e
  }

  lemma RealSnoc(m: Bytes, records: seq<Record>)
    requires AllFit(m, records) && records != []
    ensures var last := |records| - 1;
            forall k :: RealAt(m, records, k) <==> RealAt(m, records[..last], k) || (k == last && IsReal(m, records[last]))
  {
  }

  lemma {:induction false} MinTtlMeaning(m: Bytes, records: seq<Record>, e: nat)
    requires AllFit(m, records)
    ensures MinTtl(m, records).Some? <==> HasReal(m, records)
    ensures MinTtl(m, records).Some? ==> (MinTtl(m, records).value > e <==> Outlast(m, records, e))
    decreases |records|
  {
    if records != [] {
      var last := |records| - 1;
      MinTtlMeaning(m, records[..last], e);
      RealSnoc(m, records);
      if IsReal(m, records[last]) { assert RealAt(m, records, last); }
    }
  }

  lemma LastDigit(a: nat, x: byte, b: nat, y: byte)
    requires a * 256 + x == b * 256 + y
    ensures a == b && x == y
  {
  }

  /** Byte strings of one length that stand for the same number are equal. */
  lemma {:induction false} ValueIsInjective(x: Bytes, y: Bytes)
    requires |x| == |y| && Value(x) == Value(y)
    ensures x == y
    decreases |x|
  {
    if x != [] {
      var last := |x| - 1;
      LastDigit(Value(x[..last]), x[last], Value(y[..last]), y[last]);
      ValueIsInjective(x[..last], y[..last]);
      assert x == x[..last] + [x[last]] && y == y[..last] + [y[last]];
    }
  }

  /** The four bytes of a number, most significant first. */
  function Quad(v: nat): (r: Bytes)
    requires v <= U32_MAX
    ensures |r| == 4 && Value(r) == v
  {
    var r: Bytes := [v / 256 / 256 / 256, v / 256 / 256 % 256, v / 256 % 256, v % 256];
    ValueOfFour(r);
    r
  }

  function PutU32(m: Bytes, i: nat, v: nat): (r: Bytes)
    requires i + 4 <= |m| && v <= U32_MAX
    ensures |r| == |m|
  {
    var q := Quad(v);
    m[i := q[0]][i + 1 := q[1]][i + 2 := q[2]][i + 3 := q[3]]
  }

  lemma PutU32Is(m: Bytes, i: nat, v: nat)
    requires i + 4 <= |m| && v <= U32_MAX
    ensures U32(PutU32(m, i, v), i) == v
    ensures forall j :: 0 <= j < |m| && !(i <= j < i + 4) ==> PutU32(m, i, v)[j] == m[j]
  {
    assert PutU32(m, i, v)[i..i + 4] == Quad(v);
  }

  function Stamp(m: Bytes, id: nat): (r: Bytes)
    requires |m| >= 2 && id < 0x1_0000
    ensures |r| == |m| && U16(r, 0) == id
  {
    m[0 := id / 0x100][1 := id % 0x100]
  }

  /** `saturating_sub` */
  function Left(ttl: nat, e: nat): nat {
    if ttl <= e then 0 else ttl - e
  }

  /** The buffer with the record's TTL reduced, if it is a real one. */
  function Reduce(m: Bytes, r: Record, e: nat, buffer: Bytes): (out: Bytes)
    requires Fits(m, r) && |buffer| == |m|
    ensures |out| == |m|
  {
    if IsReal(m, r) then PutU32(buffer, r.at + 4, Left(Ttl(m, r), e)) else buffer
  }

  /** The message with the query's id and every real TTL reduced by `e`. */
  function Rewrite(m: Bytes, records: seq<Record>, e: nat, id: nat): (r: Bytes)
    requires |m| >= 2 && id < 0x1_0000 && AllFit(m, records)
    ensures |r| == |m|
    decreases |records|
  {
    if records == [] then Stamp(m, id)
    else var last := |records| - 1; Reduce(m, records[last], e, Rewrite(m, records[..last], e, id))
  }

  /** The aged message, if the records could be read, one is real and none is spent. */
  ghost function Outcome(m: Bytes, records: Option<seq<Record>>, e: nat, id: nat): Option<Bytes>
    requires |m| >= 2 && id < 0x1_0000 && (records.Some? ==> AllFit(m, records.value))
  {
    if records.Some? && HasReal(m, records.value) && Outlast(m, records.value, e)
    then Some(Rewrite(m, records.value, e, id)) else None
  }

  ghost function Age(m: Bytes, secs: nat, id: nat): Option<Bytes>
    requires id < 0x1_0000
  {
    if |m| < 12 then None else Outcome(m, Records(m), Min(secs, U32_MAX), id)
  }

  /** Ageing succeeds exactly while the elapsed seconds stay below the smallest TTL. */
  lemma AgeSucceedsExactly(m: Bytes, secs: nat, id: nat)
    requires id < 0x1_0000
    ensures Age(m, secs, id).Some? <==> MinRrTtl(m).Some? && secs < MinRrTtl(m).value
  {
    match Records(m)
    case None =>
    case Some(records) =>
      MinTtlMeaning(m, records, Min(secs, U32_MAX));
      MinTtlBound(m, records);
  }

  lemma {:induction false} MinTtlBound(m: Bytes, records: seq<Record>)
    requires AllFit(m, records)
    ensures MinTtl(m, records).Some? ==> MinTtl(m, records).value <= U32_MAX
    decreases |records|
  {
    if records != [] { MinTtlBound(m, records[..|records| - 1]); }
  }

  ghost predicate InTtl(m: Bytes, records: seq<Record>, i: int) {
    exists k :: RealAt(m, records, k) && records[k].at + 4 <= i < records[k].at + 8
  }

  ghost predicate Untouched(m: Bytes, records: seq<Record>, out: Bytes, i: nat)
    requires i < |m| == |out|
  {
    InTtl(m, records, i) || out[i] == m[i]
  }

  /** What ageing promises of its result. */
  ghost predicate IsAged(m: Bytes, records: seq<Record>, e: nat, id: nat, out: Bytes)
    requires AllFit(m, records)
  {
    && |out| == |m| >= 2 && U16(out, 0) == id
    && (forall k :: RealAt(m, records, k) ==> Ttl(out, records[k]) == Ttl(m, records[k]) - e)
    && (forall i :: 2 <= i < |m| ==> Untouched(m, records, out, i))
  }

  lemma SameTtl(x: Bytes, y: Bytes, r: Record)
    requires Fits(x, r) && Fits(y, r) && x[r.at + 4..r.at + 8] == y[r.at + 4..r.at + 8]
    ensures Ttl(x, r) == Ttl(y, r)
  {
  }

  /** A TTL written behind a record leaves that record's TTL alone. */
  lemma PutBehind(out: Bytes, r: Record, next: Record, ttl: nat)
    requires Fits(out, r) && Fits(out, next) && r.next < next.at && ttl <= U32_MAX
    ensures Ttl(PutU32(out, next.at + 4, ttl), r) == Ttl(out, r)
  {
    var out1 := PutU32(out, next.at + 4, ttl);
    PutU32Is(out, next.at + 4, ttl);
    assert out1[r.at + 4..r.at + 8] == out[r.at + 4..r.at + 8];
  }

  /** One more rewritten TTL, behind all the others. */
  lemma PutIsAged(m: Bytes, records: seq<Record>, e: nat, id: nat, out: Bytes, ttl: nat)
    requires |m| >= 2 && records != [] && Laid(m, records, 2) && ttl <= U32_MAX
    requires IsReal(m, records[|records| - 1]) && ttl == Ttl(m, records[|records| - 1]) - e
    requires IsAged(m, records[..|records| - 1], e, id, out)
    ensures IsAged(m, records, e, id, PutU32(out, records[|records| - 1].at + 4, ttl))
  {
    var last := |records| - 1;
    var before, r := records[..last], records[last];
    RealSnoc(m, records);
    var out1 := PutU32(out, r.at + 4, ttl);
    PutU32Is(out, r.at + 4, ttl);
    forall k | RealAt(m, records, k) ensures Ttl(out1, records[k]) == Ttl(m, records[k]) - e {
      if k < last {
        assert RealAt(m, before, k) && before[k] == records[k];
        PutBehind(out, records[k], r, ttl);
      }
    }
    forall i | 2 <= i < |m| ensures Untouched(m, records, out1, i) {
      assert Untouched(m, before, out, i);
    }
  }

  lemma SkipIsAged(m: Bytes, records: seq<Record>, e: nat, id: nat, out: Bytes)
    requires records != [] && AllFit(m, records) && !IsReal(m, records[|records| - 1])
    requires IsAged(m, records[..|records| - 1], e, id, out)
    ensures IsAged(m, records, e, id, out)
  {
    var before := records[..|records| - 1];
    RealSnoc(m, records);
    forall k | RealAt(m, records, k) ensures Ttl(out, records[k]) == Ttl(m, records[k]) - e {
      assert RealAt(m, before, k) && before[k] == records[k];
    }
    forall i | 2 <= i < |m| ensures Untouched(m, records, out, i) {
      assert Untouched(m, before, out, i);
    }
  }

  lemma StampIsAged(m: Bytes, e: nat, id: nat)
    requires |m| >= 2 && id < 0x1_0000
    ensures IsAged(m, [], e, id, Stamp(m, id))
  {
    forall i | 2 <= i < |m| ensures Untouched(m, [], Stamp(m, id), i) {}
  }

  lemma ReduceIsAged(m: Bytes, records: seq<Record>, e: nat, id: nat, out: Bytes)
    requires |m| >= 2 && records != [] && Laid(m, records, 2) && Outlast(m, records, e)
    requires IsAged(m, records[..|records| - 1], e, id, out)
    ensures IsAged(m, records, e, id, Reduce(m, records[|records| - 1], e, out))
  {
    var last := |records| - 1;
    if IsReal(m, records[last]) {
      assert RealAt(m, records, last);
      PutIsAged(m, records, e, id, out, Ttl(m, records[last]) - e);
    } else {
      SkipIsAged(m, records, e, id, out);
    }
  }

  lemma LaidPrefix(m: Bytes, records: seq<Record>, offset: nat)
    requires Laid(m, records, offset) && records != []
    ensures Laid(m, records[..|records| - 1], offset)
  {
  }

  lemma {:induction false} RewriteIsAged(m: Bytes, records: seq<Record>, e: nat, id: nat)
    requires |m| >= 2 && id < 0x1_0000 && Laid(m, records, 2) && Outlast(m, records, e)
    ensures IsAged(m, records, e, id, Rewrite(m, records, e, id))
    decreases |records|
  {
    if records == [] {
      StampIsAged(m, e, id);
    } else {
      LaidPrefix(m, records, 2);
      RewriteIsAged(m, records[..|records| - 1], e, id);
      ReduceIsAged(m, records, e, id, Rewrite(m, records[..|records| - 1], e, id));
    }
  }

  lemma AgedByteIsUnique(m: Bytes, records: seq<Record>, e: nat, id: nat, x: Bytes, y: Bytes, i: nat)
    requires AllFit(m, records) && IsAged(m, records, e, id, x) && IsAged(m, records, e, id, y) && 2 <= i < |m|
    ensures x[i] == y[i]
  {
    if InTtl(m, records, i) {
      var k :| RealAt(m, records, k) && records[k].at + 4 <= i < records[k].at + 8;
      var r := records[k];
      assert Ttl(x, r) == Ttl(y, r);
      ValueIsInjective(x[r.at + 4..r.at + 8], y[r.at + 4..r.at + 8]);
      assert x[i] == x[r.at + 4..r.at + 8][i - r.at - 4] && y[i] == y[r.at + 4..r.at + 8][i - r.at - 4];
    } else {
      assert Untouched(m, records, x, i) && Untouched(m, records, y, i);
    }
  }

  /** The promise leaves nothing open. */
  lemma AgedIsUnique(m: Bytes, records: seq<Record>, e: nat, id: nat, x: Bytes, y: Bytes)
    requires AllFit(m, records) && IsAged(m, records, e, id, x) && IsAged(m, records, e, id, y)
    ensures x == y
  {
    forall i | 0 <= i < |m| ensures x[i] == y[i] {
      if i >= 2 { AgedByteIsUnique(m, records, e, id, x, y, i); }
    }
  }

  // ----- the walk over an aged message -------------------------------------------------------------

  ghost predicate Same(m: Bytes, x: Bytes, lo: nat, hi: nat) {
    hi <= |m| == |x| && forall i :: lo <= i < hi ==> m[i] == x[i]
  }

  lemma {:induction false} SkipNameLocal(m: Bytes, x: Bytes, offset: nat)
    requires SkipName(m, offset).Some? && Same(m, x, offset, SkipName(m, offset).value)
    ensures SkipName(x, offset) == SkipName(m, offset)
    decreases |m| - offset
  {
    if m[offset] != 0 && m[offset] < 0xC0 { SkipNameLocal(m, x, offset + 1 + m[offset]); }
  }

  lemma {:induction false} SkipQuestionsLocal(m: Bytes, x: Bytes, offset: nat, count: nat)
    requires SkipQuestions(m, offset, count).Some? && SkipQuestions(m, offset, count).value <= |m|
    requires Same(m, x, offset, SkipQuestions(m, offset, count).value)
    ensures SkipQuestions(x, offset, count) == SkipQuestions(m, offset, count)
    decreases count
  {
    if count > 0 {
      SkipNameLocal(m, x, offset);
      SkipQuestionsLocal(m, x, SkipName(m, offset).value + 4, count - 1);
    }
  }

  /** Nothing before the first record's TTL, nor its type and length, is in a TTL field. */
  lemma FirstOutside(m: Bytes, records: seq<Record>, offset: nat, i: nat)
    requires Laid(m, records, offset) && records != []
    requires i < records[0].at + 4 || records[0].at + 8 <= i < records[0].next
    ensures !InTtl(m, records, i)
  {
  }

  lemma TailOutside(m: Bytes, records: seq<Record>, i: nat)
    requires AllFit(m, records) && records != [] && records[0].next <= i && InTtl(m, records, i)
    ensures InTtl(m, records[1..], i)
  {
    var k :| RealAt(m, records, k) && records[k].at + 4 <= i < records[k].at + 8;
    assert RealAt(m, records[1..], k - 1);
  }

  lemma ReadRecordLocal(m: Bytes, x: Bytes, offset: nat)
    requires ReadRecord(m, offset).Some? && |x| == |m|
    requires var r := ReadRecord(m, offset).value;
             Same(m, x, offset, r.at + 4) && Same(m, x, r.at + 8, r.at + 10)
    ensures ReadRecord(x, offset) == ReadRecord(m, offset)
    ensures IsReal(x, ReadRecord(m, offset).value) == IsReal(m, ReadRecord(m, offset).value)
  {
    SkipNameLocal(m, x, offset);
  }

  /** Reading the records does not depend on their TTL fields. */
  lemma {:induction false} ReadRecordsLocal(m: Bytes, x: Bytes, offset: nat, count: nat)
    requires ReadRecords(m, offset, count).Some? && |x| == |m|
    requires forall i :: offset <= i < |m| ==> Untouched(m, ReadRecords(m, offset, count).value, x, i)
    ensures ReadRecords(x, offset, count) == ReadRecords(m, offset, count)
    ensures var records := ReadRecords(m, offset, count).value;
            forall k :: RealAt(x, records, k) <==> RealAt(m, records, k)
    decreases count
  {
    if count > 0 {
      var records := ReadRecords(m, offset, count).value;
      var r := records[0];
      ReadRecordsLaid(m, offset, count);
      forall i | offset <= i < r.at + 4 || r.at + 8 <= i < r.at + 10 ensures m[i] == x[i] {
        FirstOutside(m, records, offset, i);
        assert Untouched(m, records, x, i);
      }
      ReadRecordLocal(m, x, offset);
      assert records[1..] == ReadRecords(m, r.next, count - 1).value;
      forall i | r.next <= i < |m| ensures Untouched(m, records[1..], x, i) {
        assert Untouched(m, records, x, i);
        if InTtl(m, records, i) { TailOutside(m, records, i); }
      }
      ReadRecordsLocal(m, x, r.next, count - 1);
      forall k ensures RealAt(x, records, k) <==> RealAt(m, records, k) {
        assert RealAt(x, records[1..], k - 1) <==> RealAt(m, records[1..], k - 1);
      }
    }
  }

  lemma BodyInside(m: Bytes)
    requires Records(m).Some? && Records(m).value != []
    ensures Laid(m, Records(m).value, Body(m).value)
  {
    ReadRecordsLaid(m, Body(m).value, U16(m, 6) + U16(m, 8) + U16(m, 10));
  }

  /** An aged message has the records of the original, at the same places. */
  lemma AgedKeepsRecords(m: Bytes, e: nat, id: nat, out: Bytes)
    requires Records(m).Some? && Records(m).value != [] && IsAged(m, Records(m).value, e, id, out)
    ensures Records(out) == Records(m)
    ensures forall k :: RealAt(out, Records(m).value, k) <==> RealAt(m, Records(m).value, k)
  {
    var records, start := Records(m).value, Body(m).value;
    BodyInside(m);
    forall i | 2 <= i < start ensures m[i] == out[i] {
      FirstOutside(m, records, start, i);
      assert Untouched(m, records, out, i);
    }
    SkipQuestionsLocal(m, out, 12, U16(m, 4));
    ReadRecordsLocal(m, out, start, U16(m, 6) + U16(m, 8) + U16(m, 10));
  }

  // ----- what ageing is for ---------------------------------------------------------------------------

  lemma RecordsLaid(m: Bytes)
    requires Records(m).Some?
    ensures Laid(m, Records(m).value, 12)
  {
    ReadRecordsLaid(m, Body(m).value, U16(m, 6) + U16(m, 8) + U16(m, 10));
  }

  /** An aged answer has the query's id, each real TTL reduced by the elapsed seconds and still
      at least one, and every other byte of the stored answer, OPT fields included. */
  lemma AgeIsExact(m: Bytes, secs: nat, id: nat)
    requires id < 0x1_0000 && Age(m, secs, id).Some?
    ensures Records(m).Some? && secs <= U32_MAX && IsAged(m, Records(m).value, secs, id, Age(m, secs, id).value)
    ensures forall k :: RealAt(m, Records(m).value, k) ==> Ttl(Age(m, secs, id).value, Records(m).value[k]) >= 1
  {
    AgeSucceedsExactly(m, secs, id);
    var records := Records(m).value;
    MinTtlBound(m, records);
    RecordsLaid(m);
    assert Laid(m, records, 2);
    RewriteIsAged(m, records, secs, id);
  }

  lemma AgedLifetime(m: Bytes, a: nat, id: nat)
    requires id < 0x1_0000 && Age(m, a, id).Some?
    ensures MinRrTtl(m).Some? && MinRrTtl(Age(m, a, id).value) == Some(MinRrTtl(m).value - a)
  {
    AgeSucceedsExactly(m, a, id);
    AgeIsExact(m, a, id);
    var records, out := Records(m).value, Age(m, a, id).value;
    MinTtlMeaning(m, records, 0);
    AgedKeepsRecords(m, a, id, out);
    AgedMin(m, out, records, a);
  }

  lemma {:induction false} AgedMin(m: Bytes, out: Bytes, records: seq<Record>, a: nat)
    requires AllFit(m, records) && AllFit(out, records)
    requires forall k :: RealAt(out, records, k) <==> RealAt(m, records, k)
    requires forall k :: RealAt(m, records, k) ==> Ttl(out, records[k]) == Ttl(m, records[k]) - a
    ensures MinTtl(out, records).Some? == MinTtl(m, records).Some?
    ensures MinTtl(m, records).Some? ==> MinTtl(out, records).value == MinTtl(m, records).value - a
    decreases |records|
  {
    if records != [] {
      var last := |records| - 1;
      RealSnoc(m, records);
      RealSnoc(out, records);
      forall k ensures RealAt(out, records[..last], k) <==> RealAt(m, records[..last], k) {
        assert RealAt(out, records, k) <==> RealAt(m, records, k);
      }
      forall k | RealAt(m, records[..last], k)
        ensures Ttl(out, records[..last][k]) == Ttl(m, records[..last][k]) - a
      {
        assert RealAt(m, records, k);
      }
      assert RealAt(out, records, last) <==> RealAt(m, records, last);
      AgedMin(m, out, records[..last], a);
    }
  }

  lemma AgedAgain(m: Bytes, records: seq<Record>, a: nat, b: nat, id1: nat, id2: nat, x: Bytes, y: Bytes)
    requires AllFit(m, records) && AllFit(x, records)
    requires IsAged(m, records, a, id1, x) && IsAged(x, records, b, id2, y)
    requires forall k :: RealAt(x, records, k) <==> RealAt(m, records, k)
    ensures IsAged(m, records, a + b, id2, y)
  {
    forall i | 2 <= i < |m| ensures Untouched(m, records, y, i) {
      assert Untouched(m, records, x, i) && Untouched(x, records, y, i);
      if InTtl(x, records, i) {
        var k :| RealAt(x, records, k) && records[k].at + 4 <= i < records[k].at + 8;
        assert RealAt(m, records, k);
      }
    }
  }

  /** Ageing an answer and ageing the result again is ageing it once by the sum. */
  lemma AgeTwice(m: Bytes, a: nat, b: nat, id1: nat, id2: nat)
    requires id1 < 0x1_0000 && id2 < 0x1_0000
    ensures Age(m, a + b, id2) == match Age(m, a, id1)
                                  case None => None
                                  case Some(out) => Age(out, b, id2)
  {
    AgeSucceedsExactly(m, a, id1);
    AgeSucceedsExactly(m, a + b, id2);
    match Age(m, a, id1)
    case None =>
    case Some(out) =>
      AgedLifetime(m, a, id1);
      AgeSucceedsExactly(out, b, id2);
      if Age(out, b, id2).Some? {
        AgeIsExact(m, a, id1);
        AgeIsExact(out, b, id2);
        AgeIsExact(m, a + b, id2);
        MinTtlMeaning(m, Records(m).value, 0);
        AgedKeepsRecords(m, a, id1, out);
        AgedAgain(m, Records(m).value, a, b, id1, id2, out, Age(out, b, id2).value);
        AgedIsUnique(m, Records(m).value, a + b, id2, Age(out, b, id2).value, Age(m, a + b, id2).value);
      }
  }
}
