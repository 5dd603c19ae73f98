/**
  The in-place ageing loop (src/cache/dns.rs): the walk reads the buffer it is rewriting and
  still ages the message that was stored.
 */
module DnsResponse {
  import opened Common
  import opened DnsWire
  import opened DnsAgeing

  // ----- ageing in place -----------------------------------------------------------------------------

  lemma {:induction false} SkipNameSuffix(m: Bytes, x: Bytes, offset: nat)
    requires Same(m, x, offset, |m|)
    ensures SkipName(x, offset) == SkipName(m, offset)
    decreases |m| - offset
  {
    if offset < |m| && m[offset] != 0 && m[offset] < 0xC0 && offset + 1 + m[offset] <= |m| {
      SkipNameSuffix(m, x, offset + 1 + m[offset]);
    }
  }

  lemma {:induction false} SkipQuestionsSuffix(m: Bytes, x: Bytes, offset: nat, count: nat)
    requires Same(m, x, offset, |m|)
    ensures SkipQuestions(x, offset, count) == SkipQuestions(m, offset, count)
    decreases count
  {
    if count > 0 {
      SkipNameSuffix(m, x, offset);
      if SkipName(m, offset).Some? { SkipQuestionsSuffix(m, x, SkipName(m, offset).value + 4, count - 1); }
    }
  }

  lemma ReadRecordSuffix(m: Bytes, x: Bytes, offset: nat)
    requires Same(m, x, offset, |m|)
    ensures ReadRecord(x, offset) == ReadRecord(m, offset)
    ensures match ReadRecord(m, offset)
            case None => true
            case Some(r) => U16(x, r.at) == U16(m, r.at) && Ttl(x, r) == Ttl(m, r)
  {
    SkipNameSuffix(m, x, offset);
    match ReadRecord(m, offset)
    case None =>
    case Some(r) => assert x[r.at + 4..r.at + 8] == m[r.at + 4..r.at + 8]; SameTtl(x, m, r);
  }

  /** Writes a number over four bytes of the buffer. */
  method Store(out: array<byte>, i: nat, v: nat)
    requires i + 4 <= out.Length && v <= U32_MAX
    modifies out
    ensures out[..] == PutU32(old(out[..]), i, v)
  {
    var q := Quad(v);
    out[i], out[i + 1], out[i + 2], out[i + 3] := q[0], q[1], q[2], q[3];
  }

  predicate Spent(m: Bytes, r: Record, e: nat)
    requires Fits(m, r)
  {
    IsReal(m, r) && Ttl(m, r) <= e
  }

  /** The buffer after a record's turn. */
  function Step(buffer: Bytes, r: Record, e: nat): (next: Bytes)
    requires Fits(buffer, r) && !Spent(buffer, r, e)
    ensures |next| == |buffer|
  {
    if IsReal(buffer, r) then PutU32(buffer, r.at + 4, Ttl(buffer, r) - e) else buffer
  }

  method AgeRecord(out: array<byte>, r: Record, e: nat) returns (ok: bool, isReal: bool)
    requires Fits(out[..], r)
    modifies out
    ensures ok == !Spent(old(out[..]), r, e) && isReal == IsReal(old(out[..]), r)
    ensures ok ==> out[..] == Step(old(out[..]), r, e)
  {
    ok, isReal := true, false;
    if U16(out[..], r.at) != EDNS0_TYPE {
      isReal := true;
      var ttl := U32(out[..], r.at + 4);
      if ttl <= e { return false, true; }
      Store(out, r.at + 4, ttl - e);
    }
  }

  /** The two messages agree from `offset` on. */
  ghost predicate Ahead(m: Bytes, x: Bytes, offset: nat) {
    offset <= |m| == |x| && m[offset..] == x[offset..]
  }

  /** The walk ahead of the rewriting sees the stored message. */
  lemma StepAhead(m: Bytes, buffer: Bytes, offset: nat, e: nat)
    requires Ahead(m, buffer, offset) && ReadRecord(m, offset).Some?
    ensures var r := ReadRecord(m, offset).value;
            && ReadRecord(buffer, offset) == Some(r)
            && IsReal(buffer, r) == IsReal(m, r) && Spent(buffer, r, e) == Spent(m, r, e)
    ensures var r := ReadRecord(m, offset).value;
            !Spent(m, r, e) ==>
              && Ahead(m, Step(buffer, r, e), r.next)
              && Step(buffer, r, e) == Reduce(m, r, e, buffer)
  {
    ReadRecordSuffix(m, buffer, offset);
    var r := ReadRecord(m, offset).value;
    if !Spent(m, r, e) {
      if IsReal(m, r) { PutU32Is(buffer, r.at + 4, Ttl(m, r) - e); }
    }
  }

  /** The records' TTLs reduced one after the other. */
  function Onto(m: Bytes, buffer: Bytes, records: seq<Record>, e: nat): (r: Bytes)
    requires AllFit(m, records) && |buffer| == |m|
    ensures |r| == |m|
    decreases |records|
  {
    if records == [] then buffer else Onto(m, Reduce(m, records[0], e, buffer), records[1..], e)
  }

  lemma {:induction false} OntoSnoc(m: Bytes, buffer: Bytes, records: seq<Record>, r: Record, e: nat)
    requires AllFit(m, records) && Fits(m, r) && |buffer| == |m|
    ensures AllFit(m, records + [r])
    ensures Onto(m, buffer, records + [r], e) == Reduce(m, r, e, Onto(m, buffer, records, e))
    decreases |records|
  {
    if records == [] {
      assert (records + [r])[1..] == [];
    } else {
      assert (records + [r])[1..] == records[1..] + [r];
      OntoSnoc(m, Reduce(m, records[0], e, buffer), records[1..], r, e);
    }
  }

  lemma {:induction false} OntoIsRewrite(m: Bytes, records: seq<Record>, e: nat, id: nat)
    requires |m| >= 2 && id < 0x1_0000 && AllFit(m, records)
    ensures Onto(m, Stamp(m, id), records, e) == Rewrite(m, records, e, id)
    decreases |records|
  {
    if records != [] {
      var last := |records| - 1;
      OntoIsRewrite(m, records[..last], e, id);
      OntoSnoc(m, Stamp(m, id), records[..last], records[last], e);
      assert records[..last] + [records[last]] == records;
    }
  }

  lemma HasRealCons(m: Bytes, r: Record, rest: seq<Record>)
    requires Fits(m, r) && AllFit(m, rest)
    ensures HasReal(m, [r] + rest) <==> IsReal(m, r) || HasReal(m, rest)
  {
    var all := [r] + rest;
    if HasReal(m, all) {
      var k :| RealAt(m, all, k);
      assert k > 0 ==> RealAt(m, rest, k - 1);
    }
    if IsReal(m, r) { assert RealAt(m, all, 0); }
    if HasReal(m, rest) {
      var k :| RealAt(m, rest, k);
      assert RealAt(m, all, k + 1);
    }
  }

  lemma OutlastCons(m: Bytes, r: Record, rest: seq<Record>, e: nat)
    requires Fits(m, r) && AllFit(m, rest)
    ensures AllFit(m, [r] + rest)
    ensures Outlast(m, [r] + rest, e) <==> !Spent(m, r, e) && Outlast(m, rest, e)
  {
    var all := [r] + rest;
    if Outlast(m, all, e) {
      assert IsReal(m, r) ==> RealAt(m, all, 0);
      forall k | RealAt(m, rest, k) ensures Ttl(m, rest[k]) > e { assert RealAt(m, all, k + 1); }
    }
    if !Spent(m, r, e) && Outlast(m, rest, e) {
      forall k | RealAt(m, all, k) ensures Ttl(m, all[k]) > e { assert k > 0 ==> RealAt(m, rest, k - 1); }
    }
  }

  /** What the records after `offset` make of the buffer. */
  ghost function TailOutcome(m: Bytes, buffer: Bytes, records: Option<seq<Record>>, e: nat, saw: bool): Option<Bytes>
    requires |buffer| == |m| && (records.Some? ==> AllFit(m, records.value))
  {
    if records.Some? && Outlast(m, records.value, e) && (saw || HasReal(m, records.value))
    then Some(Onto(m, buffer, records.value, e)) else None
  }

  lemma NothingLeft(m: Bytes, buffer: Bytes, offset: nat, e: nat, saw: bool)
    requires |buffer| == |m|
    ensures TailOutcome(m, buffer, ReadRecords(m, offset, 0), e, saw) == if saw then Some(buffer) else None
  {
    assert ReadRecords(m, offset, 0) == Some([]);
    assert !HasReal(m, []);
  }

  lemma TailOutcomeCons(m: Bytes, buffer: Bytes, r: Record, rest: Option<seq<Record>>, e: nat, saw: bool)
    requires |buffer| == |m| && Fits(m, r) && !Spent(m, r, e) && (rest.Some? ==> AllFit(m, rest.value))
    ensures rest.Some? ==> AllFit(m, [r] + rest.value)
    ensures TailOutcome(m, Reduce(m, r, e, buffer), rest, e, saw || IsReal(m, r))
            == TailOutcome(m, buffer, if rest.None? then None else Some([r] + rest.value), e, saw)
  {
    if rest.Some? {
      HasRealCons(m, r, rest.value);
      OutlastCons(m, r, rest.value, e);
      assert ([r] + rest.value)[1..] == rest.value;
    }
  }

  /** The record loop from a position on: it reads the stored message and rewrites the buffer. */
  function Walk(m: Bytes, buffer: Bytes, offset: nat, count: nat, e: nat, saw: bool): Option<Bytes>
    requires |buffer| == |m|
    decreases count
  {
    if count == 0 then if saw then Some(buffer) else None
    else
      match ReadRecord(m, offset)
      case None => None
      case Some(r) =>
        if Spent(m, r, e) then None
        else Walk(m, Reduce(m, r, e, buffer), r.next, count - 1, e, saw || IsReal(m, r))
  }

  /** The records from `offset` on make the buffer into `aged`. */
  ghost predicate WillBe(m: Bytes, buffer: Bytes, offset: nat, count: nat, e: nat, saw: bool, aged: Option<Bytes>) {
    |buffer| == |m| && TailOutcome(m, buffer, ReadRecords(m, offset, count), e, saw) == aged
  }

  lemma WillBeNext(m: Bytes, buffer: Bytes, offset: nat, count: nat, e: nat, saw: bool, aged: Option<Bytes>)
    requires WillBe(m, buffer, offset, count, e, saw, aged) && count > 0
    ensures match ReadRecord(m, offset)
            case None => aged == None
            case Some(r) =>
              if Spent(m, r, e) then aged == None
              else WillBe(m, Reduce(m, r, e, buffer), r.next, count - 1, e, saw || IsReal(m, r), aged)
  {
    var record := ReadRecord(m, offset);
    if record.None? || Spent(m, record.value, e) {
    } else {
      TailOutcomeCons(m, buffer, record.value, ReadRecords(m, record.value.next, count - 1), e, saw);
    }
  }

  lemma {:induction false} WalkOutcome(m: Bytes, buffer: Bytes, offset: nat, count: nat, e: nat, saw: bool,
                                       aged: Option<Bytes>)
    requires WillBe(m, buffer, offset, count, e, saw, aged)
    ensures Walk(m, buffer, offset, count, e, saw) == aged
    decreases count
  {
    if count == 0 {
      NothingLeft(m, buffer, offset, e, saw);
    } else {
      WillBeNext(m, buffer, offset, count, e, saw, aged);
      var record := ReadRecord(m, offset);
      if record.Some? && !Spent(m, record.value, e) {
        var r := record.value;
        WalkOutcome(m, Reduce(m, r, e, buffer), r.next, count - 1, e, saw || IsReal(m, r), aged);
      }
    }
  }

  /** The loop stands at `offset` with `left` records to go and will end with `aged`; ahead of
      it the buffer is still the stored message. */
  ghost predicate Due(m: Bytes, buffer: Bytes, offset: nat, left: nat, e: nat, saw: bool, aged: Option<Bytes>) {
    Ahead(m, buffer, offset) && Walk(m, buffer, offset, left, e, saw) == aged
  }

  lemma DueNext(m: Bytes, buffer: Bytes, offset: nat, left: nat, e: nat, saw: bool, aged: Option<Bytes>)
    requires Due(m, buffer, offset, left, e, saw, aged) && left > 0
    ensures match ReadRecord(buffer, offset)
            case None => aged == None
            case Some(r) =>
              if Spent(buffer, r, e) then aged == None
              else Due(m, Step(buffer, r, e), r.next, left - 1, e, saw || IsReal(buffer, r), aged)
  {
    ReadRecordSuffix(m, buffer, offset);
    if ReadRecord(m, offset).Some? { StepAhead(m, buffer, offset, e); }
  }

  /** One turn of the record loop: where the next record starts, unless the message is given
      up.  It reads the buffer it rewrites, always ahead of what is rewritten. */
  method AgeTurn(out: array<byte>, offset: nat, e: nat, saw: bool, ghost m: Bytes, ghost left: nat, ghost aged: Option<Bytes>)
    returns (next: Option<nat>, now: bool)
    requires Due(m, out[..], offset, left, e, saw, aged) && left > 0
    modifies out
    ensures match next
            case None => aged == None
            case Some(at) => Due(m, out[..], at, left - 1, e, now, aged)
  {
    DueNext(m, out[..], offset, left, e, saw, aged);
    var record := NextRecord(out[..], offset);
    if record.None? { return None, saw; }
    var ok, isReal := AgeRecord(out, record.value, e);
    return if ok then Some(record.value.next) else None, saw || isReal;
  }

  method AgeRecords(out: array<byte>, start: nat, n: nat, e: nat, ghost m: Bytes) returns (ok: bool)
    requires Ahead(m, out[..], start)
    modifies out
    ensures var aged := Walk(m, old(out[..]), start, n, e, false);
            ok == aged.Some? && (ok ==> out[..] == aged.value)
  {
    var offset, i, saw := start, 0, false;
    ghost var aged := Walk(m, out[..], start, n, e, false);
    while i < n
      invariant i <= n && Due(m, out[..], offset, n - i, e, saw, aged)
    {
      var next, now := AgeTurn(out, offset, e, saw, m, n - i, aged);
      if next.None? { return false; }
      offset, i, saw := next.value, i + 1, now;
    }
    return saw;
  }

  function Count(m: Bytes): nat
    requires |m| >= 12
  {
    U16(m, 6) + U16(m, 8) + U16(m, 10)
  }

  lemma StampKeepsHeader(m: Bytes, id: nat)
    requires |m| >= 12 && id < 0x1_0000
    ensures Body(Stamp(m, id)) == Body(m) && Count(Stamp(m, id)) == Count(m)
  {
    SkipQuestionsSuffix(m, Stamp(m, id), 12, U16(m, 4));
  }

  lemma StampedOutcome(m: Bytes, start: nat, n: nat, e: nat, id: nat)
    requires |m| >= 2 && id < 0x1_0000
    ensures TailOutcome(m, Stamp(m, id), ReadRecords(m, start, n), e, false) == Outcome(m, ReadRecords(m, start, n), e, id)
  {
    if ReadRecords(m, start, n).Some? { OntoIsRewrite(m, ReadRecords(m, start, n).value, e, id); }
  }

  /** Walking over the stamped copy gives the aged message. */
  lemma AgeIsWalk(m: Bytes, start: nat, secs: nat, id: nat)
    requires id < 0x1_0000 && Body(m) == Some(start)
    ensures Walk(m, Stamp(m, id), start, Count(m), Min(secs, U32_MAX), false) == Age(m, secs, id)
  {
    StampedOutcome(m, start, Count(m), Min(secs, U32_MAX), id);
    WalkOutcome(m, Stamp(m, id), start, Count(m), Min(secs, U32_MAX), false, Age(m, secs, id));
  }

  method StampedCopy(m: Bytes, id: nat) returns (out: array<byte>)
    requires |m| >= 12 && id < 0x1_0000
    ensures fresh(out) && out[..] == Stamp(m, id)
  {
    out := new byte[|m|](i requires 0 <= i < |m| => m[i]);
    assert out[..] == m;
    out[0], out[1] := id / 0x100, id % 0x100;
  }

  method AgeResponse(m: Bytes, secs: nat, id: nat) returns (r: Option<Bytes>)
    requires id < 0x1_0000
    ensures r == Age(m, secs, id)
  {
    if |m| < 12 { return None; }
    var out := StampedCopy(m, id);
    StampKeepsHeader(m, id);
    var start := SkipQuestionsLoop(out[..], 12, U16(out[..], 4));
    if start.None? { return None; }
    AgeIsWalk(m, start.value, secs, id);
    var ok := AgeRecords(out, start.value, Count(out[..]), Min(secs, U32_MAX), m);
    if !ok { return None; }
    return Some(out[..]);
  }
}
