/**
  The cacheability decision for DNS answers and what it promises about serving them
  (src/cache/dns.rs).  Durations are whole nanoseconds.
 */
module DnsPolicy {
  import opened Common
  import opened DnsWire
  import opened DnsAgeing

  datatype Policy = Policy(enabled: bool, maxTtl: nat, negativeTtl: nat, maxResponseBytes: nat)

  datatype Decision = Cacheable(ttl: nat) | NotCacheable

  // ----- negative answers --------------------------------------------------------------------------

  predicate IsSoa(m: Bytes, r: Record)
    requires Fits(m, r)
  {
    U16(m, r.at) == SOA_TYPE && r.next - r.at - 10 >= 4
  }

  /** What an SOA record allows: its TTL or its minimum field, whichever is smaller. */
  function SoaLimit(m: Bytes, r: Record): nat
    requires Fits(m, r) && IsSoa(m, r)
  {
    Min(U32(m, r.next - 4), Ttl(m, r))
  }

  /** The smallest limit over the SOA records. */
  function SoaMin(m: Bytes, records: seq<Record>): Option<nat>
    requires AllFit(m, records)
  {
    if records == [] then None
    else
      var last := |records| - 1;
      var before, r := SoaMin(m, records[..last]), records[last];
      if !IsSoa(m, r) then before
      else Some(if before.None? then SoaLimit(m, r) else Min(before.value, SoaLimit(m, r)))
  }

  function EndOf(offset: nat, records: seq<Record>): nat {
    if records == [] then offset else records[|records| - 1].next
  }

  /** Seconds a negative answer may be kept: at least one, if it has an SOA in its authority. */
  function NegativeTtl(m: Bytes): Option<nat> {
    match Body(m)
    case None => None
    case Some(start) =>
      match ReadRecords(m, start, U16(m, 6))
      case None => None
      case Some(answers) =>
        match ReadRecords(m, EndOf(start, answers), U16(m, 8))
        case None => None
        case Some(authority) =>
          match SoaMin(m, authority)
          case None => None
          case Some(seconds) => Some(Max(seconds, 1))
  }

  ghost predicate SoaAt(m: Bytes, records: seq<Record>, k: int) {
    0 <= k < |records| && Fits(m, records[k]) && IsSoa(m, records[k])
  }

  /** The negative lifetime is the smallest of these, over all SOA records. */
  lemma {:induction false} SoaMinMeaning(m: Bytes, records: seq<Record>, e: nat)
    requires AllFit(m, records)
    ensures SoaMin(m, records).Some? <==> exists k :: SoaAt(m, records, k)
    ensures SoaMin(m, records).Some? ==>
              (SoaMin(m, records).value > e <==> forall k :: SoaAt(m, records, k) ==> SoaLimit(m, records[k]) > e)
    decreases |records|
  {
    if records != [] {
      var last := |records| - 1;
      var before := records[..last];
      SoaMinMeaning(m, before, e);
      forall k ensures SoaAt(m, records, k) <==> SoaAt(m, before, k) || (k == last && IsSoa(m, records[last])) {}
      if exists k :: SoaAt(m, before, k) {
        var k :| SoaAt(m, before, k);
        assert SoaAt(m, records, k);
      }
      if IsSoa(m, records[last]) { assert SoaAt(m, records, last); }
      forall k | SoaAt(m, before, k) ensures SoaLimit(m, before[k]) == SoaLimit(m, records[k]) {}
    }
  }

  lemma SoaMinSnoc(m: Bytes, done: seq<Record>, r: Record)
    requires AllFit(m, done) && Fits(m, r)
    ensures AllFit(m, done + [r])
    ensures SoaMin(m, done + [r])
            == if !IsSoa(m, r) then SoaMin(m, done)
               else Some(if SoaMin(m, done).None? then SoaLimit(m, r) else Min(SoaMin(m, done).value, SoaLimit(m, r)))
  {
    assert (done + [r])[..|done|] == done;
  }

  method SkipRecords(m: Bytes, start: nat, count: nat) returns (end: Option<nat>)
    ensures end.Some? == ReadRecords(m, start, count).Some?
    ensures end.Some? ==> end.value == EndOf(start, ReadRecords(m, start, count).value)
  {
    var offset, i := start, 0;
    ghost var done: seq<Record> := [];
    ReadingStarts(m, start, count);
    while i < count
      invariant i <= count && offset == EndOf(start, done)
      invariant Reading(m, start, count, done, offset, count - i)
    {
      ReadingOn(m, start, count, done, offset, count - i);
      var r := NextRecord(m, offset);
      if r.None? { return None; }
      done, offset, i := done + [r.value], r.value.next, i + 1;
    }
    ReadingEnds(m, start, count, done, offset);
    return Some(offset);
  }

  method SoaMinFrom(m: Bytes, start: nat, n: nat) returns (ok: bool, min: Option<nat>)
    ensures ok == ReadRecords(m, start, n).Some?
    ensures ok ==> min == SoaMin(m, ReadRecords(m, start, n).value)
  {
    var offset, i := start, 0;
    ok, min := true, None;
    ghost var done: seq<Record> := [];
    ReadingStarts(m, start, n);
    while i < n
      invariant i <= n && Reading(m, start, n, done, offset, n - i)
      invariant min == SoaMin(m, done)
    {
      ReadingOn(m, start, n, done, offset, n - i);
      var next := NextRecord(m, offset);
      if next.None? { return false, None; }
      var r := next.value;
      SoaMinSnoc(m, done, r);
      if IsSoa(m, r) {
        min := Some(if min.None? then SoaLimit(m, r) else Min(min.value, SoaLimit(m, r)));
      }
      done, offset, i := done + [r], r.next, i + 1;
    }
    ReadingEnds(m, start, n, done, offset);
  }

  method NegativeTtlLoop(m: Bytes) returns (r: Option<nat>)
    ensures r == NegativeTtl(m)
  {
    if |m| < 12 { return None; }
    var start := SkipQuestionsLoop(m, 12, U16(m, 4));
    if start.None? { return None; }
    var authority := SkipRecords(m, start.value, U16(m, 6));
    if authority.None? { return None; }
    var ok, min := SoaMinFrom(m, authority.value, U16(m, 8));
    return if !ok || min.None? then None else Some(Max(min.value, 1));
  }

  // ----- the decision ------------------------------------------------------------------------------------

  function Flags(m: Bytes): nat
    requires |m| >= 12
  {
    U16(m, 2)
  }

  predicate Truncated(m: Bytes)
    requires |m| >= 12
  {
    Flags(m) / 512 % 2 == 1
  }

  function ResponseCode(m: Bytes): nat
    requires |m| >= 12
  {
    Flags(m) % 16
  }

  function Decide(m: Bytes, policy: Policy): Decision {
    if !policy.enabled || |m| < 12 || |m| > policy.maxResponseBytes || Truncated(m) then NotCacheable
    else if ResponseCode(m) == 3 then
      var ttl := match NegativeTtl(m) case None => policy.negativeTtl case Some(t) => t * SECOND;
      Cacheable(Min(ttl, policy.maxTtl))
    else if ResponseCode(m) != 0 then NotCacheable
    else
      match MinRrTtl(m)
      case None => NotCacheable
      case Some(t) => Cacheable(Min(t * SECOND, policy.maxTtl))
  }

  // ----- what it promises ------------------------------------------------------------------------------------

  /** Whole seconds between two instants, never negative. */
  function Seconds(storedAt: int, now: int): nat {
    if now <= storedAt then 0 else (now - storedAt) / SECOND
  }

  /** At every instant before its end of life the stored answer can be aged. */
  ghost predicate Servable(m: Bytes, storedAt: int, ttl: nat, id: nat)
    requires id < 0x1_0000
  {
    forall now: int :: now < storedAt + ttl ==> Age(m, Seconds(storedAt, now), id).Some?
  }

  /** Exactly the lifetimes up to the smallest TTL are servable throughout. */
  lemma ServableExactly(m: Bytes, storedAt: int, ttl: nat, id: nat)
    requires id < 0x1_0000
    ensures Servable(m, storedAt, ttl, id) <==> MinRrTtl(m).Some? && ttl <= MinRrTtl(m).value * SECOND
  {
    if MinRrTtl(m).Some? && ttl <= MinRrTtl(m).value * SECOND {
      MinRrTtlPositive(m);
      forall now: int | now < storedAt + ttl ensures Age(m, Seconds(storedAt, now), id).Some? {
        AgeSucceedsExactly(m, Seconds(storedAt, now), id);
        FloorBelow(now - storedAt, MinRrTtl(m).value);
      }
    } else {
      var now := storedAt + ttl - 1;
      AgeSucceedsExactly(m, Seconds(storedAt, now), id);
      if MinRrTtl(m).Some? { FloorBelow(ttl - 1, MinRrTtl(m).value); }
      assert Age(m, Seconds(storedAt, now), id).None?;
    }
  }

  lemma FloorBelow(elapsed: int, t: nat)
    ensures elapsed >= 0 ==> (elapsed / SECOND < t <==> elapsed < t * SECOND)
  {
  }

  lemma MinRrTtlPositive(m: Bytes)
    ensures MinRrTtl(m).Some? ==> MinRrTtl(m).value >= 1
  {
  }

  /** Truncated answers and errors other than NXDOMAIN are never kept, nothing is kept longer
      than the policy allows, and a NOERROR answer never longer than any of its real TTLs. */
  lemma KeepsOnlyUsableAnswers(m: Bytes, policy: Policy)
    requires Decide(m, policy).Cacheable?
    ensures policy.enabled && 12 <= |m| <= policy.maxResponseBytes && !Truncated(m) && ResponseCode(m) in {0, 3}
    ensures Decide(m, policy).ttl <= policy.maxTtl
    ensures ResponseCode(m) == 0 ==>
              && Records(m).Some? && HasReal(m, Records(m).value)
              && forall k :: RealAt(m, Records(m).value, k) ==>
                               Decide(m, policy).ttl <= Ttl(m, Records(m).value[k]) * SECOND
  {
    if ResponseCode(m) == 0 {
      var records, t := Records(m).value, MinRrTtl(m).value;
      MinTtlMeaning(m, records, t - 1);
      forall k | RealAt(m, records, k) ensures t <= Ttl(m, records[k]) {}
    }
  }

  /** Every NOERROR answer judged cacheable can be served until its lifetime ends. */
  lemma CacheableIsServable(m: Bytes, policy: Policy, storedAt: int, id: nat)
    requires id < 0x1_0000 && Decide(m, policy).Cacheable? && ResponseCode(m) == 0
    ensures Servable(m, storedAt, Decide(m, policy).ttl, id)
  {
    ServableExactly(m, storedAt, Decide(m, policy).ttl, id);
  }

  /** An NXDOMAIN answer may be kept without any record to age; it is then never served. */
  lemma NxDomainMayNotServe(storedAt: int)
    ensures var m: Bytes := [0, 0, 0, 3, 0, 0, 0, 0, 0, 0, 0, 0];
            var policy := Policy(true, 300 * SECOND, 60 * SECOND, 65535);
            Decide(m, policy) == Cacheable(60 * SECOND) && !Servable(m, storedAt, 60 * SECOND, 0)
  {
    var m: Bytes := [0, 0, 0, 3, 0, 0, 0, 0, 0, 0, 0, 0];
    assert Body(m) == Some(12);
    assert ReadRecords(m, 12, 0) == Some([]);
    assert Records(m) == Some([]);
    assert NegativeTtl(m) == None;
    ServableExactly(m, storedAt, 60 * SECOND, 0);
  }
}
