/**
  Lifetimes and ageing of encoded DNS messages (src/cache/dns.rs): what the byte-level walks do
  is what the records say.
 */
module DnsEncodedAgeing {
  import opened Common
  import opened DnsWire
  import opened DnsAgeing
  import opened DnsPolicy
  import opened DnsEncoding

  // ----- ageing an encoded message -------------------------------------------------------------------------

  /** Not the OPT pseudo-record (section 6.1 of RFC 6891). */
  predicate Real(r: Rr) {
    r.kind != 41
  }

  function AgedRr(r: Rr, e: nat): Rr {
    if Real(r) && r.ttl >= e then r.(ttl := r.ttl - e) else r
  }

  function AgedAll(rs: seq<Rr>, e: nat): (a: seq<Rr>)
    ensures |a| == |rs| && forall i :: 0 <= i < |rs| ==> a[i] == AgedRr(rs[i], e)
  {
    if rs == [] then [] else [AgedRr(rs[0], e)] + AgedAll(rs[1..], e)
  }

  function Aged(msg: Message, e: nat, id: nat): Message {
    msg.(id := id, answers := AgedAll(msg.answers, e), authority := AgedAll(msg.authority, e),
         additional := AgedAll(msg.additional, e))
  }

  ghost predicate Outlives(rs: seq<Rr>, e: nat) {
    forall i :: 0 <= i < |rs| && Real(rs[i]) ==> rs[i].ttl > e
  }

  ghost predicate SomeReal(rs: seq<Rr>) {
    exists i :: 0 <= i < |rs| && Real(rs[i])
  }

  lemma AgedConcat(a: seq<Rr>, b: seq<Rr>, e: nat)
    ensures AgedAll(a + b, e) == AgedAll(a, e) + AgedAll(b, e)
  {
  }

  lemma AgedGood(rs: seq<Rr>, e: nat)
    requires AllGood(rs)
    ensures AllGood(AgedAll(rs, e))
  {
    forall i | 0 <= i < |rs| ensures GoodRr(AgedRr(rs[i], e)) { assert GoodRr(rs[i]); }
  }

  lemma AgedRrs(msg: Message, e: nat, id: nat)
    requires Good(msg) && Word(id)
    ensures Good(Aged(msg, e, id)) && Rrs(Aged(msg, e, id)) == AgedAll(Rrs(msg), e)
  {
    AgedConcat(msg.answers, msg.authority, e);
    AgedConcat(msg.answers + msg.authority, msg.additional, e);
    AgedGood(Rrs(msg), e);
  }

  /** A byte of a real TTL among the records encoded at `offset`. */
  predicate TtlByte(offset: nat, rs: seq<Rr>, i: nat)
    decreases |rs|
  {
    && rs != []
    && ((Real(rs[0]) && Place(offset, rs[0]).at + 4 <= i < Place(offset, rs[0]).at + 8)
        || TtlByte(offset + |RrBytes(rs[0])|, rs[1..], i))
  }

  lemma AllSaidTail(m: Bytes, p: Record, places: seq<Record>, rs: seq<Rr>)
    requires rs != [] && AllSaid(m, [p] + places, rs)
    ensures Says(m, p, rs[0]) && AllSaid(m, places, rs[1..])
  {
    assert Says(m, ([p] + places)[0], rs[0]);
    forall k | 0 <= k < |places| ensures Says(m, places[k], rs[1..][k]) { assert Says(m, ([p] + places)[k + 1], rs[k + 1]); }
  }

  lemma InTtlTail(m: Bytes, p: Record, places: seq<Record>, i: nat)
    requires InTtl(m, places, i)
    ensures InTtl(m, [p] + places, i)
  {
    var k :| RealAt(m, places, k) && places[k].at + 4 <= i < places[k].at + 8;
    assert RealAt(m, [p] + places, k + 1);
  }

  lemma {:induction false} TtlByteIsInTtl(m: Bytes, offset: nat, rs: seq<Rr>, i: nat)
    requires TtlByte(offset, rs, i) && AllSaid(m, Places(offset, rs), rs)
    ensures InTtl(m, Places(offset, rs), i)
    decreases |rs|
  {
    var p, next := Place(offset, rs[0]), offset + |RrBytes(rs[0])|;
    var rest := Places(next, rs[1..]);
    AllSaidTail(m, p, rest, rs);
    if Real(rs[0]) && p.at + 4 <= i < p.at + 8 {
      assert RealAt(m, [p] + rest, 0);
    } else {
      TtlByteIsInTtl(m, next, rs[1..], i);
      InTtlTail(m, p, rest, i);
    }
  }

  lemma SameBytes(x: Bytes, y: Bytes, offset: nat, b: Bytes, i: nat)
    requires Placed(x, offset, b) && Placed(y, offset, b) && offset <= i < offset + |b|
    ensures x[i] == y[i]
  {
    PlacedAt(x, offset, b, i - offset);
    PlacedAt(y, offset, b, i - offset);
  }

  lemma SpanOf(m: Bytes, offset: nat, r: Rr)
    requires Placed(m, offset, RrBytes(r))
    ensures Placed(m, offset, Front(r)) && Placed(m, offset + |Front(r)| + 4, Back(r))
    ensures |Front(r)| == |r.owner| + 4 && |Back(r)| == 2 + |r.data|
  {
    PlacedParts(m, offset, Front(r) + Quad(Min(r.ttl, U32_MAX)), Back(r));
    PlacedParts(m, offset, Front(r), Quad(Min(r.ttl, U32_MAX)));
  }

  lemma RrBytesDiffer(x: Bytes, y: Bytes, offset: nat, r: Rr, e: nat, i: nat)
    requires Placed(x, offset, RrBytes(r)) && Placed(y, offset, RrBytes(AgedRr(r, e)))
    requires offset <= i < offset + |RrBytes(r)|
    ensures x[i] == y[i] || (Real(r) && Place(offset, r).at + 4 <= i < Place(offset, r).at + 8)
  {
    var a := AgedRr(r, e);
    if !Real(r) {
      SameBytes(x, y, offset, RrBytes(r), i);
    } else {
      SpanOf(x, offset, r);
      SpanOf(y, offset, a);
      assert Front(a) == Front(r) && Back(a) == Back(r);
      var n := |Front(r)|;
      if i < offset + n {
        SameBytes(x, y, offset, Front(r), i);
      } else if i >= offset + n + 4 {
        SameBytes(x, y, offset + n + 4, Back(r), i);
      }
    }
  }

  lemma {:induction false} AllBytesDiffer(x: Bytes, y: Bytes, offset: nat, rs: seq<Rr>, e: nat, i: nat)
    requires LaidOut(x, offset, rs) && LaidOut(y, offset, AgedAll(rs, e)) && offset <= i < offset + |AllBytes(rs)|
    ensures i < |x| && i < |y| && (x[i] == y[i] || TtlByte(offset, rs, i))
    decreases |rs|
  {
    if rs != [] {
      assert AgedAll(rs, e)[1..] == AgedAll(rs[1..], e);
      if i < offset + |RrBytes(rs[0])| {
        RrBytesDiffer(x, y, offset, rs[0], e, i);
      } else {
        AllBytesDiffer(x, y, offset + |RrBytes(rs[0])|, rs[1..], e, i);
      }
    }
  }

  lemma {:induction false} AgedPlaces(offset: nat, rs: seq<Rr>, e: nat)
    ensures Places(offset, AgedAll(rs, e)) == Places(offset, rs) && |AllBytes(AgedAll(rs, e))| == |AllBytes(rs)|
    decreases |rs|
  {
    if rs != [] {
      assert AgedAll(rs, e)[1..] == AgedAll(rs[1..], e);
      AgedPlaces(offset + |RrBytes(rs[0])|, rs[1..], e);
    }
  }

  lemma RealIsReal(m: Bytes, places: seq<Record>, rs: seq<Rr>, k: int)
    requires AllSaid(m, places, rs)
    ensures RealAt(m, places, k) <==> 0 <= k < |rs| && Real(rs[k])
    ensures 0 <= k < |rs| ==> Fits(m, places[k]) && Ttl(m, places[k]) == rs[k].ttl
  {
    if 0 <= k < |rs| { assert Says(m, places[k], rs[k]); }
  }

  lemma RealsAreReal(m: Bytes, places: seq<Record>, rs: seq<Rr>, e: nat)
    requires AllSaid(m, places, rs) && AllFit(m, places)
    ensures HasReal(m, places) <==> SomeReal(rs)
    ensures Outlast(m, places, e) <==> Outlives(rs, e)
  {
    forall k ensures RealAt(m, places, k) <==> 0 <= k < |rs| && Real(rs[k]) { RealIsReal(m, places, rs, k); }
    if SomeReal(rs) {
      var k :| 0 <= k < |rs| && Real(rs[k]);
      assert RealAt(m, places, k);
    }
    if HasReal(m, places) {
      var k :| RealAt(m, places, k);
      assert Real(rs[k]);
    }
    if Outlast(m, places, e) {
      forall k | 0 <= k < |rs| && Real(rs[k]) ensures rs[k].ttl > e {
        RealIsReal(m, places, rs, k);
        assert RealAt(m, places, k);
      }
    }
    if Outlives(rs, e) {
      forall k | RealAt(m, places, k) ensures Ttl(m, places[k]) > e { RealIsReal(m, places, rs, k); }
    }
  }

  lemma HeadersAgree(msg: Message, e: nat, id: nat, i: nat)
    requires 2 <= i < Start(msg)
    ensures |Encode(msg)| >= Start(msg) && |Encode(Aged(msg, e, id))| >= Start(msg)
    ensures Encode(msg)[i] == Encode(Aged(msg, e, id))[i]
  {
    var aged := Aged(msg, e, id);
    Sections(msg);
    Sections(aged);
    assert Counts(aged) == Counts(msg);
    if i < 12 {
      SameBytes(Encode(msg), Encode(aged), 2, Counts(msg), i);
    } else {
      SameBytes(Encode(msg), Encode(aged), 12, QuestionsBytes(msg.questions), i);
    }
  }

  lemma Lengths(msg: Message, e: nat, id: nat)
    requires Good(msg) && Word(id)
    ensures |Encode(Aged(msg, e, id))| == |Encode(msg)| == Start(msg) + |AllBytes(Rrs(msg))|
  {
    AgedRrs(msg, e, id);
    AgedPlaces(Start(msg), Rrs(msg), e);
  }

  lemma EncodedUntouched(msg: Message, e: nat, id: nat, i: nat)
    requires Good(msg) && Word(id) && 2 <= i < |Encode(msg)| == |Encode(Aged(msg, e, id))|
    ensures Untouched(Encode(msg), Places(Start(msg), Rrs(msg)), Encode(Aged(msg, e, id)), i)
  {
    var (m, out, rs) := (Encode(msg), Encode(Aged(msg, e, id)), Rrs(msg));
    AgedRrs(msg, e, id);
    Lengths(msg, e, id);
    if i < Start(msg) {
      HeadersAgree(msg, e, id, i);
    } else {
      RecordsOfEncoding(msg);
      RecordsOfEncoding(Aged(msg, e, id));
      AllBytesDiffer(m, out, Start(msg), rs, e, i);
      if TtlByte(Start(msg), rs, i) { TtlByteIsInTtl(m, Start(msg), rs, i); }
    }
  }

  lemma EncodedTtls(msg: Message, e: nat, id: nat, k: int)
    requires Good(msg) && Word(id) && Outlives(Rrs(msg), e) && RealAt(Encode(msg), Places(Start(msg), Rrs(msg)), k)
    ensures Fits(Encode(Aged(msg, e, id)), Places(Start(msg), Rrs(msg))[k])
    ensures var p := Places(Start(msg), Rrs(msg))[k]; Ttl(Encode(Aged(msg, e, id)), p) == Ttl(Encode(msg), p) - e
  {
    var aged, rs := Aged(msg, e, id), Rrs(msg);
    AgedRrs(msg, e, id);
    RecordsOfEncoding(msg);
    RecordsOfEncoding(aged);
    AgedPlaces(Start(msg), rs, e);
    RealIsReal(Encode(msg), Places(Start(msg), rs), rs, k);
    RealIsReal(Encode(aged), Places(Start(msg), rs), AgedAll(rs, e), k);
  }

  lemma IdOf(msg: Message)
    requires Word(msg.id)
    ensures |Encode(msg)| >= 12 && U16(Encode(msg), 0) == msg.id
  {
    Sections(msg);
    PlacedTwo(Encode(msg), 0, msg.id);
  }

  lemma EncodedIsAged(msg: Message, e: nat, id: nat)
    requires Good(msg) && Word(id) && Outlives(Rrs(msg), e)
    ensures AllFit(Encode(msg), Places(Start(msg), Rrs(msg)))
    ensures IsAged(Encode(msg), Places(Start(msg), Rrs(msg)), e, id, Encode(Aged(msg, e, id)))
  {
    var places := Places(Start(msg), Rrs(msg));
    var (m, out) := (Encode(msg), Encode(Aged(msg, e, id)));
    Lengths(msg, e, id);
    RecordsOfEncoding(msg);
    IdOf(Aged(msg, e, id));
    forall k | RealAt(m, places, k) ensures Ttl(out, places[k]) == Ttl(m, places[k]) - e { EncodedTtls(msg, e, id, k); }
    forall i | 2 <= i < |m| ensures Untouched(m, places, out, i) { EncodedUntouched(msg, e, id, i); }
  }

  lemma AgeSucceeds(m: Bytes, rs: seq<Rr>, places: seq<Record>, secs: nat, id: nat)
    requires |m| >= 12 && Word(id) && Records(m) == Some(places) && AllSaid(m, places, rs)
    ensures Age(m, secs, id).Some? <==> SomeReal(rs) && Outlives(rs, secs)
  {
    var e := Min(secs, U32_MAX);
    RealsAreReal(m, places, rs, e);
    forall k | 0 <= k < |rs| ensures rs[k].ttl <= U32_MAX { RealIsReal(m, places, rs, k); }
    if SomeReal(rs) && Outlives(rs, e) {
      var k :| 0 <= k < |rs| && Real(rs[k]);
      assert rs[k].ttl > e;
    }
  }

  /** Ageing an encoded message is encoding it with the query's id and each real TTL reduced; it
      fails exactly if no record is real or a real one does not outlive the elapsed seconds. */
  lemma AgeOfEncoding(msg: Message, secs: nat, id: nat)
    requires Good(msg) && Word(id)
    ensures Age(Encode(msg), secs, id)
            == if SomeReal(Rrs(msg)) && Outlives(Rrs(msg), secs) then Some(Encode(Aged(msg, secs, id))) else None
  {
    var m, rs := Encode(msg), Rrs(msg);
    var places := Places(Start(msg), rs);
    RecordsOfEncoding(msg);
    AgeSucceeds(m, rs, places, secs, id);
    if SomeReal(rs) && Outlives(rs, secs) {
      AgeIsExact(m, secs, id);
      EncodedIsAged(msg, secs, id);
      AgedIsUnique(m, places, secs, id, Age(m, secs, id).value, Encode(Aged(msg, secs, id)));
    }
  }

  // ----- lifetimes of an encoded message -----------------------------------------------------------------------

  function Least(a: Option<nat>, b: nat): Option<nat> {
    Some(if a.None? then b else Min(a.value, b))
  }

  /** The smallest TTL of the real records. */
  function LowestTtl(rs: seq<Rr>): Option<nat> {
    if rs == [] then None
    else
      var last := |rs| - 1;
      if Real(rs[last]) then Least(LowestTtl(rs[..last]), rs[last].ttl) else LowestTtl(rs[..last])
  }

  /** An SOA record with room for its last field, the minimum. */
  predicate HasMinimum(r: Rr) {
    r.kind == 6 && |r.data| >= 4
  }

  /** The smallest of TTL and minimum over the SOA records. */
  function LowestSoa(rs: seq<Rr>): Option<nat> {
    if rs == [] then None
    else
      var last := |rs| - 1;
      var r := rs[last];
      if HasMinimum(r) then Least(LowestSoa(rs[..last]), Min(Value(r.data[|r.data| - 4..]), r.ttl)) else LowestSoa(rs[..last])
  }

  lemma AllSaidPrefix(m: Bytes, places: seq<Record>, rs: seq<Rr>)
    requires AllSaid(m, places, rs) && rs != []
    ensures AllSaid(m, places[..|rs| - 1], rs[..|rs| - 1])
  {
    var p, r := places[..|rs| - 1], rs[..|rs| - 1];
    forall k | 0 <= k < |r| ensures Says(m, p[k], r[k]) { assert Says(m, places[k], rs[k]); }
  }

  lemma {:induction false} MinTtlOf(m: Bytes, places: seq<Record>, rs: seq<Rr>)
    requires AllSaid(m, places, rs) && AllFit(m, places)
    ensures MinTtl(m, places) == LowestTtl(rs)
    decreases |rs|
  {
    if rs != [] {
      var last := |rs| - 1;
      AllSaidPrefix(m, places, rs);
      MinTtlOf(m, places[..last], rs[..last]);
      assert Says(m, places[last], rs[last]);
    }
  }

  lemma MinimumOf(m: Bytes, p: Record, r: Rr)
    requires Says(m, p, r)
    ensures IsSoa(m, p) <==> HasMinimum(r)
    ensures HasMinimum(r) ==> SoaLimit(m, p) == Min(Value(r.data[|r.data| - 4..]), r.ttl)
  {
    if HasMinimum(r) { assert m[p.next - 4..p.next] == m[p.at + 10..p.next][|r.data| - 4..]; }
  }

  lemma {:induction false} SoaMinOf(m: Bytes, places: seq<Record>, rs: seq<Rr>)
    requires AllSaid(m, places, rs) && AllFit(m, places)
    ensures SoaMin(m, places) == LowestSoa(rs)
    decreases |rs|
  {
    if rs != [] {
      var last := |rs| - 1;
      AllSaidPrefix(m, places, rs);
      SoaMinOf(m, places[..last], rs[..last]);
      assert Says(m, places[last], rs[last]);
      MinimumOf(m, places[last], rs[last]);
    }
  }

  function Positive(low: Option<nat>): Option<nat> {
    if low == Some(0) then None else low
  }

  /** The byte walk for positive lifetimes finds the smallest TTL of the real records. */
  lemma MinRrTtlOf(m: Bytes, msg: Message)
    requires Carries(m, msg)
    ensures MinRrTtl(m) == Positive(LowestTtl(Rrs(msg)))
  {
    RecordsOf(m, msg);
    MinTtlOf(m, Places(Start(msg), Rrs(msg)), Rrs(msg));
  }

  lemma EndCons(offset: nat, p: Record, rest: seq<Record>)
    ensures EndOf(offset, [p] + rest) == EndOf(p.next, rest)
  {
  }

  lemma {:induction false} PlacesEnd(offset: nat, rs: seq<Rr>)
    ensures EndOf(offset, Places(offset, rs)) == Past(offset, rs)
    decreases |rs|
  {
    if rs != [] {
      var p := Place(offset, rs[0]);
      PlacesEnd(p.next, rs[1..]);
      EndCons(offset, p, Places(p.next, rs[1..]));
    }
  }

  lemma GoodParts(msg: Message)
    requires Good(msg)
    ensures AllGood(msg.answers) && AllGood(msg.authority)
  {
    forall i | 0 <= i < |msg.answers| ensures GoodRr(msg.answers[i]) { assert GoodRr(Rrs(msg)[i]); }
    forall i | 0 <= i < |msg.authority| ensures GoodRr(msg.authority[i]) { assert GoodRr(Rrs(msg)[|msg.answers| + i]); }
  }

  lemma SectionsLaidOut(m: Bytes, start: nat, answers: seq<Rr>, authority: seq<Rr>, additional: seq<Rr>)
    requires LaidOut(m, start, answers + authority + additional)
    ensures LaidOut(m, start, answers) && LaidOut(m, Past(start, answers), authority)
  {
    LaidOutParts(m, start, answers + authority, additional);
    LaidOutParts(m, start, answers, authority);
  }

  /** At least one second. */
  function Rounded(low: Option<nat>): Option<nat> {
    match low case None => None case Some(seconds) => Some(Max(seconds, 1))
  }

  lemma NegativeFrom(m: Bytes, start: nat, at: nat, answers: seq<Record>, authority: seq<Record>, low: Option<nat>)
    requires |m| >= 12 && Body(m) == Some(start) && U16(m, 6) == |answers| && U16(m, 8) == |authority|
    requires ReadRecords(m, start, |answers|) == Some(answers) && at == EndOf(start, answers)
    requires ReadRecords(m, at, |authority|) == Some(authority) && AllFit(m, authority) && SoaMin(m, authority) == low
    ensures NegativeTtl(m) == Rounded(low)
  {
  }

  lemma ChainsNegative(m: Bytes, start: nat, answers: seq<Rr>, at: nat, authority: seq<Rr>)
    requires |m| >= 12 && Body(m) == Some(start) && U16(m, 6) == |answers| && U16(m, 8) == |authority|
    requires Chain(m, start, answers) && at == Past(start, answers) && Chain(m, at, authority)
    requires AllSaid(m, Places(at, authority), authority)
    ensures NegativeTtl(m) == Rounded(LowestSoa(authority))
  {
    var (a, b) := (Places(start, answers), Places(at, authority));
    ChainReads(m, start, answers, |answers|);
    ChainReads(m, at, authority, |authority|);
    PlacesEnd(start, answers);
    SoaMinOf(m, b, authority);
    NegativeFrom(m, start, at, a, b, LowestSoa(authority));
  }

  lemma SectionsNegative(m: Bytes, start: nat, answers: seq<Rr>, authority: seq<Rr>)
    requires |m| >= 12 && Body(m) == Some(start) && U16(m, 6) == |answers| && U16(m, 8) == |authority|
    requires AllGood(answers) && AllGood(authority)
    requires LaidOut(m, start, answers) && LaidOut(m, Past(start, answers), authority)
    ensures NegativeTtl(m) == Rounded(LowestSoa(authority))
  {
    var at := Past(start, answers);
    LaidOutChain(m, start, answers);
    LaidOutChain(m, at, authority);
    AllAreSaid(m, at, authority);
    ChainsNegative(m, start, answers, at, authority);
  }

  /** The byte walk for negative lifetimes finds the smallest SOA limit of the authority section. */
  lemma NegativeTtlOf(m: Bytes, msg: Message)
    requires Carries(m, msg)
    ensures NegativeTtl(m) == Rounded(LowestSoa(msg.authority))
  {
    CountsAre(m, msg);
    BodyOf(m, msg);
    GoodParts(msg);
    SectionsLaidOut(m, Start(msg), msg.answers, msg.authority, msg.additional);
    SectionsNegative(m, Start(msg), msg.answers, msg.authority);
  }

  /** The decision about `size` bytes, given what the walks find in seconds. */
  function Judge(flags: nat, size: nat, negative: Option<nat>, lowest: Option<nat>, policy: Policy): Decision {
    if !policy.enabled || size > policy.maxResponseBytes || flags / 512 % 2 == 1 then NotCacheable
    else if flags % 16 == 3 then
      Cacheable(Min(if negative.None? then policy.negativeTtl else negative.value * 1_000_000_000, policy.maxTtl))
    else if flags % 16 == 0 && lowest.Some? then Cacheable(Min(lowest.value * 1_000_000_000, policy.maxTtl))
    else NotCacheable
  }

  lemma DecideFrom(m: Bytes, policy: Policy)
    requires |m| >= 12
    ensures Decide(m, policy) == Judge(U16(m, 2), |m|, NegativeTtl(m), MinRrTtl(m), policy)
  {
  }

  /** What the cache should decide about a message of `size` bytes. */
  function Verdict(msg: Message, size: nat, policy: Policy): Decision {
    Judge(msg.flags, size, Rounded(LowestSoa(msg.authority)), Positive(LowestTtl(Rrs(msg))), policy)
  }

  lemma DecideOf(m: Bytes, msg: Message, policy: Policy)
    requires Carries(m, msg)
    ensures Decide(m, policy) == Verdict(msg, |m|, policy)
  {
    CountsAre(m, msg);
    MinRrTtlOf(m, msg);
    NegativeTtlOf(m, msg);
    DecideFrom(m, policy);
  }

  /** Exactly which messages are kept, and for how long: untruncated ones of acceptable size; a
      NOERROR answer for its smallest real TTL, if that is positive; an NXDOMAIN answer for what
      the SOA records of its authority section allow, or the policy's default without any. */
  lemma DecideOfEncoding(msg: Message, policy: Policy)
    requires Good(msg)
    ensures Decide(Encode(msg), policy) == Verdict(msg, |Encode(msg)|, policy)
  {
    EncodeCarries(msg);
    DecideOf(Encode(msg), msg, policy);
  }
}
