/**
  DNS messages as they are laid out on the wire (section 4 of RFC 1035), against the walks of the
  DoH cache (src/cache/dns.rs): each walk finds what was encoded where it was encoded, and
  ageing an encoded message is encoding the aged one.
 */
module DnsEncoding {
  import opened Common
  import opened DnsWire
  import opened DnsAgeing

  // ----- the format --------------------------------------------------------------------------------

  /** Owner names are given by their bytes; see `IsName`. */
  datatype Question = Question(owner: Bytes, kind: nat, klass: nat)

  datatype Rr = Rr(owner: Bytes, kind: nat, klass: nat, ttl: nat, data: Bytes)

  datatype Message = Message(
    id: nat, flags: nat, questions: seq<Question>, answers: seq<Rr>, authority: seq<Rr>, additional: seq<Rr>)

  predicate Word(v: nat) {
    v < 0x1_0000
  }

  predicate Sized(text: Bytes) {
    0 < |text| < 0xC0
  }

  /** Labels with their lengths, then a zero or a compression pointer. */
  function NameBytes(labels: seq<Bytes>, pointer: Option<nat>): (r: Bytes)
    ensures r != []
    decreases |labels|
  {
    if labels != [] then [|labels[0]| % 256] + labels[0] + NameBytes(labels[1..], pointer)
    else if pointer.Some? then Two(0xC000 + pointer.value % 0x4000)
    else [0]
  }

  ghost predicate IsName(b: Bytes) {
    exists labels: seq<Bytes>, pointer: Option<nat> :: Spells(b, labels, pointer)
  }

  ghost predicate Spells(b: Bytes, labels: seq<Bytes>, pointer: Option<nat>) {
    (forall i :: 0 <= i < |labels| ==> Sized(labels[i])) && b == NameBytes(labels, pointer)
  }

  ghost predicate GoodRr(r: Rr) {
    IsName(r.owner) && Word(r.kind) && Word(r.klass) && r.ttl <= U32_MAX && Word(|r.data|)
  }

  ghost predicate AllGood(rs: seq<Rr>) {
    forall i :: 0 <= i < |rs| ==> GoodRr(rs[i])
  }

  ghost predicate GoodQuestion(q: Question) {
    IsName(q.owner) && Word(q.kind) && Word(q.klass)
  }

  ghost predicate AllAsked(qs: seq<Question>) {
    forall i :: 0 <= i < |qs| ==> GoodQuestion(qs[i])
  }

  ghost predicate Good(msg: Message) {
    && Word(msg.id) && Word(msg.flags)
    && Word(|msg.questions|) && Word(|msg.answers|) && Word(|msg.authority|) && Word(|msg.additional|)
    && AllAsked(msg.questions) && AllGood(Rrs(msg))
  }

  /** The two low bytes of a number, most significant first. */
  function Two(v: nat): (r: Bytes)
    ensures |r| == 2
  {
    [v / 256 % 256, v % 256]
  }

  /** Before, at and after the TTL. */
  function Front(r: Rr): Bytes {
    r.owner + Two(r.kind) + Two(r.klass)
  }

  function Back(r: Rr): Bytes {
    Two(|r.data|) + r.data
  }

  function RrBytes(r: Rr): (b: Bytes)
    ensures |b| == |r.owner| + 10 + |r.data|
  {
    Front(r) + Quad(Min(r.ttl, U32_MAX)) + Back(r)
  }

  function AllBytes(rs: seq<Rr>): Bytes {
    if rs == [] then [] else RrBytes(rs[0]) + AllBytes(rs[1..])
  }

  function QuestionBytes(q: Question): (b: Bytes)
    ensures |b| == |q.owner| + 4
  {
    q.owner + Two(q.kind) + Two(q.klass)
  }

  function QuestionsBytes(qs: seq<Question>): Bytes {
    if qs == [] then [] else QuestionBytes(qs[0]) + QuestionsBytes(qs[1..])
  }

  /** All records in wire order. */
  function Rrs(msg: Message): seq<Rr> {
    msg.answers + msg.authority + msg.additional
  }

  /** The header but for the id. */
  function Counts(msg: Message): (r: Bytes)
    ensures |r| == 10
  {
    Two(msg.flags) + Two(|msg.questions|) + Two(|msg.answers|) + Two(|msg.authority|) + Two(|msg.additional|)
  }

  function Encode(msg: Message): Bytes {
    Two(msg.id) + Counts(msg) + QuestionsBytes(msg.questions) + AllBytes(Rrs(msg))
  }

  // ----- bytes at a place ----------------------------------------------------------------------------

  /** The bytes `b` stand in `m` at `offset`. */
  predicate Placed(m: Bytes, offset: nat, b: Bytes) {
    offset + |b| <= |m| && m[offset..offset + |b|] == b
  }

  lemma PlacedParts(m: Bytes, offset: nat, a: Bytes, b: Bytes)
    requires Placed(m, offset, a + b)
    ensures Placed(m, offset, a) && Placed(m, offset + |a|, b)
  {
    var ab := m[offset..offset + |a + b|];
    assert ab[..|a|] == a && ab[|a|..] == b;
    assert ab[..|a|] == m[offset..offset + |a|];
    assert ab[|a|..] == m[offset + |a|..offset + |a| + |b|];
  }

  lemma PlacedAt(m: Bytes, offset: nat, b: Bytes, i: nat)
    requires Placed(m, offset, b) && i < |b|
    ensures m[offset + i] == b[i]
  {
    assert m[offset..offset + |b|][i] == m[offset + i];
  }

  lemma PlacedTwo(m: Bytes, offset: nat, v: nat)
    requires Word(v) && Placed(m, offset, Two(v))
    ensures U16(m, offset) == v
  {
    PlacedAt(m, offset, Two(v), 0);
    PlacedAt(m, offset, Two(v), 1);
  }

  lemma PlacedQuad(m: Bytes, offset: nat, v: nat)
    requires v <= U32_MAX && Placed(m, offset, Quad(v))
    ensures U32(m, offset) == v
  {
  }

  // ----- names -----------------------------------------------------------------------------------------

  /** Length and text of each label stand behind those of the one before, and then the tail. */
  ghost predicate NamePlaced(m: Bytes, offset: nat, labels: seq<Bytes>, pointer: Option<nat>)
    decreases |labels|
  {
    if labels == [] then Placed(m, offset, NameBytes([], pointer))
    else
      && Sized(labels[0]) && Placed(m, offset, [|labels[0]|] + labels[0])
      && NamePlaced(m, offset + 1 + |labels[0]|, labels[1..], pointer)
  }

  lemma {:induction false} PlacedName(m: Bytes, offset: nat, labels: seq<Bytes>, pointer: Option<nat>)
    requires forall i :: 0 <= i < |labels| ==> Sized(labels[i])
    requires Placed(m, offset, NameBytes(labels, pointer))
    ensures NamePlaced(m, offset, labels, pointer)
    decreases |labels|
  {
    if labels != [] {
      PlacedParts(m, offset, [|labels[0]|] + labels[0], NameBytes(labels[1..], pointer));
      PlacedName(m, offset + 1 + |labels[0]|, labels[1..], pointer);
    }
  }

  function NameEnd(offset: nat, labels: seq<Bytes>, pointer: Option<nat>): nat
    decreases |labels|
  {
    if labels == [] then offset + (if pointer.Some? then 2 else 1)
    else NameEnd(offset + 1 + |labels[0]|, labels[1..], pointer)
  }

  lemma {:induction false} NameEndIs(offset: nat, labels: seq<Bytes>, pointer: Option<nat>)
    ensures NameEnd(offset, labels, pointer) == offset + |NameBytes(labels, pointer)|
    decreases |labels|
  {
    if labels != [] { NameEndIs(offset + 1 + |labels[0]|, labels[1..], pointer); }
  }

  lemma LabelSkip(m: Bytes, offset: nat, text: Bytes)
    requires Sized(text) && Placed(m, offset, [|text|] + text)
    ensures SkipName(m, offset) == SkipName(m, offset + 1 + |text|)
  {
    PlacedAt(m, offset, [|text|] + text, 0);
  }

  lemma TailSkip(m: Bytes, offset: nat, pointer: Option<nat>)
    requires Placed(m, offset, NameBytes([], pointer))
    ensures SkipName(m, offset) == Some(NameEnd(offset, [], pointer))
  {
    PlacedAt(m, offset, NameBytes([], pointer), 0);
  }

  /** Skipping an encoded name ends right behind it. */
  lemma {:induction false} SkipsName(m: Bytes, offset: nat, labels: seq<Bytes>, pointer: Option<nat>)
    requires NamePlaced(m, offset, labels, pointer)
    ensures SkipName(m, offset) == Some(NameEnd(offset, labels, pointer))
    decreases |labels|
  {
    if labels == [] {
      TailSkip(m, offset, pointer);
    } else {
      LabelSkip(m, offset, labels[0]);
      SkipsName(m, offset + 1 + |labels[0]|, labels[1..], pointer);
    }
  }

  lemma SkipsOwner(m: Bytes, offset: nat, b: Bytes)
    requires IsName(b) && Placed(m, offset, b)
    ensures SkipName(m, offset) == Some(offset + |b|)
  {
    var labels: seq<Bytes>, pointer: Option<nat> :| Spells(b, labels, pointer);
    PlacedName(m, offset, labels, pointer);
    SkipsName(m, offset, labels, pointer);
    NameEndIs(offset, labels, pointer);
  }

  lemma {:induction false} LowerIs(text: Bytes)
    ensures |Lower(text)| == |text|
    ensures forall i :: 0 <= i < |text| ==> Lower(text)[i] == if 65 <= text[i] <= 90 then text[i] + 32 else text[i]
    decreases |text|
  {
    if text != [] {
      LowerIs(text[1..]);
      assert forall i :: 0 < i < |text| ==> Lower(text)[i] == Lower(text[1..])[i - 1];
    }
  }

  /** What reading a text does to the reading of the rest. */
  function Cons(text: Bytes, rest: Option<DnsWire.Name>): Option<DnsWire.Name> {
    match rest
    case None => None
    case Some(name) => Some(DnsWire.Name([text] + name.labels, name.end))
  }

  lemma LabelStep(m: Bytes, offset: nat, text: Bytes, depth: nat)
    requires Sized(text) && Utf8(text) && Placed(m, offset, [|text|] + text) && depth <= 8
    ensures ReadName(m, offset, [], depth) == Cons(Lower(text), ReadName(m, offset + 1 + |text|, [], depth))
  {
    PlacedAt(m, offset, [|text|] + text, 0);
    PlacedParts(m, offset, [|text|], text);
    assert m[offset + 1..offset + 1 + m[offset]] == text;
    LabelsAccumulate(m, offset + 1 + |text|, [Lower(text)], depth);
    assert [] + [Lower(text)] == [Lower(text)];
  }

  /** The name behind the labels: nothing, or the name at the pointer, which ends here. */
  function Tail(m: Bytes, pointer: Option<nat>, end: nat, depth: nat): Option<DnsWire.Name> {
    match pointer
    case None => Some(DnsWire.Name([], end))
    case Some(p) =>
      match ReadName(m, p % 0x4000, [], depth + 1)
      case None => None
      case Some(name) => Some(DnsWire.Name(name.labels, end))
  }

  lemma TailStep(m: Bytes, offset: nat, pointer: Option<nat>, depth: nat)
    requires Placed(m, offset, NameBytes([], pointer)) && depth <= 8
    ensures ReadName(m, offset, [], depth) == Tail(m, pointer, NameEnd(offset, [], pointer), depth)
  {
    var b := NameBytes([], pointer);
    PlacedAt(m, offset, b, 0);
    if pointer.Some? {
      PlacedAt(m, offset, b, 1);
      assert Pointer(m, offset) == pointer.value % 0x4000;
    }
  }

  /** Labels in lower case in front of the rest. */
  function After(labels: seq<Bytes>, rest: Option<DnsWire.Name>): Option<DnsWire.Name> {
    if labels == [] then rest else Cons(Lower(labels[0]), After(labels[1..], rest))
  }

  /** Each label can be read where the one before it ends, and then the tail. */
  ghost predicate Spelt(m: Bytes, offset: nat, labels: seq<Bytes>, pointer: Option<nat>, depth: nat)
    decreases |labels|
  {
    if labels == [] then ReadName(m, offset, [], depth) == Tail(m, pointer, NameEnd(offset, [], pointer), depth)
    else
      var next := offset + 1 + |labels[0]|;
      && ReadName(m, offset, [], depth) == Cons(Lower(labels[0]), ReadName(m, next, [], depth))
      && Spelt(m, next, labels[1..], pointer, depth)
  }

  lemma FirstLabel(m: Bytes, offset: nat, labels: seq<Bytes>, pointer: Option<nat>, depth: nat)
    requires labels != [] && Utf8(labels[0]) && NamePlaced(m, offset, labels, pointer) && depth <= 8
    ensures ReadName(m, offset, [], depth) == Cons(Lower(labels[0]), ReadName(m, offset + 1 + |labels[0]|, [], depth))
  {
    LabelStep(m, offset, labels[0], depth);
  }

  lemma SpeltCons(m: Bytes, offset: nat, labels: seq<Bytes>, pointer: Option<nat>, depth: nat)
    requires labels != [] && Spelt(m, offset + 1 + |labels[0]|, labels[1..], pointer, depth)
    requires ReadName(m, offset, [], depth) == Cons(Lower(labels[0]), ReadName(m, offset + 1 + |labels[0]|, [], depth))
    ensures Spelt(m, offset, labels, pointer, depth)
  {
  }

  lemma {:induction false} PlacedSpells(m: Bytes, offset: nat, labels: seq<Bytes>, pointer: Option<nat>, depth: nat)
    requires forall i :: 0 <= i < |labels| ==> Utf8(labels[i])
    requires NamePlaced(m, offset, labels, pointer) && depth <= 8
    ensures Spelt(m, offset, labels, pointer, depth)
    decreases |labels|
  {
    if labels == [] {
      TailStep(m, offset, pointer, depth);
    } else {
      FirstLabel(m, offset, labels, pointer, depth);
      PlacedSpells(m, offset + 1 + |labels[0]|, labels[1..], pointer, depth);
      SpeltCons(m, offset, labels, pointer, depth);
    }
  }

  lemma {:induction false} SpeltReads(m: Bytes, offset: nat, labels: seq<Bytes>, pointer: Option<nat>, depth: nat)
    requires Spelt(m, offset, labels, pointer, depth)
    ensures ReadName(m, offset, [], depth) == After(labels, Tail(m, pointer, NameEnd(offset, labels, pointer), depth))
    decreases |labels|
  {
    if labels != [] { SpeltReads(m, offset + 1 + |labels[0]|, labels[1..], pointer, depth); }
  }

  /** Reading an encoded name gives its labels in lower case, then those at its pointer. */
  lemma ReadsName(m: Bytes, offset: nat, labels: seq<Bytes>, pointer: Option<nat>, depth: nat)
    requires forall i :: 0 <= i < |labels| ==> Sized(labels[i])
    requires forall i :: 0 <= i < |labels| ==> Utf8(labels[i])
    requires Placed(m, offset, NameBytes(labels, pointer)) && depth <= 8
    ensures ReadName(m, offset, [], depth) == After(labels, Tail(m, pointer, NameEnd(offset, labels, pointer), depth))
  {
    PlacedName(m, offset, labels, pointer);
    PlacedSpells(m, offset, labels, pointer, depth);
    SpeltReads(m, offset, labels, pointer, depth);
  }

  // ----- records ---------------------------------------------------------------------------------------

  /** Where a record encoded at `offset` lies. */
  function Place(offset: nat, r: Rr): Record {
    Record(offset + |r.owner|, offset + |r.owner| + 10 + |r.data|)
  }

  /** A record says what was encoded. */
  ghost predicate Says(m: Bytes, p: Record, r: Rr) {
    && Fits(m, p) && U16(m, p.at) == r.kind && U16(m, p.at + 2) == r.klass && Ttl(m, p) == r.ttl
    && p.next == p.at + 10 + |r.data| && m[p.at + 10..p.next] == r.data
  }

  lemma RrParts(m: Bytes, offset: nat, r: Rr)
    requires Placed(m, offset, RrBytes(r))
    ensures var at := offset + |r.owner|;
            && Placed(m, offset, r.owner) && Placed(m, at, Two(r.kind)) && Placed(m, at + 2, Two(r.klass))
            && Placed(m, at + 4, Quad(Min(r.ttl, U32_MAX))) && Placed(m, at + 8, Two(|r.data|)) && Placed(m, at + 10, r.data)
  {
    PlacedParts(m, offset, Front(r) + Quad(Min(r.ttl, U32_MAX)), Back(r));
    PlacedParts(m, offset, Front(r), Quad(Min(r.ttl, U32_MAX)));
    PlacedParts(m, offset, r.owner + Two(r.kind), Two(r.klass));
    PlacedParts(m, offset, r.owner, Two(r.kind));
    PlacedParts(m, offset + |Front(r)| + 4, Two(|r.data|), r.data);
  }

  lemma FieldsAre(m: Bytes, at: nat, r: Rr)
    requires Word(r.kind) && Word(r.klass) && r.ttl <= U32_MAX && Word(|r.data|)
    requires Placed(m, at, Two(r.kind)) && Placed(m, at + 2, Two(r.klass)) && Placed(m, at + 4, Quad(Min(r.ttl, U32_MAX)))
    requires Placed(m, at + 8, Two(|r.data|)) && Placed(m, at + 10, r.data)
    ensures Says(m, Record(at, at + 10 + |r.data|), r) && U16(m, at + 8) == |r.data|
  {
    PlacedTwo(m, at, r.kind);
    PlacedTwo(m, at + 2, r.klass);
    PlacedQuad(m, at + 4, r.ttl);
    PlacedTwo(m, at + 8, |r.data|);
  }

  lemma SaysEncoded(m: Bytes, offset: nat, r: Rr)
    requires GoodRr(r) && Placed(m, offset, RrBytes(r))
    ensures Says(m, Place(offset, r), r) && U16(m, Place(offset, r).at + 8) == |r.data|
  {
    var at := offset + |r.owner|;
    RrParts(m, offset, r);
    FieldsAre(m, at, r);
  }

  lemma ReadRecordAt(m: Bytes, offset: nat, p: Record)
    requires SkipName(m, offset) == Some(p.at) && p.at + 10 <= |m| && p.next == p.at + 10 + U16(m, p.at + 8) <= |m|
    ensures ReadRecord(m, offset) == Some(p)
  {
  }

  /** Reading at an encoded record finds it, its data skipped. */
  lemma ReadsRecord(m: Bytes, offset: nat, r: Rr)
    requires GoodRr(r) && Placed(m, offset, RrBytes(r))
    ensures ReadRecord(m, offset) == Some(Place(offset, r)) && Says(m, Place(offset, r), r)
  {
    RrParts(m, offset, r);
    SkipsOwner(m, offset, r.owner);
    SaysEncoded(m, offset, r);
    ReadRecordAt(m, offset, Place(offset, r));
  }

  /** The records stand in `m` one behind the other, from `offset` on. */
  ghost predicate LaidOut(m: Bytes, offset: nat, rs: seq<Rr>)
    decreases |rs|
  {
    rs == [] || (Placed(m, offset, RrBytes(rs[0])) && LaidOut(m, offset + |RrBytes(rs[0])|, rs[1..]))
  }

  lemma {:induction false} PlacedLaysOut(m: Bytes, offset: nat, rs: seq<Rr>)
    requires Placed(m, offset, AllBytes(rs))
    ensures LaidOut(m, offset, rs)
    decreases |rs|
  {
    if rs != [] {
      PlacedParts(m, offset, RrBytes(rs[0]), AllBytes(rs[1..]));
      PlacedLaysOut(m, offset + |RrBytes(rs[0])|, rs[1..]);
    }
  }

  function Places(offset: nat, rs: seq<Rr>): (p: seq<Record>)
    ensures |p| == |rs|
    decreases |rs|
  {
    if rs == [] then [] else [Place(offset, rs[0])] + Places(Place(offset, rs[0]).next, rs[1..])
  }

  ghost predicate AllSaid(m: Bytes, places: seq<Record>, rs: seq<Rr>) {
    |places| == |rs| && forall k :: 0 <= k < |rs| ==> Says(m, places[k], rs[k])
  }

  lemma AllSaidCons(m: Bytes, p: Record, places: seq<Record>, rs: seq<Rr>)
    requires rs != [] && Says(m, p, rs[0]) && AllSaid(m, places, rs[1..])
    ensures AllSaid(m, [p] + places, rs)
  {
    forall k | 0 <= k < |rs| ensures Says(m, ([p] + places)[k], rs[k]) {
      if k > 0 { assert Says(m, places[k - 1], rs[1..][k - 1]); }
    }
  }

  lemma {:induction false} AllAreSaid(m: Bytes, offset: nat, rs: seq<Rr>)
    requires AllGood(rs) && LaidOut(m, offset, rs)
    ensures AllSaid(m, Places(offset, rs), rs)
    decreases |rs|
  {
    if rs != [] {
      SaysEncoded(m, offset, rs[0]);
      var p := Place(offset, rs[0]);
      AllAreSaid(m, p.next, rs[1..]);
      AllSaidCons(m, p, Places(p.next, rs[1..]), rs);
    }
  }

  lemma ReadRecordsCons(m: Bytes, offset: nat, n: nat, first: Record, rest: seq<Record>)
    requires ReadRecord(m, offset) == Some(first) && ReadRecords(m, first.next, n) == Some(rest)
    ensures ReadRecords(m, offset, n + 1) == Some([first] + rest)
  {
  }

  /** Each record can be read where the one before it ends. */
  ghost predicate Chain(m: Bytes, offset: nat, rs: seq<Rr>)
    decreases |rs|
  {
    rs == [] || (ReadRecord(m, offset) == Some(Place(offset, rs[0])) && Chain(m, Place(offset, rs[0]).next, rs[1..]))
  }

  lemma {:induction false} LaidOutChain(m: Bytes, offset: nat, rs: seq<Rr>)
    requires AllGood(rs) && LaidOut(m, offset, rs)
    ensures Chain(m, offset, rs)
    decreases |rs|
  {
    if rs != [] {
      assert GoodRr(rs[0]);
      ReadsRecord(m, offset, rs[0]);
      LaidOutChain(m, offset + |RrBytes(rs[0])|, rs[1..]);
    }
  }

  lemma {:induction false} ChainReads(m: Bytes, offset: nat, rs: seq<Rr>, n: nat)
    requires Chain(m, offset, rs) && n == |rs|
    ensures ReadRecords(m, offset, n) == Some(Places(offset, rs))
    decreases n
  {
    if n > 0 {
      var p := Place(offset, rs[0]);
      ChainReads(m, p.next, rs[1..], n - 1);
      ReadRecordsCons(m, offset, n - 1, p, Places(p.next, rs[1..]));
    }
  }

  /** Reading as many records as were encoded finds them where they were encoded. */
  lemma ReadsRecords(m: Bytes, offset: nat, rs: seq<Rr>, n: nat)
    requires AllGood(rs) && LaidOut(m, offset, rs) && n == |rs|
    ensures ReadRecords(m, offset, n) == Some(Places(offset, rs))
  {
    LaidOutChain(m, offset, rs);
    ChainReads(m, offset, rs, n);
  }

  /** Where the records end. */
  function Past(offset: nat, rs: seq<Rr>): nat
    decreases |rs|
  {
    if rs == [] then offset else Past(Place(offset, rs[0]).next, rs[1..])
  }

  lemma {:induction false} LaidOutParts(m: Bytes, offset: nat, a: seq<Rr>, b: seq<Rr>)
    requires LaidOut(m, offset, a + b)
    ensures LaidOut(m, offset, a) && LaidOut(m, Past(offset, a), b)
    decreases |a|
  {
    if a == [] {
      assert a + b == b;
    } else {
      assert (a + b)[0] == a[0] && (a + b)[1..] == a[1..] + b;
      LaidOutParts(m, Place(offset, a[0]).next, a[1..], b);
    }
  }

  lemma SkipsQuestion(m: Bytes, offset: nat, q: Question)
    requires GoodQuestion(q) && Placed(m, offset, QuestionBytes(q))
    ensures SkipName(m, offset) == Some(offset + |q.owner|) && offset + |q.owner| + 4 <= |m|
  {
    PlacedParts(m, offset, q.owner + Two(q.kind), Two(q.klass));
    PlacedParts(m, offset, q.owner, Two(q.kind));
    SkipsOwner(m, offset, q.owner);
  }

  /** Each question can be skipped from where the one before it ends. */
  ghost predicate Asked(m: Bytes, offset: nat, qs: seq<Question>)
    decreases |qs|
  {
    qs == []
    || (var end := offset + |qs[0].owner|;
        SkipName(m, offset) == Some(end) && end + 4 <= |m| && Asked(m, end + 4, qs[1..]))
  }

  lemma {:induction false} PlacedAsks(m: Bytes, offset: nat, qs: seq<Question>)
    requires AllAsked(qs) && Placed(m, offset, QuestionsBytes(qs))
    ensures Asked(m, offset, qs)
    decreases |qs|
  {
    if qs != [] {
      assert GoodQuestion(qs[0]);
      PlacedParts(m, offset, QuestionBytes(qs[0]), QuestionsBytes(qs[1..]));
      SkipsQuestion(m, offset, qs[0]);
      PlacedAsks(m, offset + |QuestionBytes(qs[0])|, qs[1..]);
    }
  }

  function Behind(offset: nat, qs: seq<Question>): nat
    decreases |qs|
  {
    if qs == [] then offset else Behind(offset + |qs[0].owner| + 4, qs[1..])
  }

  lemma {:induction false} BehindIs(offset: nat, qs: seq<Question>)
    ensures Behind(offset, qs) == offset + |QuestionsBytes(qs)|
    decreases |qs|
  {
    if qs != [] { BehindIs(offset + |qs[0].owner| + 4, qs[1..]); }
  }

  lemma {:induction false} SkipsQuestions(m: Bytes, offset: nat, qs: seq<Question>, n: nat)
    requires Asked(m, offset, qs) && n == |qs|
    ensures SkipQuestions(m, offset, n) == Some(Behind(offset, qs))
    decreases n
  {
    if n > 0 { SkipsQuestions(m, offset + |qs[0].owner| + 4, qs[1..], n - 1); }
  }

  // ----- messages ----------------------------------------------------------------------------------------

  function Start(msg: Message): nat {
    12 + |QuestionsBytes(msg.questions)|
  }

  lemma Sections(msg: Message)
    ensures var m := Encode(msg);
            && |m| >= 12 && Placed(m, 0, Two(msg.id)) && Placed(m, 2, Counts(msg))
            && Placed(m, 12, QuestionsBytes(msg.questions)) && Placed(m, Start(msg), AllBytes(Rrs(msg)))
  {
    var m := Encode(msg);
    assert m[0..0 + |m|] == m;
    var (id, counts, asked, all) := (Two(msg.id), Counts(msg), QuestionsBytes(msg.questions), AllBytes(Rrs(msg)));
    PlacedParts(m, 0, id + counts + asked, all);
    PlacedParts(m, 0, id + counts, asked);
    PlacedParts(m, 0, id, counts);
  }

  lemma CountsAre(m: Bytes, msg: Message)
    requires Good(msg) && Placed(m, 2, Counts(msg))
    ensures U16(m, 2) == msg.flags && U16(m, 4) == |msg.questions|
    ensures U16(m, 6) == |msg.answers| && U16(m, 8) == |msg.authority| && U16(m, 10) == |msg.additional|
  {
    var (a, b, c, d, e) := (Two(msg.flags), Two(|msg.questions|), Two(|msg.answers|), Two(|msg.authority|), Two(|msg.additional|));
    PlacedParts(m, 2, a + b + c + d, e);
    PlacedParts(m, 2, a + b + c, d);
    PlacedParts(m, 2, a + b, c);
    PlacedParts(m, 2, a, b);
    PlacedTwo(m, 2, msg.flags);
    PlacedTwo(m, 4, |msg.questions|);
    PlacedTwo(m, 6, |msg.answers|);
    PlacedTwo(m, 8, |msg.authority|);
    PlacedTwo(m, 10, |msg.additional|);
  }

  lemma BodyOf(m: Bytes, msg: Message)
    requires Good(msg) && |m| >= 12 && U16(m, 4) == |msg.questions| && Placed(m, 12, QuestionsBytes(msg.questions))
    ensures Body(m) == Some(Start(msg))
  {
    PlacedAsks(m, 12, msg.questions);
    SkipsQuestions(m, 12, msg.questions, |msg.questions|);
    BehindIs(12, msg.questions);
  }

  lemma RecordsFrom(m: Bytes, start: nat, n: nat)
    requires |m| >= 12 && Body(m) == Some(start) && n == U16(m, 6) + U16(m, 8) + U16(m, 10)
    ensures Records(m) == ReadRecords(m, start, n)
  {
  }

  /** The sections of the message stand in `m`. */
  ghost predicate Carries(m: Bytes, msg: Message) {
    && Good(msg) && |m| >= 12 && Placed(m, 2, Counts(msg)) && Placed(m, 12, QuestionsBytes(msg.questions))
    && LaidOut(m, Start(msg), Rrs(msg))
  }

  lemma EncodeCarries(msg: Message)
    requires Good(msg)
    ensures Carries(Encode(msg), msg)
  {
    Sections(msg);
    PlacedLaysOut(Encode(msg), Start(msg), Rrs(msg));
  }

  lemma RecordsOf(m: Bytes, msg: Message)
    requires Carries(m, msg)
    ensures Body(m) == Some(Start(msg)) && Records(m) == Some(Places(Start(msg), Rrs(msg)))
    ensures AllSaid(m, Places(Start(msg), Rrs(msg)), Rrs(msg))
  {
    var rs := Rrs(msg);
    CountsAre(m, msg);
    BodyOf(m, msg);
    ReadsRecords(m, Start(msg), rs, |rs|);
    AllAreSaid(m, Start(msg), rs);
    RecordsFrom(m, Start(msg), |rs|);
  }

  /** The walk over an encoded message finds exactly the encoded records, each at its place with
      its type, class, TTL and data. */
  lemma RecordsOfEncoding(msg: Message)
    requires Good(msg)
    ensures var m := Encode(msg);
            && |m| >= 12 && Body(m) == Some(Start(msg)) && LaidOut(m, Start(msg), Rrs(msg))
            && Records(m) == Some(Places(Start(msg), Rrs(msg))) && AllSaid(m, Places(Start(msg), Rrs(msg)), Rrs(msg))
  {
    EncodeCarries(msg);
    RecordsOf(Encode(msg), msg);
  }
}
