/**
  Downloads: one `H3UpstreamSession` (src/upstream_h3_connector.rs) reading the response body of
  one request of the worker.  Reads run beside the worker until long after it has exited; what
  they have returned is always a prefix of the stream's body, and all of it when they report a
  clean end.
 */
module UpstreamH3Download {
  import opened Common
  import opened UpstreamH3
  import Indexes = UpstreamH3Indexes
  import Order = UpstreamH3Order
  import opened Delivery = UpstreamH3Delivery

  // ----- one read ------------------------------------------------------------------------

  datatype ReadResult = Chunk(bytes: seq<byte>) | End(trailers: Option<nat>) | ReadError | StillOpen

  /** What reading from position `i` of a channel yields and where it stops: the next
      non-empty chunk, the trailers, an error, or the end of the channel.  A closed channel is
      a clean end only if the stream was reported finished. */
  function Next(ch: Channel, i: nat, senderGone: bool): (r: (ReadResult, nat))
    requires i <= |ch.sent|
    ensures i <= r.1 <= |ch.sent|
    decreases |ch.sent| - i
  {
    if i == |ch.sent| then
      (if !senderGone then StillOpen else if ch.finished then End(None) else ReadError, i)
    else
      match ch.sent[i]
      case Data(bytes) => if bytes != [] then (Chunk(bytes), i + 1) else Next(ch, i + 1, senderGone)
      case Trailers(block) => (End(Some(block)), i + 1)
      case Failure => (ReadError, i + 1)
  }

  /** The bytes the first `n` frames carry. */
  function Carried(items: seq<Item>, n: nat): seq<byte>
    requires n <= |items|
  {
    if n == 0 then [] else Carried(items, n - 1) + Payload(items[n - 1])
  }

  lemma {:induction false} CarriedIsBytes(items: seq<Item>, n: nat)
    requires n <= |items|
    ensures Carried(items, n) == Bytes(items[..n])
    decreases n
  {
    if n > 0 {
      CarriedIsBytes(items, n - 1);
      assert items[..n] == items[..n - 1] + [items[n - 1]];
      BytesAppend(items[..n - 1], items[n - 1]);
    }
  }

  /** Frames that come later do not matter. */
  lemma {:induction false} CarriedStays(items: seq<Item>, more: seq<Item>, n: nat)
    requires n <= |items| && items <= more
    ensures Carried(more, n) == Carried(items, n)
    decreases n
  {
    if n > 0 { CarriedStays(items, more, n - 1); }
  }

  lemma {:induction false} CarriedGrows(items: seq<Item>, n: nat, m: nat)
    requires n <= m <= |items|
    ensures Carried(items, n) <= Carried(items, m)
    decreases m
  {
    if n < m { CarriedGrows(items, n, m - 1); }
  }

  /** What a read returns is what the frames it took carry. */
  lemma {:induction false} ReadCarries(ch: Channel, i: nat, senderGone: bool)
    requires i <= |ch.sent|
    ensures var (r, j) := Next(ch, i, senderGone);
            Carried(ch.sent, j) == if r.Chunk? then Carried(ch.sent, i) + r.bytes else Carried(ch.sent, i)
    decreases |ch.sent| - i
  {
    if i < |ch.sent| && ch.sent[i].Data? && ch.sent[i].bytes == [] {
      assert Carried(ch.sent, i + 1) == Carried(ch.sent, i) + [] == Carried(ch.sent, i);
      ReadCarries(ch, i + 1, senderGone);
    }
  }

  predicate DataUpTo(items: seq<Item>, n: nat)
    requires n <= |items|
  {
    forall k :: 0 <= k < n ==> items[k].Data?
  }

  /** Only data so far, or data and then a failure notice. */
  predicate PassedOver(items: seq<Item>, n: nat)
    requires n <= |items|
  {
    DataUpTo(items, n) || (n > 0 && DataUpTo(items, n - 1) && items[n - 1] == Failure)
  }

  lemma {:induction false} ReadPasses(ch: Channel, i: nat, senderGone: bool)
    requires i <= |ch.sent| && DataUpTo(ch.sent, i)
    ensures var (r, j) := Next(ch, i, senderGone);
            match r
            case End(None) => j == |ch.sent| && DataUpTo(ch.sent, j) && ch.finished
            case End(Some(block)) => j > 0 && DataUpTo(ch.sent, j - 1) && ch.sent[j - 1] == Trailers(block)
            case _ => PassedOver(ch.sent, j)
    decreases |ch.sent| - i
  {
    if i < |ch.sent| && ch.sent[i].Data? { ReadPasses(ch, i + 1, senderGone); }
  }

  // ----- a clean end -----------------------------------------------------------------------

  /** What the delivery invariant says of a channel and the stream that feeds it. */
  predicate Follows(ch: Channel, st: Stream) {
    Prefix(ch, st) && (ch.finished ==> Complete(ch, st))
  }

  /** A failure notice is the last frame of a channel that never finishes. */
  lemma FailureIsLast(ch: Channel, st: Stream, k: nat)
    requires Follows(ch, st) && k < |ch.sent| && ch.sent[k] == Failure
    ensures k == |ch.sent| - 1 && !ch.finished
  {
  }

  lemma EndWithoutTrailers(ch: Channel, st: Stream, i: nat)
    requires Follows(ch, st) && i <= |ch.sent| && DataUpTo(ch.sent, |ch.sent|) && ch.finished
    requires Carried(ch.sent, i) == Carried(ch.sent, |ch.sent|)
    ensures Carried(ch.sent, i) == st.body && st.trailers == None
  {
    CarriedIsBytes(ch.sent, |ch.sent|);
    assert ch.sent[..|ch.sent|] == ch.sent;
  }

  lemma TrailersAreLast(ch: Channel, st: Stream, k: nat)
    requires Prefix(ch, st) && k < |ch.sent| && ch.sent[k].Trailers?
    ensures st.trailers == Some(ch.sent[k].block) && Bytes(ch.sent[..k + 1]) == st.body
  {
    assert st.body[..|st.body|] == st.body;
    if Failed(ch.sent, None) || Failed(ch.sent, st.trailers) {
      var items := ch.sent[..|ch.sent| - 1];
      assert ch.sent[|ch.sent| - 1] == Failure;
      assert items[k] == ch.sent[k];
      assert items[..|items| - 1][..] == ch.sent[..|items| - 1];
      assert ch.sent[..k + 1] == items;
      BytesAppend(items, Failure);
      assert ch.sent == items + [Failure];
    } else {
      assert ch.sent[..|ch.sent|] == ch.sent;
    }
  }

  lemma EndWithTrailers(ch: Channel, st: Stream, i: nat, j: nat)
    requires Prefix(ch, st) && i <= |ch.sent| && 0 < j <= |ch.sent| && ch.sent[j - 1].Trailers?
    requires Carried(ch.sent, i) == Carried(ch.sent, j)
    ensures Carried(ch.sent, i) == st.body && st.trailers == Some(ch.sent[j - 1].block)
  {
    TrailersAreLast(ch, st, j - 1);
    CarriedIsBytes(ch.sent, j);
  }

  /** A read that reports a clean end has everything behind it. */
  lemma CleanEnd(ch: Channel, st: Stream, i: nat, senderGone: bool)
    requires Follows(ch, st) && i <= |ch.sent| && DataUpTo(ch.sent, i) && Next(ch, i, senderGone).0.End?
    ensures Carried(ch.sent, i) == st.body && Next(ch, i, senderGone).0.trailers == st.trailers
  {
    var (r, j) := Next(ch, i, senderGone);
    ReadPasses(ch, i, senderGone);
    ReadCarries(ch, i, senderGone);
    if r.trailers.None? { EndWithoutTrailers(ch, st, i); } else { EndWithTrailers(ch, st, i, j); }
  }

  /** After a failure notice there is nothing but errors. */
  lemma FailureStays(ch: Channel, st: Stream, i: nat, senderGone: bool)
    requires Follows(ch, st) && 0 < i <= |ch.sent| && ch.sent[i - 1] == Failure
    ensures Next(ch, i, senderGone) == (if senderGone then ReadError else StillOpen, i)
  {
    FailureIsLast(ch, st, i - 1);
  }

  lemma ReadFollows(ch: Channel, st: Stream, i: nat, senderGone: bool)
    requires Follows(ch, st) && i <= |ch.sent| && PassedOver(ch.sent, i)
    ensures var (r, j) := Next(ch, i, senderGone);
            if r.End? then Carried(ch.sent, i) == st.body && r.trailers == st.trailers else PassedOver(ch.sent, j)
  {
    if DataUpTo(ch.sent, i) {
      ReadPasses(ch, i, senderGone);
      if Next(ch, i, senderGone).0.End? { CleanEnd(ch, st, i, senderGone); }
    } else {
      FailureStays(ch, st, i, senderGone);
    }
  }

  // ----- reader and worker -------------------------------------------------------------------

  /** `at` frames have been dealt with; `returned` is everything the reads have returned. */
  datatype Reader = Reader(at: nat, returned: seq<byte>, done: bool, trailers: Option<nat>)

  /** The worker's state, the request being read, its reader, and whether the worker has exited. */
  datatype System = System(s: State, id: nat, reader: Reader, exited: bool)

  function Begun(id: nat): System {
    System(Start, id, Reader(0, [], false, None), false)
  }

  /** What one read makes of the frames after `at`. */
  function Advance(ch: Channel, rd: Reader, senderGone: bool): Reader
    requires rd.at <= |ch.sent|
  {
    var (r, j) := Next(ch, rd.at, senderGone);
    match r
    case Chunk(bytes) => rd.(at := j, returned := rd.returned + bytes)
    case End(trailers) => rd.(at := j, done := true, trailers := trailers)
    case _ => rd.(at := j)
  }

  /** One read: frames are taken off the channel up to the one that decides it.  A read of an
      open channel that has no such frame yet waits. */
  function ReadOnce(g: System): System {
    var rd := g.reader;
    if rd.done || g.id !in g.s.channels || rd.at > |g.s.channels[g.id].sent| then g
    else
      var ch := g.s.channels[g.id];
      var rd1 := Advance(ch, rd, g.id !in g.s.requests);
      g.(reader := rd1, s := Step(g.s, Consumed(g.id, Max(rd1.at - ch.taken, 0), false)))
  }

  datatype SystemStep = WorkerStep(action: Action) | WorkerExit(order: seq<nat>) | ReadStep

  function SystemNext(g: System, step: SystemStep): System {
    match step
    case WorkerStep(action) => g.(s := Step(g.s, action))
    case WorkerExit(order) => g.(s := FailAll(g.s, order), exited := true)
    case ReadStep => ReadOnce(g)
  }

  /** The worker moves until it exits, with or without an error; reads may come at any time. */
  predicate StepAllowed(g: System, step: SystemStep) {
    match step
    case WorkerStep(action) => !g.exited && Allowed(g.s, action)
    case WorkerExit(_) => !g.exited
    case ReadStep => true
  }

  function SystemRun(g: System, steps: seq<SystemStep>): System
    decreases |steps|
  {
    if steps == [] then g else SystemRun(SystemNext(g, steps[0]), steps[1..])
  }

  predicate SystemRunAllowed(g: System, steps: seq<SystemStep>)
    decreases |steps|
  {
    steps == [] || (StepAllowed(g, steps[0]) && SystemRunAllowed(SystemNext(g, steps[0]), steps[1..]))
  }

  // ----- the invariant -----------------------------------------------------------------------

  ghost predicate WorkerOk(s: State, exited: bool) {
    AllFaithful(s) && Linked(s) && (!exited && s.error.None? ==> Indexes.Inv(s))
  }

  predicate HasStream(s: State, id: nat) {
    id in s.channels && s.channels[id].stream.Some? && s.channels[id].stream.value in s.streams
  }

  /** What the peer sends for the request. */
  function Body(s: State, id: nat): seq<byte> {
    if HasStream(s, id) then s.streams[s.channels[id].stream.value].body else []
  }

  function TrailersOf(s: State, id: nat): Option<nat> {
    if HasStream(s, id) then s.streams[s.channels[id].stream.value].trailers else None
  }

  ghost predicate ReaderOk(s: State, id: nat, rd: Reader) {
    if id !in s.channels then rd == Reader(0, [], false, None)
    else
      var sent := s.channels[id].sent;
      && rd.at <= |sent| && rd.returned == Carried(sent, rd.at)
      && (!rd.done ==> PassedOver(sent, rd.at))
      && (rd.done ==> HasStream(s, id) && rd.returned == Body(s, id) && rd.trailers == TrailersOf(s, id))
  }

  ghost predicate Ok(g: System) {
    g.id != WARMUP_REQUEST_ID && WorkerOk(g.s, g.exited) && ReaderOk(g.s, g.id, g.reader)
  }

  /** Later frames and a later stream change nothing for the reader. */
  lemma ReaderStays(s: State, s1: State, id: nat, rd: Reader)
    requires ReaderOk(s, id, rd) && id != WARMUP_REQUEST_ID
    requires Order.ChannelGrows(s, s1, id)
    requires HasStream(s, id) ==> Order.SidGrows(s, s1, s.channels[id].stream.value)
    ensures ReaderOk(s1, id, rd)
  {
    if id in s.channels { CarriedStays(s.channels[id].sent, s1.channels[id].sent, rd.at); }
  }

  lemma WorkerStepKeeps(g: System, action: Action)
    requires Ok(g) && !g.exited && Allowed(g.s, action)
    ensures Ok(g.(s := Step(g.s, action)))
  {
    var s1 := Step(g.s, action);
    StepFaithful(g.s, action);
    Indexes.StepKeeps(g.s, action);
    InvLinked(s1);
    Order.StepChannels(g.s, action);
    Order.StepGrows(g.s, action);
    assert Order.ChannelGrows(g.s, s1, g.id);
    if HasStream(g.s, g.id) { assert Order.SidGrows(g.s, s1, g.s.channels[g.id].stream.value); }
    ReaderStays(g.s, s1, g.id, g.reader);
  }

  /** Failing a request on exit is cancelling it, up to a table that is dropped anyway. */
  lemma FailOneCancels(s: State, x: nat)
    ensures var s1, s2 := CancelRequest(s, x), FailOne(s, x);
            s2.channels == s1.channels && s2.streams == s1.streams && s2.requests == s1.requests
    ensures FailOne(s, x).streams == s.streams
  {
    if x in s.requests {
      var r := s.requests[x];
      var s0 := s.(requests := s.requests - {x});
      var t0 := s0.(streamToRequest := if r.stream.Some? then s.streamToRequest - {r.stream.value} else s.streamToRequest);
      FailTables(s0, t0, x, r);
    }
  }

  lemma PushTables(s: State, t: State, x: nat, item: Item)
    requires t.channels == s.channels
    ensures Push(t, x, item).channels == Push(s, x, item).channels
    ensures Push(t, x, item).streams == t.streams && Push(t, x, item).requests == t.requests
  {
  }

  lemma FailTables(s: State, t: State, x: nat, r: Request)
    requires t.channels == s.channels && t.streams == s.streams && t.requests == s.requests
    ensures var s1, t1 := FailRequest(s, x, r), FailRequest(t, x, r);
            t1.channels == s1.channels && t1.streams == s1.streams && t1.requests == s1.requests
  {
    PushTables(s, t, x, Failure);
    PushTables(s, s, x, Failure);
  }

  lemma SameTables(s1: State, s2: State)
    requires s2.channels == s1.channels && s2.streams == s1.streams && s2.requests == s1.requests
    requires AllFaithful(s1) && Linked(s1)
    ensures AllFaithful(s2) && Linked(s2)
  {
    forall id ensures Faithful(s2, id) && Link(s2, id) { assert Faithful(s1, id) && Link(s1, id); }
  }

  lemma CancelLinked(s: State, x: nat)
    requires Linked(s)
    ensures Linked(CancelRequest(s, x))
  {
    Order.CancelOnward(s, x);
    forall id ensures Link(CancelRequest(s, x), id) {
      assert Link(s, id) && Order.IdOnward(s, CancelRequest(s, x), id);
      OthersStay(s, x, id);
    }
  }

  lemma OthersStay(s: State, x: nat, id: nat)
    ensures id in CancelRequest(s, x).requests ==> id in s.requests && CancelRequest(s, x).requests[id] == s.requests[id]
  {
  }

  lemma FailOneKeeps(s: State, x: nat)
    requires AllFaithful(s) && Linked(s)
    ensures AllFaithful(FailOne(s, x)) && Linked(FailOne(s, x))
    ensures Order.ChannelsGrow(s, FailOne(s, x)) && FailOne(s, x).streams == s.streams
  {
    FailOneCancels(s, x);
    CancelFaithful(s, x);
    CancelLinked(s, x);
    SameTables(CancelRequest(s, x), FailOne(s, x));
    Order.CancelChannels(s, x);
    forall id ensures Order.ChannelGrows(s, FailOne(s, x), id) { assert Order.ChannelGrows(s, CancelRequest(s, x), id); }
  }

  lemma {:induction false} FailAllKeeps(s: State, order: seq<nat>)
    requires AllFaithful(s) && Linked(s)
    ensures AllFaithful(FailAll(s, order)) && Linked(FailAll(s, order))
    ensures Order.ChannelsGrow(s, FailAll(s, order)) && FailAll(s, order).streams == s.streams
    decreases |order|
  {
    if order != [] {
      var last := |order| - 1;
      var s1 := FailAll(s, order[..last]);
      FailAllKeeps(s, order[..last]);
      FailOneKeeps(s1, order[last]);
      Order.ChannelsGrowTransitive(s, s1, FailAll(s, order));
    }
  }

  lemma ExitKeeps(g: System, order: seq<nat>)
    requires Ok(g)
    ensures Ok(g.(s := FailAll(g.s, order), exited := true))
  {
    var s1 := FailAll(g.s, order);
    FailAllKeeps(g.s, order);
    assert Order.ChannelGrows(g.s, s1, g.id);
    ReaderStays(g.s, s1, g.id, g.reader);
  }

  lemma ConsumedKeeps(s: State, exited: bool, id: nat, takes: nat)
    requires WorkerOk(s, exited) && id in s.channels
    ensures WorkerOk(Step(s, Consumed(id, takes, false)), exited)
  {
    var s1 := Step(s, Consumed(id, takes, false));
    assert Faithful(s, id);
    ConsumeFaithful(s, id, takes, false, s1);
    LocalTouch(s, s1, id, 0);
    OthersFaithful(s, s1, id);
    forall x ensures Link(s1, x) { assert Link(s, x); }
    if !exited && s.error.None? { Indexes.StepKeeps(s, Consumed(id, takes, false)); }
  }

  /** What a reader without a clean end knows, and what one with a clean end does. */
  ghost predicate Read(ch: Channel, st: Stream, rd: Reader) {
    && rd.at <= |ch.sent| && rd.returned == Carried(ch.sent, rd.at)
    && if rd.done then rd.returned == st.body && rd.trailers == st.trailers else PassedOver(ch.sent, rd.at)
  }

  lemma AdvanceReads(ch: Channel, st: Stream, rd: Reader, senderGone: bool)
    requires Follows(ch, st) && Read(ch, st, rd) && !rd.done
    ensures Read(ch, st, Advance(ch, rd, senderGone))
  {
    ReadCarries(ch, rd.at, senderGone);
    ReadFollows(ch, st, rd.at, senderGone);
  }

  lemma ReaderKeeps(s: State, id: nat, rd: Reader)
    requires id in s.channels && ReaderOk(s, id, rd) && !rd.done && Faithful(s, id) && Link(s, id) && id != WARMUP_REQUEST_ID
    ensures ReaderOk(s, id, Advance(s.channels[id], rd, id !in s.requests))
  {
    if HasStream(s, id) { AdvanceReads(s.channels[id], s.streams[s.channels[id].stream.value], rd, id !in s.requests); }
  }

  lemma ReadKeeps(g: System)
    requires Ok(g)
    ensures Ok(ReadOnce(g))
  {
    if !g.reader.done && g.id in g.s.channels {
      var ch := g.s.channels[g.id];
      var rd := Advance(ch, g.reader, g.id !in g.s.requests);
      assert Faithful(g.s, g.id) && Link(g.s, g.id);
      ReaderKeeps(g.s, g.id, g.reader);
      TakenKeeps(g.(reader := rd), Max(rd.at - ch.taken, 0));
    }
  }

  lemma TakenKeeps(g: System, takes: nat)
    requires Ok(g) && g.id in g.s.channels
    ensures Ok(g.(s := Step(g.s, Consumed(g.id, takes, false))))
  {
    ConsumedKeeps(g.s, g.exited, g.id, takes);
    ConsumedReader(g.s, g.id, g.reader, takes);
  }

  lemma ConsumedReader(s: State, id: nat, rd: Reader, takes: nat)
    requires id in s.channels && ReaderOk(s, id, rd)
    ensures ReaderOk(Step(s, Consumed(id, takes, false)), id, rd)
  {
  }

  lemma {:induction false} RunKeeps(g: System, steps: seq<SystemStep>)
    requires Ok(g) && SystemRunAllowed(g, steps)
    ensures Ok(SystemRun(g, steps))
    decreases |steps|
  {
    if steps != [] {
      match steps[0] {
        case WorkerStep(action) => WorkerStepKeeps(g, action);
        case WorkerExit(order) => ExitKeeps(g, order);
        case ReadStep => ReadKeeps(g);
      }
      RunKeeps(SystemNext(g, steps[0]), steps[1..]);
    }
  }

  lemma BegunOk(id: nat)
    requires id != WARMUP_REQUEST_ID
    ensures Ok(Begun(id))
  {
    Indexes.StartOk();
    InvLinked(Start);
    forall x ensures Faithful(Start, x) {}
  }

  /** The theorem: whatever the worker, its peer and its exit do between reads, all that
      successive reads have returned is a prefix of the stream's body, and when a read has
      reported a clean end it is the whole body and the trailers reported are the stream's. */
  lemma ReadsReturnTheBody(id: nat, steps: seq<SystemStep>)
    requires id != WARMUP_REQUEST_ID && SystemRunAllowed(Begun(id), steps)
    ensures var g := SystemRun(Begun(id), steps);
            && g.reader.returned <= Body(g.s, id)
            && (g.reader.done ==> g.reader.returned == Body(g.s, id) && g.reader.trailers == TrailersOf(g.s, id))
  {
    var g := SystemRun(Begun(id), steps);
    BegunOk(id);
    RunKeeps(Begun(id), steps);
    assert g.id == id by { IdStays(Begun(id), steps); }
    if id in g.s.channels {
      var ch := g.s.channels[id];
      assert Faithful(g.s, id) && Link(g.s, id);
      CarriedGrows(ch.sent, g.reader.at, |ch.sent|);
      CarriedIsBytes(ch.sent, |ch.sent|);
      assert ch.sent[..|ch.sent|] == ch.sent;
    }
  }

  lemma {:induction false} IdStays(g: System, steps: seq<SystemStep>)
    ensures SystemRun(g, steps).id == g.id
    decreases |steps|
  {
    if steps != [] { IdStays(SystemNext(g, steps[0]), steps[1..]); }
  }

  // ----- reading to the end --------------------------------------------------------------------

  function ReadMany(g: System, n: nat): System {
    if n == 0 then g else ReadOnce(ReadMany(g, n - 1))
  }

  /** The stream was reported finished and its sender is gone. */
  predicate Over(g: System) {
    g.id !in g.s.requests && g.id in g.s.channels && g.s.channels[g.id].finished
  }

  /** On a channel without failure notices that is over, a read returns a chunk and moves on, or ends. */
  lemma {:induction false} NextMovesOn(ch: Channel, i: nat)
    requires i <= |ch.sent| && ch.finished && Failure !in ch.sent
    ensures var (r, j) := Next(ch, i, true); r.End? || (r.Chunk? && j > i)
    decreases |ch.sent| - i
  {
    if i < |ch.sent| && ch.sent[i].Data? { NextMovesOn(ch, i + 1); }
  }

  lemma CompleteHasNoFailure(ch: Channel, st: Stream)
    requires Complete(ch, st)
    ensures Failure !in ch.sent
  {
  }

  lemma ReadMovesOn(g: System)
    requires Ok(g) && Over(g)
    ensures var g1 := ReadOnce(g);
            && Over(g1) && g1.s.channels[g.id].sent == g.s.channels[g.id].sent
            && (g1.reader.done || g1.reader.at > g.reader.at)
  {
    var ch := g.s.channels[g.id];
    assert Faithful(g.s, g.id) && Link(g.s, g.id);
    CompleteHasNoFailure(ch, g.s.streams[ch.stream.value]);
    if !g.reader.done { NextMovesOn(ch, g.reader.at); }
  }

  lemma {:induction false} ReadsMoveOn(g: System, n: nat)
    requires Ok(g) && Over(g)
    ensures var g1 := ReadMany(g, n);
            && Ok(g1) && g1.id == g.id && Over(g1) && g1.s.channels[g.id].sent == g.s.channels[g.id].sent
            && (g1.reader.done || g1.reader.at >= g.reader.at + n)
    decreases n
  {
    if n > 0 {
      ReadsMoveOn(g, n - 1);
      ReadMovesOn(ReadMany(g, n - 1));
      ReadKeeps(ReadMany(g, n - 1));
    }
  }

  /** A finished stream is read to a clean end, with its whole body and its trailers, by as many
      reads as it has frames left and one more. */
  lemma FinishedStreamEndsCleanly(g: System, n: nat)
    requires Ok(g) && Over(g) && n > |g.s.channels[g.id].sent| - g.reader.at
    ensures var g1 := ReadMany(g, n);
            g1.reader.done && g1.reader.returned == Body(g1.s, g.id) && g1.reader.trailers == TrailersOf(g1.s, g.id)
  {
    ReadsMoveOn(g, n);
  }
}
