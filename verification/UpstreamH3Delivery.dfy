/**
  Response bodies survive the bounded channel: whatever the chunking, the back pressure and
  the consumer do, what a channel has carried is the stream's data read so far, in order,
  then its trailers, and a stream reported as finished has been delivered whole.
 */
module UpstreamH3Delivery {
  import opened Common
  import opened UpstreamH3
  import Indexes = UpstreamH3Indexes

  function Payload(item: Item): seq<byte> {
    if item.Data? then item.bytes else []
  }

  /** The body bytes a list of frames carries. */
  function Bytes(items: seq<Item>): seq<byte> {
    if items == [] then [] else Bytes(items[..|items| - 1]) + Payload(items[|items| - 1])
  }

  lemma BytesAppend(items: seq<Item>, item: Item)
    ensures Bytes(items + [item]) == Bytes(items) + Payload(item)
  {
    assert (items + [item])[..|items|] == items;
  }

  predicate AllData(items: seq<Item>) {
    forall i :: 0 <= i < |items| ==> items[i].Data?
  }

  /** Data frames, then the trailers if there are any. */
  predicate Clean(items: seq<Item>, trailers: Option<nat>) {
    match trailers
    case None => AllData(items)
    case Some(block) => |items| > 0 && AllData(items[..|items| - 1]) && items[|items| - 1] == Trailers(block)
  }

  predicate Failed(items: seq<Item>, trailers: Option<nat>) {
    |items| > 0 && items[|items| - 1] == Failure && Clean(items[..|items| - 1], trailers)
  }

  /** A channel carries a prefix of its stream: the bytes read so far, the trailers only
      after all of them, and at most one failure notice, at the very end. */
  predicate Prefix(ch: Channel, st: Stream) {
    && st.pos <= |st.body|
    && Bytes(ch.sent) == st.body[..st.pos]
    && (Clean(ch.sent, None) || Failed(ch.sent, None)
        || (st.trailers.Some? && st.pos == |st.body| && (Clean(ch.sent, st.trailers) || Failed(ch.sent, st.trailers))))
  }

  /** A channel carries its whole stream. */
  predicate Complete(ch: Channel, st: Stream) {
    Bytes(ch.sent) == st.body && Clean(ch.sent, st.trailers)
  }

  /** The trailers that have reached the channel. */
  function Delivered(st: Stream, pending: Option<Item>): Option<nat> {
    if st.trailersRead && pending.None? then st.trailers else None
  }

  /** While its request lives, a channel misses nothing but a frame parked for retry. */
  predicate Current(ch: Channel, st: Stream, pending: Option<Item>) {
    && !ch.finished
    && (st.trailersRead ==> st.trailers.Some? && st.pos == |st.body|)
    && (pending.Some? ==> st.trailersRead && pending == Some(Trailers(st.trailers.value)))
    && Clean(ch.sent, Delivered(st, pending))
  }

  predicate Bounded(ch: Channel) {
    ch.taken <= |ch.sent| && |ch.sent| - ch.taken <= MAX_BODY_FRAMES
  }

  ghost predicate Faithful(s: State, id: nat) {
    id in s.channels && id != WARMUP_REQUEST_ID ==>
      var ch := s.channels[id];
      && Bounded(ch)
      && (ch.stream.None? ==> ch.sent == [] && !ch.finished)
      && (ch.stream.Some? && ch.stream.value in s.streams ==>
            var st := s.streams[ch.stream.value];
            && Prefix(ch, st)
            && (ch.finished ==> Complete(ch, st))
            && (id in s.requests ==> Current(ch, st, s.requests[id].pendingResponse)))
  }

  ghost predicate AllFaithful(s: State) {
    forall id :: Faithful(s, id)
  }

  // ----- steps that concern one request --------------------------------------------

  /** Nothing about any other request, its channel or its stream has changed. */
  ghost predicate Touches(s: State, s1: State, id: nat) {
    && (forall x :: x != id ==> Untouched(s, s1, x))
    && (forall sid :: sid in s.streams && s.streams[sid].owner != id ==>
          sid in s1.streams && s1.streams[sid] == s.streams[sid])
  }

  predicate Untouched(s: State, s1: State, x: nat) {
    && (x in s1.channels <==> x in s.channels)
    && (x in s.channels ==> s1.channels[x] == s.channels[x])
    && (x in s1.requests <==> x in s.requests)
    && (x in s.requests ==> s1.requests[x].pendingResponse == s.requests[x].pendingResponse)
  }

  /** Channels, streams and requests refer to each other consistently. */
  ghost predicate Linked(s: State) {
    forall id :: Link(s, id)
  }

  predicate Link(s: State, id: nat) {
    && (id in s.requests ==>
          && id in s.channels && s.channels[id].stream == s.requests[id].stream
          && (s.requests[id].stream.None? && id != WARMUP_REQUEST_ID ==>
                s.requests[id].responseTx && s.requests[id].pendingResponse.None?))
    && (id in s.channels && s.channels[id].stream.Some? ==>
          s.channels[id].stream.value in s.streams && s.streams[s.channels[id].stream.value].owner == id)
  }

  lemma InvLinked(s: State)
    requires Indexes.Inv(s)
    ensures Linked(s)
  {
    forall id ensures Link(s, id) { assert Indexes.IdOk(s, id); }
  }

  lemma OthersFaithful(s: State, s1: State, id: nat)
    requires AllFaithful(s) && Linked(s) && Touches(s, s1, id) && Faithful(s1, id)
    ensures AllFaithful(s1)
  {
    forall x ensures Faithful(s1, x) {
      if x != id { assert Faithful(s, x) && Link(s, x) && Untouched(s, s1, x); }
    }
  }

  /** Queues, replies and markers do not matter to delivery. */
  lemma SameFaithful(s: State, s1: State)
    requires AllFaithful(s) && Linked(s)
    requires s1.channels == s.channels && s1.streams == s.streams && s1.requests == s.requests
    ensures AllFaithful(s1) && Linked(s1)
  {
    forall x ensures Faithful(s1, x) && Link(s1, x) { assert Faithful(s, x) && Link(s, x); }
  }

  /** A change of one channel, one stream of the same owner and one request. */
  lemma LocalTouch(s: State, s1: State, id: nat, sid: nat)
    requires s1.channels == s.channels || (id in s1.channels && s1.channels == s.channels[id := s1.channels[id]])
    requires s1.streams == s.streams
             || (sid in s1.streams && (sid in s.streams ==> s.streams[sid].owner == id)
                 && s1.streams == s.streams[sid := s1.streams[sid]])
    requires s1.requests == s.requests || s1.requests == s.requests - {id}
             || (id in s1.requests && s1.requests == s.requests[id := s1.requests[id]])
    ensures Touches(s, s1, id)
  {
    forall x | x != id ensures Untouched(s, s1, x) {}
  }

  /** A failure notice ends what was carried so far. */
  lemma FailureEnds(ch: Channel, st: Stream, pending: Option<Item>)
    requires Prefix(ch, st) && Current(ch, st, pending)
    ensures Prefix(ch.(sent := ch.sent + [Failure]), st)
  {
    BytesAppend(ch.sent, Failure);
    assert (ch.sent + [Failure])[..|ch.sent|] == ch.sent;
  }

  lemma CancelOneFaithful(s: State, id: nat)
    requires Faithful(s, id) && Link(s, id) && id in s.requests
    ensures Faithful(CancelRequest(s, id), id)
  {
    var ch := s.channels[id];
    if id != WARMUP_REQUEST_ID && ch.stream.Some? {
      FailureEnds(ch, s.streams[ch.stream.value], s.requests[id].pendingResponse);
    }
  }

  lemma CancelFaithful(s: State, id: nat)
    requires AllFaithful(s) && Linked(s)
    ensures AllFaithful(CancelRequest(s, id))
  {
    if id in s.requests {
      assert Faithful(s, id) && Link(s, id);
      CancelOneFaithful(s, id);
      LocalTouch(s, CancelRequest(s, id), id, 0);
      OthersFaithful(s, CancelRequest(s, id), id);
    }
  }

  lemma StreamOpenedFaithful(s: State, id: nat, o: Opening)
    requires AllFaithful(s) && Linked(s)
    requires id in s.requests && s.requests[id].stream.None? && o.Opened? && o.sid !in s.streams
    ensures AllFaithful(StreamOpened(s, id, o))
  {
    var s1 := StreamOpened(s, id, o);
    assert Faithful(s, id) && Link(s, id);
    LocalTouch(s, s1, id, o.sid);
    OthersFaithful(s, s1, id);
  }

  lemma OpenFaithful(s: State, id: nat, hasBody: bool, early: bool)
    requires AllFaithful(s) && Indexes.Inv(s) && id !in s.seen
    ensures AllFaithful(HandleOpen(s, id, hasBody, early))
  {
    var s1 := HandleOpen(s, id, hasBody, early);
    assert Indexes.IdOk(s, id);
    InvLinked(s);
    assert Faithful(s, id);
    LocalTouch(s, s1, id, 0);
    OthersFaithful(s, s1, id);
  }

  lemma DispatchOneFaithful(s: State, conn: Conn, o: Opening)
    requires AllFaithful(s) && Linked(s) && s.waiting != [] && OpeningAllowed(s, o)
    ensures AllFaithful(DispatchOne(s, conn, o).0)
  {
    var id := s.waiting[0];
    var s1 := s.(waiting := s.waiting[1..]);
    SameFaithful(s, s1);
    var early := conn.earlyData && !conn.established;
    if id !in s.requests || s.requests[id].stream.Some? {
    } else if (early && !s.requests[id].allowEarlyData) || (!conn.established && !early) {
      SameFaithful(s, s1.(waiting := s1.waiting + [id]));
    } else {
      match o
      case Opened(_, _, _) => StreamOpenedFaithful(s1, id, o);
      case NoCredit => SameFaithful(s, s1.(waiting := [id] + s1.waiting));
      case Refused =>
        CancelFaithful(s1, id);
        assert DispatchOne(s, conn, o).0 == CancelRequest(s1, id);
    }
  }

  lemma {:induction false} DispatchFaithful(s: State, conn: Conn, answers: seq<Opening>)
    requires AllFaithful(s) && Indexes.Inv(s) && DispatchAllowed(s, conn, answers)
    ensures AllFaithful(DispatchWaiting(s, conn, answers))
    decreases |answers|
  {
    if answers != [] && s.waiting != [] {
      InvLinked(s);
      DispatchOneFaithful(s, conn, answers[0]);
      Indexes.DispatchOneKeeps(s, conn, answers[0]);
      var (s1, stop) := DispatchOne(s, conn, answers[0]);
      if !stop { DispatchFaithful(s1, conn, answers[1..]); }
    }
  }

  /** Uploads leave the response side of a stream alone. */
  lemma UploadFaithful(s: State, id: nat, sid: nat, st: Stream)
    requires AllFaithful(s) && Linked(s)
    requires id in s.requests && s.requests[id].stream == Some(sid) && sid in s.streams
    requires st == s.streams[sid].(up := st.up, fin := st.fin)
    ensures var s1 := s.(streams := s.streams[sid := st]); AllFaithful(s1) && Linked(s1)
  {
    var s1 := s.(streams := s.streams[sid := st]);
    assert Faithful(s, id) && Link(s, id);
    LocalTouch(s, s1, id, sid);
    OthersFaithful(s, s1, id);
    forall x ensures Link(s1, x) { assert Link(s, x); }
  }

  lemma WriteFaithful(s: State, id: nat, write: Option<Write>, s1: State)
    requires AllFaithful(s) && Linked(s) && id in s.requests
    requires s1.requests == s.requests[id := s.requests[id].(write := write)]
    requires s1.channels == s.channels && s1.streams == s.streams
    ensures AllFaithful(s1) && Linked(s1)
  {
    assert Faithful(s, id) && Link(s, id);
    LocalTouch(s, s1, id, 0);
    OthersFaithful(s, s1, id);
    forall x ensures Link(s1, x) { assert Link(s, x); }
  }

  lemma AfterSendFaithful(s: State, id: nat, answer: Acceptance)
    requires AllFaithful(s) && Linked(s) && id in s.requests && s.requests[id].write.Some?
    ensures AllFaithful(AfterSend(s, id, answer))
  {
    var r := s.requests[id];
    var (rest, fin) := Unsent(r.write.value);
    match answer
    case Took(n) =>
      var write := if n < |rest| then Some(BodyWrite(rest[n..], fin, r.write.value.token)) else None;
      WriteFaithful(s, id, write, AfterSend(s, id, answer));
    case Full => SameFaithful(s, AfterSend(s, id, answer));
    case Rejected =>
      var s1 := s.(requests := s.requests[id := r.(write := None)],
                   errReplies := s.errReplies + multiset{WriteSlot(id, r.write.value.token)});
      WriteFaithful(s, id, None, s1);
      CancelFaithful(s1, id);
  }

  lemma DriveOneFaithful(s: State, a: Acceptance)
    requires AllFaithful(s) && Linked(s) && s.pendingWrites != []
    ensures AllFaithful(DriveOne(s, a))
  {
    var id := s.pendingWrites[0];
    var s1 := s.(pendingWrites := s.pendingWrites[1..]);
    SameFaithful(s, s1);
    if id in s.requests && s.requests[id].stream.Some? && s.requests[id].write.Some?
       && s.requests[id].stream.value in s.streams {
      var sid := s.requests[id].stream.value;
      var (rest, fin) := Unsent(s.requests[id].write.value);
      var (st, answer) := SendBody(s.streams[sid], rest, fin, a);
      UploadFaithful(s1, id, sid, st);
      AfterSendFaithful(s1.(streams := s1.streams[sid := st]), id, answer);
    }
  }

  lemma {:induction false} DriveFaithful(s: State, answers: seq<Acceptance>)
    requires AllFaithful(s) && Indexes.Inv(s)
    ensures AllFaithful(DrivePendingWrites(s, answers))
    decreases |answers|
  {
    if answers != [] && s.pendingWrites != [] {
      InvLinked(s);
      DriveOneFaithful(s, answers[0]);
      Indexes.DriveOneKeeps(s, answers[0]);
      DriveFaithful(DriveOne(s, answers[0]), answers[1..]);
    }
  }

  // ----- draining --------------------------------------------------------------------

  lemma ConsumeFaithful(s: State, id: nat, takes: nat, closes: bool, s1: State)
    requires Faithful(s, id) && id in s.channels
    requires s1 == s.(channels := s.channels[id := Consume(s.channels[id], takes, closes)])
    ensures Faithful(s1, id)
  {}

  /** The next bytes of the stream extend what was carried. */
  lemma NextBytes(ch: Channel, st: Stream, k: nat)
    requires Prefix(ch, st) && Clean(ch.sent, None) && st.pos + k <= |st.body|
    ensures var ch1 := ch.(sent := ch.sent + [Data(st.body[st.pos..st.pos + k])]);
            Prefix(ch1, st.(pos := st.pos + k)) && Clean(ch1.sent, None)
  {
    BytesAppend(ch.sent, Data(st.body[st.pos..st.pos + k]));
    assert st.body[..st.pos] + st.body[st.pos..st.pos + k] == st.body[..st.pos + k];
  }

  lemma DrainOneFaithful(s: State, id: nat, sid: nat, n: nat)
    requires Faithful(s, id) && id in s.requests && id != WARMUP_REQUEST_ID && id in s.channels
    requires s.channels[id].stream == Some(sid) && sid in s.streams
    requires s.requests[id].pendingResponse.None?
    requires Accepts(s.channels[id]) == Ready && Available(s.streams[sid], n) > 0
    ensures Faithful(DrainOne(s, id, sid, n), id)
  {
    NextBytes(s.channels[id], s.streams[sid], Available(s.streams[sid], n));
  }

  lemma {:induction false} DrainLoopFaithful(s: State, id: nat, sid: nat, script: seq<Turn>)
    requires Faithful(s, id) && id in s.requests && id != WARMUP_REQUEST_ID && id in s.channels
    requires s.channels[id].stream == Some(sid) && sid in s.streams
    requires s.requests[id].pendingResponse.None?
    ensures Faithful(DrainLoop(s, id, sid, script).0, id)
    decreases |script|
  {
    if script != [] {
      var turn := script[0];
      var s1 := s.(channels := s.channels[id := Consume(s.channels[id], turn.takes, turn.closes)]);
      ConsumeFaithful(s, id, turn.takes, turn.closes, s1);
      if Accepts(s1.channels[id]) == Ready && turn.recv.Read? && Available(s1.streams[sid], turn.recv.n) != 0 {
        DrainOneFaithful(s1, id, sid, turn.recv.n);
        DrainLoopFaithful(DrainOne(s1, id, sid, turn.recv.n), id, sid, script[1..]);
      }
    }
  }

  lemma AfterDeliveryFaithful(s: State, id: nat, d: Delivery)
    requires AllFaithful(s) && Linked(s)
    ensures AllFaithful(AfterDelivery(s, id, d))
  {
    if d.Closed? { CancelFaithful(s, id); } else { SameFaithful(s, AfterDelivery(s, id, d)); }
  }

  lemma DrainFaithful(s: State, id: nat, script: seq<Turn>)
    requires AllFaithful(s) && Indexes.Inv(s)
    requires id in s.requests && s.requests[id].stream.Some? && !s.requests[id].discard
    requires s.requests[id].pendingResponse.None?
    ensures var (s1, d) := DrainResponseBody(s, id, script); AllFaithful(AfterDelivery(s1, id, d))
  {
    var sid := s.requests[id].stream.value;
    var (s1, d) := DrainLoop(s, id, sid, script);
    assert Indexes.IdOk(s, id) && Faithful(s, id);
    InvLinked(s);
    Indexes.DrainLoopFrame(s, id, sid, script);
    DrainLoopFaithful(s, id, sid, script);
    forall x | x != id ensures Untouched(s, s1, x) {}
    OthersFaithful(s, s1, id);
    Indexes.OnlyDrainedKeeps(s, s1, id, sid);
    InvLinked(s1);
    AfterDeliveryFaithful(s1, id, d);
  }

  /** The warm-up answer is not delivered to anyone. */
  lemma WarmupFaithful(s: State, s1: State, sid: nat)
    requires AllFaithful(s) && Linked(s)
    requires s1.channels == s.channels && s1.requests == s.requests
    requires s1.streams == s.streams || (sid in s.streams && s.streams[sid].owner == WARMUP_REQUEST_ID
                                         && sid in s1.streams && s1.streams == s.streams[sid := s1.streams[sid]])
    ensures AllFaithful(s1)
  {
    LocalTouch(s, s1, WARMUP_REQUEST_ID, sid);
    OthersFaithful(s, s1, WARMUP_REQUEST_ID);
  }

  lemma DiscardFaithful(s: State, id: nat, script: seq<Turn>)
    requires AllFaithful(s) && Indexes.Inv(s)
    requires id in s.requests && s.requests[id].stream.Some? && s.requests[id].discard
    ensures var (s1, d) := DiscardResponseBody(s, id, script); AllFaithful(AfterDelivery(s1, id, d))
  {
    var (s1, d) := DiscardResponseBody(s, id, script);
    assert Indexes.IdOk(s, id);
    InvLinked(s);
    WarmupFaithful(s, s1, s.requests[id].stream.value);
    IndexFaithful(s1, AfterDelivery(s1, id, d));
  }

  /** Nothing delivery depends on has changed. */
  lemma IndexFaithful(s: State, s1: State)
    requires AllFaithful(s)
    requires s1.channels == s.channels && s1.streams == s.streams && s1.requests == s.requests
    ensures AllFaithful(s1)
  {
    forall x ensures Faithful(s1, x) { assert Faithful(s, x); }
  }

  /** The frame that found the channel full is the next one in. */
  lemma RetryFaithful(s: State, script: seq<Turn>)
    requires AllFaithful(s) && Indexes.Inv(s)
    ensures AllFaithful(RetryBlocked(s, script))
  {
    if s.responseBlocked.Some? {
      var id := s.responseBlocked.value;
      var s0 := s.(responseBlocked := None);
      assert Indexes.IdOk(s, id) && Faithful(s, id);
      InvLinked(s);
      if id !in s.requests || s.requests[id].pendingResponse.None? { Indexes.UnblockKeeps(s, id); }
      SameFaithful(s, s0);
      if id in s.requests {
        if s.requests[id].pendingResponse.Some? {
          var item := s.requests[id].pendingResponse.value;
          var d := Accepts(s.channels[id]);
          if d != Blocked {
            var s1 := s0.(requests := s0.requests[id := s0.requests[id].(pendingResponse := None)]);
            if d == Ready { PushFaithful(s, s1, id, item); } else { UnparkedEnds(s, s1, id); }
          }
        } else {
          DrainFaithful(s0, id, script);
        }
      }
    }
  }

  /** `s1` is `s` with the parked frame taken off; the frame goes into the channel. */
  lemma PushFaithful(s: State, s1: State, id: nat, item: Item)
    requires AllFaithful(s) && Linked(s)
    requires id in s.requests && s.requests[id].pendingResponse == Some(item) && id != WARMUP_REQUEST_ID
    requires s.requests[id].stream.Some? && id in s.channels
    requires s1 == s.(responseBlocked := None, requests := s.requests[id := s.requests[id].(pendingResponse := None)])
    requires Accepts(s.channels[id]) == Ready
    ensures AllFaithful(Push(s1, id, item))
  {
    assert Faithful(s, id) && Link(s, id);
    var sid := s.requests[id].stream.value;
    assert s.streams[sid := s.streams[sid].(trailersRead := true)] == s.streams;
    AppendedFaithful(s, Push(s1, id, item), id, sid, s.streams[sid].trailers.value);
  }

  lemma ClosedCancel(s: State, id: nat)
    requires id in s.requests && id in s.channels && Accepts(s.channels[id]) == Closed
    ensures CancelRequest(s, id).channels == s.channels && CancelRequest(s, id).requests == s.requests - {id}
  {
    assert Push(s.(requests := s.requests - {id}), id, Failure).channels == s.channels;
  }

  /** Or nobody reads any more and the request ends. */
  lemma UnparkedEnds(s: State, s1: State, id: nat)
    requires AllFaithful(s) && Linked(s) && id in s.requests && id in s.channels && Accepts(s.channels[id]) == Closed
    requires s1 == s.(responseBlocked := None, requests := s.requests[id := s.requests[id].(pendingResponse := None)])
    ensures AllFaithful(CancelRequest(s1, id))
  {
    ClosedCancel(s1, id);
    var s2 := CancelRequest(s1, id);
    assert s2.requests == s.requests - {id};
    assert Faithful(s, id);
    LocalTouch(s, s2, id, 0);
    OthersFaithful(s, s2, id);
  }

  lemma DeliverHeadFaithful(s: State, id: nat, receiverAlive: bool)
    requires AllFaithful(s) && Indexes.Inv(s) && id in s.requests && s.requests[id].stream.Some?
    ensures AllFaithful(DeliverHead(s, id, receiverAlive))
  {
    var r := s.requests[id];
    assert Faithful(s, id) && Indexes.IdOk(s, id);
    InvLinked(s);
    if !r.discard && r.bodyRx && r.responseTx && !receiverAlive {
      var s1 := s.(requests := s.requests[id := r.(bodyRx := false, responseTx := false, started := true)],
                   okReplies := s.okReplies + multiset{ResponseSlot(id)},
                   channels := s.channels[id := s.channels[id].(receiverOpen := false)]);
      LocalTouch(s, s1, id, 0);
      OthersFaithful(s, s1, id);
      forall x ensures Link(s1, x) { assert Link(s, x); }
      CancelFaithful(s1, id);
    } else {
      var s1 := DeliverHead(s, id, receiverAlive);
      LocalTouch(s, s1, id, 0);
      OthersFaithful(s, s1, id);
    }
  }

  /** A request that ends with its trailers unreadable has delivered what came before. */
  lemma BadTrailersFaithful(s: State, sid: nat, id: nat, s1: State)
    requires AllFaithful(s) && Linked(s) && id in s.requests
    requires s.requests[id].stream == Some(sid) && sid in s.streams && id in s.channels
    requires s1 == s.(streams := s.streams[sid := s.streams[sid].(trailersRead := true)])
    ensures AllFaithful(CancelRequest(s1, id))
  {
    CancelFaithful(s, id);
    var s2, s3 := CancelRequest(s, id), CancelRequest(s1, id);
    assert Faithful(s2, id) && Link(s, id);
    LocalTouch(s, s3, id, sid);
    assert s3.channels == s2.channels;
    OthersFaithful(s, s3, id);
  }

  /** A frame is appended to a channel that misses nothing but this frame. */
  lemma AppendedFaithful(s: State, s1: State, id: nat, sid: nat, block: nat)
    requires AllFaithful(s) && Linked(s) && id in s.requests && id in s.channels && id != WARMUP_REQUEST_ID
    requires s.requests[id].stream == Some(sid) && sid in s.streams && sid in s1.streams
    requires Delivered(s.streams[sid], s.requests[id].pendingResponse).None?
    requires var st := s.streams[sid]; st.pos == |st.body| && st.trailers == Some(block)
    requires Accepts(s.channels[id]) == Ready
    requires s1.channels == s.channels[id := s.channels[id].(sent := s.channels[id].sent + [Trailers(block)])]
    requires s1.streams == s.streams[sid := s.streams[sid].(trailersRead := true)]
    requires id in s1.requests && s1.requests == s.requests[id := s.requests[id].(pendingResponse := None)]
    ensures AllFaithful(s1)
  {
    assert Faithful(s, id) && Link(s, id);
    var ch := s.channels[id];
    BytesAppend(ch.sent, Trailers(block));
    assert s1.channels[id].sent[..|ch.sent|] == ch.sent;
    LocalTouch(s, s1, id, sid);
    OthersFaithful(s, s1, id);
  }

  lemma ParkedFaithful(s: State, s1: State, id: nat, sid: nat, block: nat)
    requires AllFaithful(s) && Linked(s) && id in s.requests && id in s.channels && id != WARMUP_REQUEST_ID
    requires s.requests[id].stream == Some(sid) && sid in s.streams && sid in s1.streams
    requires s.requests[id].pendingResponse.None?
    requires var st := s.streams[sid]; st.pos == |st.body| && st.trailers == Some(block) && !st.trailersRead
    requires s1.channels == s.channels
    requires s1.streams == s.streams[sid := s.streams[sid].(trailersRead := true)]
    requires id in s1.requests
    requires s1.requests == s.requests[id := s.requests[id].(pendingResponse := Some(Trailers(block)))]
    ensures AllFaithful(s1)
  {
    assert Faithful(s, id) && Link(s, id);
    LocalTouch(s, s1, id, sid);
    OthersFaithful(s, s1, id);
  }

  /** Trailers are reported once, after the whole body; they go in, wait, or end the request. */
  lemma TrailersFaithful(s: State, sid: nat, id: nat, block: nat, s1: State)
    requires AllFaithful(s) && Linked(s) && id in s.requests && id != WARMUP_REQUEST_ID
    requires s.requests[id].stream == Some(sid) && sid in s.streams && id in s.channels
    requires s.requests[id].pendingResponse.None?
    requires var st := s.streams[sid]; st.pos == |st.body| && st.trailers == Some(block) && !st.trailersRead
    requires s1 == s.(streams := s.streams[sid := s.streams[sid].(trailersRead := true)])
    ensures AllFaithful(DeliverTrailers(s1, id, block))
  {
    match Accepts(s.channels[id])
    case Ready =>
      assert s.requests[id := s.requests[id].(pendingResponse := None)] == s.requests;
      AppendedFaithful(s, Push(s1, id, Trailers(block)), id, sid, block);
    case Blocked => ParkedFaithful(s, DeliverTrailers(s1, id, block), id, sid, block);
    case Closed => BadTrailersFaithful(s, sid, id, s1);
  }

  lemma HeadersFaithful(s: State, sid: nat, e: StreamEvent)
    requires AllFaithful(s) && Indexes.Inv(s) && s.responseBlocked.None?
    requires e.HeadersEvent? && sid in s.streamToRequest && EventAllowed(s, OnStream(sid, e))
    ensures AllFaithful(HandleHeaders(s, sid, s.streamToRequest[sid], e))
  {
    var id := s.streamToRequest[sid];
    assert Indexes.SidOk(s, sid) && Indexes.IdOk(s, id);
    InvLinked(s);
    if !s.requests[id].started {
      if !e.valid { CancelFaithful(s, id); }
      else if !e.interim { DeliverHeadFaithful(s, id, e.receiverAlive); }
    } else {
      var s1 := s.(streams := s.streams[sid := s.streams[sid].(trailersRead := true)]);
      if !e.valid {
        BadTrailersFaithful(s, sid, id, s1);
      } else if id != WARMUP_REQUEST_ID {
        TrailersFaithful(s, sid, id, e.block, s1);
      } else {
        WarmupFaithful(s, s1, sid);
        Indexes.StreamsKeep(s, s1);
        InvLinked(s1);
        CancelFaithful(s1, id);
        assert DeliverTrailers(s1, id, e.block) == CancelRequest(s1, id);
      }
    }
  }

  /** The end of a stream marks its channel finished only when everything is in it. */
  lemma FinishedFaithful(s: State, sid: nat)
    requires AllFaithful(s) && Indexes.Inv(s) && s.responseBlocked.None?
    requires sid in s.streamToRequest && EventAllowed(s, OnStream(sid, FinishedEvent))
    ensures AllFaithful(HandleFinished(s, sid, s.streamToRequest[sid]))
  {
    var id := s.streamToRequest[sid];
    assert Indexes.SidOk(s, sid) && Indexes.IdOk(s, id) && Faithful(s, id);
    InvLinked(s);
    var s1 := HandleFinished(s, sid, id);
    LocalTouch(s, s1, id, sid);
    assert s.streams[sid].body[..|s.streams[sid].body|] == s.streams[sid].body;
    OthersFaithful(s, s1, id);
  }

  lemma EventFaithful(s: State, e: Event)
    requires AllFaithful(s) && Indexes.Inv(s) && s.responseBlocked.None? && EventAllowed(s, e)
    ensures AllFaithful(HandleEvent(s, e))
  {
    InvLinked(s);
    if e.OnStream? && e.sid in s.streamToRequest {
      var id := s.streamToRequest[e.sid];
      assert Indexes.SidOk(s, e.sid) && Indexes.IdOk(s, id);
      match e.event
      case HeadersEvent(_, _, _, _) => HeadersFaithful(s, e.sid, e.event);
      case DataEvent(script) =>
        if s.requests[id].discard { DiscardFaithful(s, id, script); } else { DrainFaithful(s, id, script); }
      case FinishedEvent => FinishedFaithful(s, e.sid);
      case ResetEvent => CancelFaithful(s, id);
      case PriorityUpdateEvent =>
    } else {
      SameFaithful(s, HandleEvent(s, e));
    }
  }

  lemma {:induction false} PollFaithful(s: State, events: seq<Event>)
    requires AllFaithful(s) && Indexes.Inv(s) && PollAllowed(s, events)
    ensures AllFaithful(PollEvents(s, events))
    decreases |events|
  {
    if events != [] && !Paused(s) {
      EventFaithful(s, events[0]);
      Indexes.EventKeeps(s, events[0]);
      PollFaithful(HandleEvent(s, events[0]), events[1..]);
    }
  }

  lemma CommandFaithful(s: State, cmd: Command)
    requires AllFaithful(s) && Indexes.Inv(s) && Allowed(s, Commanded(cmd))
    ensures AllFaithful(HandleCommand(s, cmd))
  {
    InvLinked(s);
    match cmd
    case Open(id, hasBody, early) => OpenFaithful(s, id, hasBody, early);
    case Body(id, data, fin, token) => EnqueueFaithful(s, id, BodyWrite(data, fin, token));
    case BodyTrailers(id, token) => EnqueueFaithful(s, id, TrailersWrite(token));
    case Cancel(id) => CancelFaithful(s, id);
  }

  lemma EnqueueFaithful(s: State, id: nat, write: Write)
    requires AllFaithful(s) && Linked(s)
    ensures AllFaithful(EnqueueWrite(s.(received := s.received + {WriteSlot(id, write.token)}), id, write))
  {
    var s1 := EnqueueWrite(s.(received := s.received + {WriteSlot(id, write.token)}), id, write);
    if id in s.requests && s.requests[id].stream.Some? && s.requests[id].write.None? {
      WriteFaithful(s, id, Some(write), s1);
    } else {
      SameFaithful(s, s1);
    }
  }

  lemma StepFaithful(s: State, a: Action)
    requires AllFaithful(s) && Indexes.Inv(s) && Allowed(s, a)
    ensures AllFaithful(Step(s, a))
  {
    InvLinked(s);
    match a
    case Commanded(cmd) => CommandFaithful(s, cmd);
    case Warmed =>
      LocalTouch(s, Step(s, a), WARMUP_REQUEST_ID, 0);
      OthersFaithful(s, Step(s, a), WARMUP_REQUEST_ID);
    case Dispatched(conn, openings) => DispatchFaithful(s, conn, openings);
    case Driven(answers) => DriveFaithful(s, answers);
    case Polled(script, events) =>
      RetryFaithful(s, script);
      Indexes.RetryKeeps(s, script);
      PollFaithful(RetryBlocked(s, script), events);
    case Consumed(id, takes, closes) =>
      if id in s.channels {
        assert Faithful(s, id);
        ConsumeFaithful(s, id, takes, closes, Step(s, a));
        LocalTouch(s, Step(s, a), id, 0);
        OthersFaithful(s, Step(s, a), id);
      }
  }

  lemma {:induction false} RunFaithful(s: State, actions: seq<Action>)
    requires AllFaithful(s) && Indexes.Inv(s) && RunAllowed(s, actions)
    ensures AllFaithful(Run(s, actions)) && Indexes.Inv(Run(s, actions))
    decreases |actions|
  {
    if actions != [] {
      StepFaithful(s, actions[0]);
      Indexes.StepKeeps(s, actions[0]);
      RunFaithful(Step(s, actions[0]), actions[1..]);
    }
  }

  /** The theorem: in every reachable state, every response channel holds at most 24 frames,
      has carried an in-order prefix of its stream and, once finished, all of it. */
  lemma ResponsesAreDeliveredInOrder(actions: seq<Action>, id: nat)
    requires RunAllowed(Start, actions)
    requires id in Run(Start, actions).channels && id != WARMUP_REQUEST_ID
    ensures var s := Run(Start, actions);
            var ch := s.channels[id];
            && ch.taken <= |ch.sent| <= ch.taken + MAX_BODY_FRAMES
            && (ch.stream.None? ==> ch.sent == [] && !ch.finished)
            && (ch.stream.Some? ==>
                  && ch.stream.value in s.streams
                  && s.streams[ch.stream.value].owner == id
                  && Prefix(ch, s.streams[ch.stream.value])
                  && (ch.finished ==> Complete(ch, s.streams[ch.stream.value])))
  {
    Indexes.StartOk();
    forall x ensures Faithful(Start, x) {}
    RunFaithful(Start, actions);
    assert Faithful(Run(Start, actions), id) && Indexes.IdOk(Run(Start, actions), id);
  }
}
