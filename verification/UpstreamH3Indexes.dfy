/**
  The worker's indexes agree in every reachable state, and the error branches that would
  kill the connection for lack of request state are never taken.
 */
module UpstreamH3Indexes {
  import opened Common
  import opened UpstreamH3

  /** How often a queue names an id. */
  function Times(queue: seq<nat>, id: nat): nat {
    multiset(queue)[id]
  }

  /** Which ends a request holds follows from how far it got. */
  predicate WellFormed(id: nat, r: Request) {
    && (r.discard <==> id == WARMUP_REQUEST_ID)
    && (r.discard ==> !r.openTx && !r.responseTx && !r.bodyRx && r.write.None?)
    && (!r.discard ==> (r.responseTx <==> !r.started) && (r.bodyRx <==> !r.started))
    && (r.stream.Some? ==> !r.openTx)
    && (r.openTx ==> r.hasBody)
    && (r.stream.None? ==> !r.started && r.write.None?)
    && (r.pendingResponse.Some? ==> r.started && !r.discard && r.pendingResponse.value.Trailers?)
  }

  /** Everything the state says about one request id.  A live request is queued for a stream
      exactly once while it has none and never afterwards; it is queued for writing exactly
      once while it holds a write and never otherwise. */
  ghost predicate IdOk(s: State, id: nat) {
    && (id in s.requests ==>
          var r := s.requests[id];
          && WellFormed(id, r)
          && id in s.seen && id in s.channels && s.channels[id].stream == r.stream
          && (r.stream.Some? ==> r.stream.value in s.streamToRequest
                                 && s.streamToRequest[r.stream.value] == id)
          && Times(s.waiting, id) == (if r.stream.None? then 1 else 0)
          && Times(s.pendingWrites, id) == (if r.write.Some? then 1 else 0)
          && (r.pendingResponse.Some? ==> s.responseBlocked == Some(id))
          && (s.responseBlocked == Some(id) ==> r.stream.Some? && !r.discard))
    && (id !in s.seen ==> id !in s.channels && s.responseBlocked != Some(id)
                          && Times(s.waiting, id) == 0 && Times(s.pendingWrites, id) == 0)
    && (id in s.channels && s.channels[id].stream.Some? ==>
          s.channels[id].stream.value in s.streams && s.streams[s.channels[id].stream.value].owner == id)
    && (id in s.channels && id == WARMUP_REQUEST_ID ==> !s.channels[id].receiverOpen)
  }

  /** Everything the state says about one stream id. */
  ghost predicate SidOk(s: State, sid: nat) {
    sid in s.streamToRequest ==>
      && sid in s.streams
      && s.streamToRequest[sid] in s.requests
      && s.requests[s.streamToRequest[sid]].stream == Some(sid)
  }

  /** The only ways the connection loop can fail are quiche's own. */
  predicate Survivable(e: Option<Error>) {
    e in {None, Some(RecvFailed), Some(PollFailed)}
  }

  ghost predicate Inv(s: State) {
    && (forall id :: IdOk(s, id))
    && (forall sid :: SidOk(s, sid))
    && Survivable(s.error)
  }

  // ----- one transition at a time --------------------------------------------------

  lemma PopTimes(queue: seq<nat>)
    requires queue != []
    ensures forall id :: Times(queue[1..], id) == Times(queue, id) - (if id == queue[0] then 1 else 0)
  {
    assert queue == [queue[0]] + queue[1..];
  }

  lemma PushKeeps(s: State, id: nat, item: Item)
    requires Inv(s)
    ensures Inv(Push(s, id, item))
  {
    var s1 := Push(s, id, item);
    forall x ensures IdOk(s1, x) { assert IdOk(s, x); }
    forall x ensures SidOk(s1, x) { assert SidOk(s, x); }
  }

  /** Taking a request out of both tables, whatever happens to its replies. */
  lemma RemovalKeeps(s: State, id: nat, s1: State)
    requires Inv(s) && id in s.requests
    requires s1 == s.(requests := s.requests - {id},
                      streamToRequest := if s.requests[id].stream.Some?
                                         then s.streamToRequest - {s.requests[id].stream.value}
                                         else s.streamToRequest)
    ensures Inv(s1)
  {
    forall x ensures IdOk(s1, x) { assert IdOk(s, x) && IdOk(s, id); }
    forall x ensures SidOk(s1, x) { assert SidOk(s, x); }
  }

  /** Replies and the record of what was received do not matter to the indexes. */
  lemma RepliesKeep(s: State, s1: State)
    requires Inv(s)
    requires s1 == s.(okReplies := s1.okReplies, errReplies := s1.errReplies, received := s1.received)
    ensures Inv(s1)
  {
    forall x ensures IdOk(s1, x) { assert IdOk(s, x); }
    forall x ensures SidOk(s1, x) { assert SidOk(s, x); }
  }

  lemma FailKeeps(s: State, id: nat, r: Request)
    requires Inv(s)
    ensures Inv(FailRequest(s, id, r))
  {
    var s1 := if r.responseTx then s else Push(s, id, Failure);
    PushKeeps(s, id, Failure);
    RepliesKeep(s1, FailRequest(s, id, r));
  }

  lemma CancelKeeps(s: State, id: nat)
    requires Inv(s)
    ensures Inv(CancelRequest(s, id))
  {
    if id in s.requests {
      var r := s.requests[id];
      var s1 := s.(requests := s.requests - {id},
                   streamToRequest := if r.stream.Some? then s.streamToRequest - {r.stream.value}
                                      else s.streamToRequest);
      RemovalKeeps(s, id, s1);
      FailKeeps(s1, id, r);
    }
  }

  lemma EnqueueWriteKeeps(s: State, id: nat, write: Write)
    requires Inv(s) && id != WARMUP_REQUEST_ID
    ensures Inv(EnqueueWrite(s, id, write))
  {
    var s1 := EnqueueWrite(s, id, write);
    assert IdOk(s, id);
    if id in s.requests && s.requests[id].stream.Some? && s.requests[id].write.None? {
      forall x ensures IdOk(s1, x) { assert IdOk(s, x); }
      forall x ensures SidOk(s1, x) { assert SidOk(s, x); }
    } else {
      RepliesKeep(s, s1);
    }
  }

  lemma OpenKeeps(s: State, id: nat, hasBody: bool, early: bool)
    requires Inv(s) && id !in s.seen && id != WARMUP_REQUEST_ID
    ensures Inv(HandleOpen(s, id, hasBody, early))
  {
    var s1 := HandleOpen(s, id, hasBody, early);
    assert IdOk(s, id);
    forall x ensures IdOk(s1, x) { assert IdOk(s, x); }
    forall x ensures SidOk(s1, x) { assert SidOk(s, x); }
  }

  lemma WarmupKeeps(s: State)
    requires Inv(s) && WARMUP_REQUEST_ID !in s.seen
    ensures Inv(EnqueueWarmup(s))
  {
    var s1 := EnqueueWarmup(s);
    assert IdOk(s, WARMUP_REQUEST_ID);
    forall x ensures IdOk(s1, x) { assert IdOk(s, x); }
    forall x ensures SidOk(s1, x) { assert SidOk(s, x); }
  }

  /** Queues may be permuted and may lose ids of requests that are gone. */
  lemma QueuesKeep(s: State, s1: State)
    requires Inv(s)
    requires s1 == s.(waiting := s1.waiting, pendingWrites := s1.pendingWrites)
    requires forall x :: x in s.requests || x !in s.seen ==>
      Times(s1.waiting, x) == Times(s.waiting, x) && Times(s1.pendingWrites, x) == Times(s.pendingWrites, x)
    ensures Inv(s1)
  {
    forall x ensures IdOk(s1, x) { assert IdOk(s, x); }
    forall x ensures SidOk(s1, x) { assert SidOk(s, x); }
  }

  lemma StreamOpenedKeeps(s: State, id: nat, o: Opening)
    requires Inv(s.(waiting := [id] + s.waiting))
    requires id in s.requests && s.requests[id].stream.None? && o.Opened? && o.sid !in s.streams
    ensures Inv(StreamOpened(s, id, o))
  {
    var s1 := StreamOpened(s, id, o);
    var s0 := s.(waiting := [id] + s.waiting);
    assert IdOk(s0, id);
    forall x ensures IdOk(s1, x) { assert IdOk(s0, x); }
    forall x ensures SidOk(s1, x) { assert SidOk(s0, x); }
  }

  lemma RefusedKeeps(s: State, id: nat)
    requires Inv(s.(waiting := [id] + s.waiting))
    requires id in s.requests && s.requests[id].stream.None?
    ensures Inv(FailRequest(s.(requests := s.requests - {id}), id, s.requests[id]))
  {
    var s0 := s.(waiting := [id] + s.waiting);
    var s1 := s0.(requests := s0.requests - {id});
    RemovalKeeps(s0, id, s1);
    assert IdOk(s0, id);
    QueuesKeep(s1, s.(requests := s.requests - {id}));
    FailKeeps(s.(requests := s.requests - {id}), id, s.requests[id]);
  }

  lemma DispatchOneKeeps(s: State, conn: Conn, o: Opening)
    requires Inv(s) && s.waiting != [] && OpeningAllowed(s, o)
    ensures Inv(DispatchOne(s, conn, o).0)
  {
    var id := s.waiting[0];
    var s1 := s.(waiting := s.waiting[1..]);
    PopTimes(s.waiting);
    assert IdOk(s, id);
    assert s == s1.(waiting := [id] + s1.waiting);
    var early := conn.earlyData && !conn.established;
    if id !in s.requests || s.requests[id].stream.Some? {
      QueuesKeep(s, s1);
    } else if (early && !s.requests[id].allowEarlyData) || (!conn.established && !early) {
      QueuesKeep(s, s1.(waiting := s1.waiting + [id]));
    } else if o.Opened? {
      StreamOpenedKeeps(s1, id, o);
    } else if o.Refused? {
      RefusedKeeps(s1, id);
    }
  }

  lemma {:induction false} DispatchKeeps(s: State, conn: Conn, answers: seq<Opening>)
    requires Inv(s) && DispatchAllowed(s, conn, answers)
    ensures Inv(DispatchWaiting(s, conn, answers))
    decreases |answers|
  {
    if answers != [] && s.waiting != [] {
      DispatchOneKeeps(s, conn, answers[0]);
      var (s1, stop) := DispatchOne(s, conn, answers[0]);
      if !stop { DispatchKeeps(s1, conn, answers[1..]); }
    }
  }

  /** Progress on a stream leaves its owner alone. */
  lemma StreamsKeep(s: State, s1: State)
    requires Inv(s)
    requires s1 == s.(streams := s1.streams) && s1.streams.Keys == s.streams.Keys
    requires forall sid :: sid in s.streams ==> s1.streams[sid].owner == s.streams[sid].owner
    ensures Inv(s1)
  {
    forall x ensures IdOk(s1, x) { assert IdOk(s, x); }
    forall x ensures SidOk(s1, x) { assert SidOk(s, x); }
  }

  /** A write leaves its request together with its place in the queue. */
  lemma WriteDoneKeeps(s: State, id: nat)
    requires Inv(s.(pendingWrites := [id] + s.pendingWrites)) && id in s.requests
    ensures Inv(s.(requests := s.requests[id := s.requests[id].(write := None)]))
  {
    var s0 := s.(pendingWrites := [id] + s.pendingWrites);
    var s1 := s.(requests := s.requests[id := s.requests[id].(write := None)]);
    assert IdOk(s0, id);
    forall x ensures IdOk(s1, x) { assert IdOk(s0, x); }
    forall x ensures SidOk(s1, x) { assert SidOk(s0, x); }
  }

  lemma WriteAgainKeeps(s: State, id: nat, w: Write)
    requires Inv(s.(pendingWrites := [id] + s.pendingWrites))
    requires id in s.requests && s.requests[id].write.Some?
    ensures Inv(s.(requests := s.requests[id := s.requests[id].(write := Some(w))],
                   pendingWrites := s.pendingWrites + [id]))
  {
    var s0 := s.(pendingWrites := [id] + s.pendingWrites);
    var s1 := s.(requests := s.requests[id := s.requests[id].(write := Some(w))],
                 pendingWrites := s.pendingWrites + [id]);
    assert IdOk(s0, id);
    forall x ensures IdOk(s1, x) { assert IdOk(s0, x); }
    forall x ensures SidOk(s1, x) { assert SidOk(s0, x); }
  }

  lemma AfterSendKeeps(s: State, id: nat, answer: Acceptance)
    requires Inv(s.(pendingWrites := [id] + s.pendingWrites))
    requires id in s.requests && s.requests[id].write.Some?
    ensures Inv(AfterSend(s, id, answer))
  {
    var r := s.requests[id];
    var w := r.write.value;
    var (rest, fin) := Unsent(w);
    match answer
    case Took(n) =>
      if n < |rest| {
        WriteAgainKeeps(s, id, BodyWrite(rest[n..], fin, w.token));
      } else {
        WriteDoneKeeps(s, id);
        RepliesKeep(s.(requests := s.requests[id := r.(write := None)]), AfterSend(s, id, answer));
      }
    case Full =>
      WriteAgainKeeps(s, id, w);
      assert s.requests[id := r.(write := Some(w))] == s.requests;
    case Rejected =>
      var s1 := s.(requests := s.requests[id := r.(write := None)]);
      var s2 := s1.(errReplies := s1.errReplies + multiset{WriteSlot(id, w.token)});
      WriteDoneKeeps(s, id);
      RepliesKeep(s1, s2);
      CancelKeeps(s2, id);
  }

  lemma DriveOneKeeps(s: State, a: Acceptance)
    requires Inv(s) && s.pendingWrites != []
    ensures Inv(DriveOne(s, a))
  {
    var id := s.pendingWrites[0];
    var s1 := s.(pendingWrites := s.pendingWrites[1..]);
    assert IdOk(s, id);
    if id !in s.requests || s.requests[id].stream.None? || s.requests[id].write.None? {
      PopTimes(s.pendingWrites);
      QueuesKeep(s, s1);
    } else {
      var sid := s.requests[id].stream.value;
      var (rest, fin) := Unsent(s.requests[id].write.value);
      var (st, answer) := SendBody(s.streams[sid], rest, fin, a);
      var s2 := s.(streams := s.streams[sid := st]);
      StreamsKeep(s, s2);
      assert s2 == s1.(streams := s1.streams[sid := st]).(pendingWrites := [id] + s1.pendingWrites);
      AfterSendKeeps(s1.(streams := s1.streams[sid := st]), id, answer);
    }
  }

  lemma {:induction false} DriveKeeps(s: State, answers: seq<Acceptance>)
    requires Inv(s)
    ensures Inv(DrivePendingWrites(s, answers))
    decreases |answers|
  {
    if answers != [] && s.pendingWrites != [] {
      DriveOneKeeps(s, answers[0]);
      DriveKeeps(DriveOne(s, answers[0]), answers[1..]);
    }
  }

  /** Draining moves one channel and one read position, nothing else. */
  ghost predicate OnlyDrained(s: State, s1: State, id: nat, sid: nat) {
    && s1 == s.(channels := s1.channels, streams := s1.streams)
    && s1.channels.Keys == s.channels.Keys && s1.streams.Keys == s.streams.Keys
    && (forall x :: x in s.channels && x != id ==> s1.channels[x] == s.channels[x])
    && (forall x :: x in s.streams && x != sid ==> s1.streams[x] == s.streams[x])
    && (id in s.channels ==> s1.channels[id].stream == s.channels[id].stream
                             && s.channels[id].sent <= s1.channels[id].sent
                             && (s1.channels[id].receiverOpen ==> s.channels[id].receiverOpen))
    && (sid in s.streams ==> s1.streams[sid] == s.streams[sid].(pos := s1.streams[sid].pos))
  }

  lemma OnlyDrainedTrans(s: State, s1: State, s2: State, id: nat, sid: nat)
    requires OnlyDrained(s, s1, id, sid) && OnlyDrained(s1, s2, id, sid)
    ensures OnlyDrained(s, s2, id, sid)
  {}

  lemma TurnDrains(s: State, id: nat, sid: nat, turn: Turn)
    requires id in s.channels && sid in s.streams && s.streams[sid].pos <= |s.streams[sid].body|
    ensures var s1 := s.(channels := s.channels[id := Consume(s.channels[id], turn.takes, turn.closes)]);
            && OnlyDrained(s, s1, id, sid)
            && (turn.recv.Read? ==> OnlyDrained(s1, DrainOne(s1, id, sid, turn.recv.n), id, sid))
  {}

  lemma {:induction false} DrainLoopFrame(s: State, id: nat, sid: nat, script: seq<Turn>)
    ensures OnlyDrained(s, DrainLoop(s, id, sid, script).0, id, sid)
    ensures var d := DrainLoop(s, id, sid, script).1; d.Broken? ==> d.error == RecvFailed
    decreases |script|
  {
    if script != [] && id in s.channels && sid in s.streams
       && s.streams[sid].pos <= |s.streams[sid].body| {
      var turn := script[0];
      var s1 := s.(channels := s.channels[id := Consume(s.channels[id], turn.takes, turn.closes)]);
      TurnDrains(s, id, sid, turn);
      if Accepts(s1.channels[id]) == Ready && turn.recv.Read? && Available(s1.streams[sid], turn.recv.n) != 0 {
        var s2 := DrainOne(s1, id, sid, turn.recv.n);
        DrainLoopFrame(s2, id, sid, script[1..]);
        OnlyDrainedTrans(s, s1, s2, id, sid);
        OnlyDrainedTrans(s, s2, DrainLoop(s2, id, sid, script[1..]).0, id, sid);
      }
    }
  }

  lemma OnlyDrainedKeeps(s: State, s1: State, id: nat, sid: nat)
    requires Inv(s) && OnlyDrained(s, s1, id, sid)
    ensures Inv(s1)
  {
    forall x ensures IdOk(s1, x) { assert IdOk(s, x); }
    forall x ensures SidOk(s1, x) { assert SidOk(s, x); }
  }

  /** The blocked marker may name any live request that has its stream. */
  lemma BlockedKeeps(s: State, id: nat)
    requires Inv(s) && s.responseBlocked.None?
    requires id in s.requests && s.requests[id].stream.Some? && !s.requests[id].discard
    ensures Inv(s.(responseBlocked := Some(id)))
  {
    var s1 := s.(responseBlocked := Some(id));
    assert IdOk(s, id);
    forall x ensures IdOk(s1, x) { assert IdOk(s, x); }
    forall x ensures SidOk(s1, x) { assert SidOk(s, x); }
  }

  lemma ErrorKeeps(s: State, e: Error)
    requires Inv(s) && Survivable(Some(e))
    ensures Inv(s.(error := Some(e)))
  {
    var s1 := s.(error := Some(e));
    forall x ensures IdOk(s1, x) { assert IdOk(s, x); }
    forall x ensures SidOk(s1, x) { assert SidOk(s, x); }
  }

  lemma AfterDeliveryKeeps(s: State, id: nat, d: Delivery)
    requires Inv(s) && s.responseBlocked.None?
    requires d.Blocked? ==> id in s.requests && s.requests[id].stream.Some? && !s.requests[id].discard
    requires d.Broken? ==> d.error == RecvFailed
    ensures Inv(AfterDelivery(s, id, d))
  {
    match d
    case Ready =>
    case Blocked => BlockedKeeps(s, id);
    case Closed => CancelKeeps(s, id);
    case Broken(e) => ErrorKeeps(s, e);
  }

  lemma DrainKeeps(s: State, id: nat, script: seq<Turn>)
    requires Inv(s) && s.responseBlocked.None?
    requires id in s.requests && s.requests[id].stream.Some? && !s.requests[id].discard
    ensures var (s1, d) := DrainResponseBody(s, id, script); Inv(AfterDelivery(s1, id, d))
  {
    var sid := s.requests[id].stream.value;
    DrainLoopFrame(s, id, sid, script);
    var (s1, d) := DrainLoop(s, id, sid, script);
    OnlyDrainedKeeps(s, s1, id, sid);
    AfterDeliveryKeeps(s1, id, d);
  }

  lemma DiscardKeeps(s: State, id: nat, script: seq<Turn>)
    requires Inv(s) && s.responseBlocked.None?
    requires id in s.requests && s.requests[id].stream.Some?
    ensures var (s1, d) := DiscardResponseBody(s, id, script); Inv(AfterDelivery(s1, id, d))
  {
    var (s1, d) := DiscardResponseBody(s, id, script);
    StreamsKeep(s, s1);
    AfterDeliveryKeeps(s1, id, d);
  }

  /** Forgetting the marker is harmless once no frame waits behind it. */
  lemma UnblockRequestKeeps(s: State, id: nat)
    requires Inv(s) && s.responseBlocked == Some(id) && id in s.requests
    ensures Inv(s.(responseBlocked := None, requests := s.requests[id := s.requests[id].(pendingResponse := None)]))
  {
    assert IdOk(s, id);
    var s1 := s.(responseBlocked := None,
                 requests := s.requests[id := s.requests[id].(pendingResponse := None)]);
    forall x ensures IdOk(s1, x) { assert IdOk(s, x); }
    forall x ensures SidOk(s1, x) { assert SidOk(s, x); }
  }

  lemma UnblockKeeps(s: State, id: nat)
    requires Inv(s) && s.responseBlocked == Some(id)
    requires id !in s.requests || s.requests[id].pendingResponse.None?
    ensures Inv(s.(responseBlocked := None))
  {
    var s1 := s.(responseBlocked := None);
    forall x ensures IdOk(s1, x) { assert IdOk(s, x); }
    forall x ensures SidOk(s1, x) { assert SidOk(s, x); }
  }

  lemma RetryKeeps(s: State, script: seq<Turn>)
    requires Inv(s)
    ensures Inv(RetryBlocked(s, script))
  {
    if s.responseBlocked.Some? {
      var id := s.responseBlocked.value;
      assert IdOk(s, id);
      if id !in s.requests || s.requests[id].pendingResponse.None? { UnblockKeeps(s, id); }
      if id in s.requests {
        if s.requests[id].pendingResponse.Some? {
          UnblockRequestKeeps(s, id);
          var item := s.requests[id].pendingResponse.value;
          var s1 := s.(responseBlocked := None,
                       requests := s.requests[id := s.requests[id].(pendingResponse := None)]);
          var d := Accepts(s.channels[id]);
          if d != Blocked {
            PushKeeps(s1, id, item);
            AfterDeliveryKeeps(Push(s1, id, item), id, d);
          }
        } else {
          DrainKeeps(s.(responseBlocked := None), id, script);
        }
      }
    }
  }

  lemma StartedKeeps(s: State, id: nat, s1: State)
    requires Inv(s) && id in s.requests && s.requests[id].stream.Some?
    requires s1 == s.(requests := s.requests[id := s.requests[id].(bodyRx := false, responseTx := false, started := true)])
    ensures Inv(s1)
  {
    assert IdOk(s, id);
    forall x ensures IdOk(s1, x) { assert IdOk(s, x); }
    forall x ensures SidOk(s1, x) { assert SidOk(s, x); }
  }

  lemma ReceiverClosedKeeps(s: State, id: nat)
    requires Inv(s) && id in s.channels
    ensures Inv(s.(channels := s.channels[id := s.channels[id].(receiverOpen := false)]))
  {
    var s1 := s.(channels := s.channels[id := s.channels[id].(receiverOpen := false)]);
    forall x ensures IdOk(s1, x) { assert IdOk(s, x); }
    forall x ensures SidOk(s1, x) { assert SidOk(s, x); }
  }

  lemma DeliverHeadKeeps(s: State, id: nat, receiverAlive: bool)
    requires Inv(s) && id in s.requests && s.requests[id].stream.Some? && !s.requests[id].started
    ensures Inv(DeliverHead(s, id, receiverAlive))
  {
    var r := s.requests[id];
    var s1 := s.(requests := s.requests[id := r.(bodyRx := false, responseTx := false, started := true)]);
    assert IdOk(s, id);
    StartedKeeps(s, id, s1);
    if !r.discard {
      var s2 := s1.(okReplies := s1.okReplies + multiset{ResponseSlot(id)});
      RepliesKeep(s1, s2);
      ReceiverClosedKeeps(s2, id);
      CancelKeeps(s2.(channels := s2.channels[id := s2.channels[id].(receiverOpen := false)]), id);
    }
  }

  lemma DeliverTrailersKeeps(s: State, id: nat, block: nat)
    requires Inv(s) && s.responseBlocked.None?
    requires id in s.requests && s.requests[id].stream.Some? && s.requests[id].started
    ensures Inv(DeliverTrailers(s, id, block))
  {
    assert IdOk(s, id);
    var d := Accepts(s.channels[id]);
    if d == Blocked {
      var s1 := DeliverTrailers(s, id, block);
      forall x ensures IdOk(s1, x) { assert IdOk(s, x); }
      forall x ensures SidOk(s1, x) { assert SidOk(s, x); }
    } else {
      PushKeeps(s, id, Trailers(block));
      AfterDeliveryKeeps(Push(s, id, Trailers(block)), id, d);
    }
  }

  lemma HeadersKeeps(s: State, sid: nat, e: StreamEvent)
    requires Inv(s) && s.responseBlocked.None? && e.HeadersEvent? && sid in s.streamToRequest
    ensures Inv(HandleHeaders(s, sid, s.streamToRequest[sid], e))
  {
    var id := s.streamToRequest[sid];
    assert SidOk(s, sid);
    if !s.requests[id].started {
      CancelKeeps(s, id);
      DeliverHeadKeeps(s, id, e.receiverAlive);
    } else {
      var s1 := s.(streams := s.streams[sid := s.streams[sid].(trailersRead := true)]);
      StreamsKeep(s, s1);
      CancelKeeps(s1, id);
      DeliverTrailersKeeps(s1, id, e.block);
    }
  }

  lemma FinishedKeeps(s: State, sid: nat)
    requires Inv(s) && sid in s.streamToRequest
    ensures Inv(HandleFinished(s, sid, s.streamToRequest[sid]))
  {
    var id := s.streamToRequest[sid];
    assert SidOk(s, sid);
    var s1 := s.(requests := s.requests - {id}, streamToRequest := s.streamToRequest - {sid});
    RemovalKeeps(s, id, s1);
    assert IdOk(s, id);
    var s2 := s1.(channels := s1.channels[id := s1.channels[id].(finished := true)]);
    forall x ensures IdOk(s2, x) { assert IdOk(s1, x); }
    forall x ensures SidOk(s2, x) { assert SidOk(s1, x); }
    var s3 := HandleFinished(s, sid, id);
    if s.requests[id].discard || s.requests[id].started {
      RepliesKeep(s2, s3);
    } else {
      RepliesKeep(s1, s3);
    }
  }

  lemma EventKeeps(s: State, e: Event)
    requires Inv(s) && s.responseBlocked.None?
    ensures Inv(HandleEvent(s, e))
  {
    match e
    case PollError => ErrorKeeps(s, PollFailed);
    case GoAway =>
      forall x ensures IdOk(s.(draining := true), x) { assert IdOk(s, x); }
      forall x ensures SidOk(s.(draining := true), x) { assert SidOk(s, x); }
    case OnStream(sid, event) =>
      assert SidOk(s, sid);
      if sid in s.streamToRequest {
        var id := s.streamToRequest[sid];
        match event
        case HeadersEvent(_, _, _, _) => HeadersKeeps(s, sid, event);
        case DataEvent(script) =>
          if s.requests[id].discard { DiscardKeeps(s, id, script); } else { DrainKeeps(s, id, script); }
        case FinishedEvent => FinishedKeeps(s, sid);
        case ResetEvent => CancelKeeps(s, id);
        case PriorityUpdateEvent =>
      }
  }

  lemma {:induction false} PollKeeps(s: State, events: seq<Event>)
    requires Inv(s)
    ensures Inv(PollEvents(s, events))
    decreases |events|
  {
    if events != [] && !Paused(s) {
      EventKeeps(s, events[0]);
      PollKeeps(HandleEvent(s, events[0]), events[1..]);
    }
  }

  lemma CommandKeeps(s: State, cmd: Command)
    requires Inv(s) && Allowed(s, Commanded(cmd))
    ensures Inv(HandleCommand(s, cmd))
  {
    match cmd
    case Open(id, hasBody, early) => OpenKeeps(s, id, hasBody, early);
    case Body(id, data, fin, token) =>
      var s1 := s.(received := s.received + {WriteSlot(id, token)});
      RepliesKeep(s, s1);
      EnqueueWriteKeeps(s1, id, BodyWrite(data, fin, token));
    case BodyTrailers(id, token) =>
      var s1 := s.(received := s.received + {WriteSlot(id, token)});
      RepliesKeep(s, s1);
      EnqueueWriteKeeps(s1, id, TrailersWrite(token));
    case Cancel(id) => CancelKeeps(s, id);
  }

  lemma StepKeeps(s: State, a: Action)
    requires Inv(s) && Allowed(s, a)
    ensures Inv(Step(s, a))
  {
    match a
    case Commanded(cmd) => CommandKeeps(s, cmd);
    case Warmed => WarmupKeeps(s);
    case Dispatched(conn, openings) => DispatchKeeps(s, conn, openings);
    case Driven(answers) => DriveKeeps(s, answers);
    case Polled(script, events) => RetryKeeps(s, script); PollKeeps(RetryBlocked(s, script), events);
    case Consumed(id, takes, closes) =>
      if id in s.channels {
        var s1 := Step(s, a);
        forall x ensures IdOk(s1, x) { assert IdOk(s, x); }
        forall x ensures SidOk(s1, x) { assert SidOk(s, x); }
      }
  }

  lemma StartOk()
    ensures Inv(Start)
  {
    forall x ensures IdOk(Start, x) {}
    forall x ensures SidOk(Start, x) {}
  }

  lemma {:induction false} RunKeeps(s: State, actions: seq<Action>)
    requires Inv(s) && RunAllowed(s, actions)
    ensures Inv(Run(s, actions))
    decreases |actions|
  {
    if actions != [] {
      StepKeeps(s, actions[0]);
      RunKeeps(Step(s, actions[0]), actions[1..]);
    }
  }

  /** The theorem: in every reachable state the two stream tables are inverse to each other,
      a live request waits for a stream exactly once while it has none and is queued for
      writing exactly once while it holds a write, and the loop has not failed on its own. */
  lemma IndexesAgree(actions: seq<Action>)
    requires RunAllowed(Start, actions)
    ensures var s := Run(Start, actions);
            && (forall sid :: sid in s.streamToRequest ==>
                  s.streamToRequest[sid] in s.requests && s.requests[s.streamToRequest[sid]].stream == Some(sid))
            && (forall id :: id in s.requests && s.requests[id].stream.Some? ==>
                  s.requests[id].stream.value in s.streamToRequest
                  && s.streamToRequest[s.requests[id].stream.value] == id)
            && (forall id :: id in s.requests ==>
                  && Times(s.waiting, id) == (if s.requests[id].stream.None? then 1 else 0)
                  && Times(s.pendingWrites, id) == (if s.requests[id].write.Some? then 1 else 0))
            && s.error in {None, Some(RecvFailed), Some(PollFailed)}
  {
    StartOk();
    RunKeeps(Start, actions);
    var s := Run(Start, actions);
    forall sid | sid in s.streamToRequest
      ensures s.streamToRequest[sid] in s.requests && s.requests[s.streamToRequest[sid]].stream == Some(sid)
    {
      assert SidOk(s, sid);
    }
    forall id | id in s.requests ensures IdOk(s, id) {}
  }
}
