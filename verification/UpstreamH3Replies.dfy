/**
  Conservation of one-shot replies: at every point of every run, each sender the worker has
  received was either used exactly once or is still held by exactly one live request, so
  once the table has been drained every command has had exactly one answer.
 */
module UpstreamH3Replies {
  import opened Common
  import opened UpstreamH3
  import Indexes = UpstreamH3Indexes

  /** Whether a live request still holds the sender. */
  function Held(s: State, slot: Slot): nat {
    if slot.id !in s.requests then 0 else
    var r := s.requests[slot.id];
    match slot
    case OpenedSlot(_) => if r.openTx then 1 else 0
    case ResponseSlot(_) => if r.responseTx then 1 else 0
    case WriteSlot(_, token) => if r.write.Some? && r.write.value.token == token then 1 else 0
  }

  ghost predicate SlotOk(s: State, slot: Slot) {
    && s.okReplies[slot] + s.errReplies[slot] + Held(s, slot) == (if slot in s.received then 1 else 0)
    && (slot in s.received && !slot.WriteSlot? ==> slot.id in s.seen)
  }

  ghost predicate Conserved(s: State) {
    forall slot :: SlotOk(s, slot)
  }

  lemma HeldSlotsCount(s: State, id: nat, slot: Slot)
    requires id in s.requests
    ensures HeldSlots(id, s.requests[id])[slot] == if slot.id == id then Held(s, slot) else 0
  {}

  /** Replies and tables as they were, up to what no slot can see. */
  ghost predicate SameSlots(s: State, s1: State) {
    && s1.okReplies == s.okReplies && s1.errReplies == s.errReplies && s1.received == s.received
    && s1.seen == s.seen && s1.requests.Keys == s.requests.Keys
    && (forall id :: id in s.requests ==>
          && s1.requests[id].openTx == s.requests[id].openTx
          && s1.requests[id].responseTx == s.requests[id].responseTx
          && s1.requests[id].write == s.requests[id].write)
  }

  lemma SameSlotsKeep(s: State, s1: State)
    requires Conserved(s) && SameSlots(s, s1)
    ensures Conserved(s1)
  {
    forall slot ensures SlotOk(s1, slot) { assert SlotOk(s, slot); }
  }

  /** Removing a request and failing what it holds. */
  lemma FailKeeps(s: State, id: nat, s1: State)
    requires Conserved(s) && id in s.requests
    requires s1.requests == s.requests - {id} && s1.received == s.received && s1.seen == s.seen
    requires s1.okReplies == s.okReplies
    requires s1.errReplies == s.errReplies + HeldSlots(id, s.requests[id])
    ensures Conserved(s1)
  {
    forall slot ensures SlotOk(s1, slot) {
      assert SlotOk(s, slot);
      HeldSlotsCount(s, id, slot);
    }
  }

  lemma FailRemovedKeeps(s: State, id: nat)
    requires Conserved(s) && id in s.requests
    ensures Conserved(FailRequest(s.(requests := s.requests - {id}), id, s.requests[id]))
  {
    FailKeeps(s, id, FailRequest(s.(requests := s.requests - {id}), id, s.requests[id]));
  }

  lemma CancelKeeps(s: State, id: nat)
    requires Conserved(s)
    ensures Conserved(CancelRequest(s, id))
  {
    if id in s.requests { FailKeeps(s, id, CancelRequest(s, id)); }
  }

  lemma EnqueueWriteKeeps(s: State, id: nat, write: Write)
    requires Conserved(s) && WriteSlot(id, write.token) !in s.received
    ensures Conserved(EnqueueWrite(s.(received := s.received + {WriteSlot(id, write.token)}), id, write))
  {
    var mine := WriteSlot(id, write.token);
    var s0 := s.(received := s.received + {mine});
    var s1 := EnqueueWrite(s0, id, write);
    if s1 == s0.(errReplies := s0.errReplies + multiset{mine}) {
      forall slot ensures SlotOk(s1, slot) { assert SlotOk(s, slot); }
    } else {
      forall slot ensures SlotOk(s1, slot) { assert SlotOk(s, slot); }
    }
  }

  lemma OpenKeeps(s: State, id: nat, hasBody: bool, early: bool)
    requires Conserved(s) && Indexes.Inv(s) && id !in s.seen
    ensures Conserved(HandleOpen(s, id, hasBody, early))
  {
    var s1 := HandleOpen(s, id, hasBody, early);
    assert Indexes.IdOk(s, id);
    assert SlotOk(s, OpenedSlot(id)) && SlotOk(s, ResponseSlot(id));
    forall slot ensures SlotOk(s1, slot) { assert SlotOk(s, slot); }
  }

  lemma WarmupKeeps(s: State)
    requires Conserved(s) && Indexes.Inv(s) && WARMUP_REQUEST_ID !in s.seen
    ensures Conserved(EnqueueWarmup(s))
  {
    var s1 := EnqueueWarmup(s);
    assert Indexes.IdOk(s, WARMUP_REQUEST_ID);
    forall slot ensures SlotOk(s1, slot) { assert SlotOk(s, slot); }
  }

  lemma StreamOpenedKeeps(s: State, id: nat, o: Opening)
    requires Conserved(s) && id in s.requests && o.Opened?
    ensures Conserved(StreamOpened(s, id, o))
  {
    var s1 := StreamOpened(s, id, o);
    forall slot ensures SlotOk(s1, slot) { assert SlotOk(s, slot); }
  }

  lemma DispatchOneKeeps(s: State, conn: Conn, o: Opening)
    requires Conserved(s) && s.waiting != []
    ensures Conserved(DispatchOne(s, conn, o).0)
  {
    var id := s.waiting[0];
    var s1 := s.(waiting := s.waiting[1..]);
    var early := conn.earlyData && !conn.established;
    SameSlotsKeep(s, s1);
    if id !in s.requests || s.requests[id].stream.Some? {
    } else if (early && !s.requests[id].allowEarlyData) || (!conn.established && !early) {
      SameSlotsKeep(s, s1.(waiting := s1.waiting + [id]));
    } else {
      match o
      case Opened(_, _, _) => StreamOpenedKeeps(s1, id, o);
      case NoCredit => SameSlotsKeep(s, s1.(waiting := [id] + s1.waiting));
      case Refused => FailRemovedKeeps(s1, id);
    }
  }

  lemma {:induction false} DispatchKeeps(s: State, conn: Conn, answers: seq<Opening>)
    requires Conserved(s)
    ensures Conserved(DispatchWaiting(s, conn, answers))
    decreases |answers|
  {
    if answers != [] && s.waiting != [] {
      DispatchOneKeeps(s, conn, answers[0]);
      var (s1, stop) := DispatchOne(s, conn, answers[0]);
      if !stop { DispatchKeeps(s1, conn, answers[1..]); }
    }
  }

  /** A write is answered as it leaves its request. */
  lemma WriteAnsweredKeeps(s: State, id: nat, s1: State)
    requires Conserved(s) && id in s.requests && s.requests[id].write.Some?
    requires s1.requests == s.requests[id := s.requests[id].(write := None)]
    requires s1.received == s.received && s1.seen == s.seen
    requires var mine := multiset{WriteSlot(id, s.requests[id].write.value.token)};
             || (s1.okReplies == s.okReplies + mine && s1.errReplies == s.errReplies)
             || (s1.okReplies == s.okReplies && s1.errReplies == s.errReplies + mine)
    ensures Conserved(s1)
  {
    forall slot ensures SlotOk(s1, slot) { assert SlotOk(s, slot); }
  }

  lemma WriteShrunkKeeps(s: State, id: nat, s1: State, w: Write)
    requires Conserved(s) && id in s.requests && s.requests[id].write.Some?
    requires w.token == s.requests[id].write.value.token
    requires s1.requests == s.requests[id := s.requests[id].(write := Some(w))]
    requires s1.received == s.received && s1.seen == s.seen
    requires s1.okReplies == s.okReplies && s1.errReplies == s.errReplies
    ensures Conserved(s1)
  {
    forall slot ensures SlotOk(s1, slot) { assert SlotOk(s, slot); }
  }

  lemma AfterSendKeeps(s: State, id: nat, answer: Acceptance)
    requires Conserved(s) && id in s.requests && s.requests[id].write.Some?
    ensures Conserved(AfterSend(s, id, answer))
  {
    var r := s.requests[id];
    var (rest, fin) := Unsent(r.write.value);
    var s1 := AfterSend(s, id, answer);
    match answer
    case Took(n) =>
      if n < |rest| {
        WriteShrunkKeeps(s, id, s1, BodyWrite(rest[n..], fin, r.write.value.token));
      } else {
        WriteAnsweredKeeps(s, id, s1);
      }
    case Full => SameSlotsKeep(s, s1);
    case Rejected =>
      var s2 := s.(requests := s.requests[id := r.(write := None)],
                   errReplies := s.errReplies + multiset{WriteSlot(id, r.write.value.token)});
      WriteAnsweredKeeps(s, id, s2);
      CancelKeeps(s2, id);
  }

  lemma {:induction false} DriveKeeps(s: State, answers: seq<Acceptance>)
    requires Conserved(s)
    ensures Conserved(DrivePendingWrites(s, answers))
    decreases |answers|
  {
    if answers != [] && s.pendingWrites != [] {
      var id := s.pendingWrites[0];
      var s1 := s.(pendingWrites := s.pendingWrites[1..]);
      SameSlotsKeep(s, s1);
      if id in s.requests && s.requests[id].stream.Some? && s.requests[id].write.Some?
         && s.requests[id].stream.value in s.streams {
        var sid := s.requests[id].stream.value;
        var (rest, fin) := Unsent(s.requests[id].write.value);
        var (st, answer) := SendBody(s.streams[sid], rest, fin, answers[0]);
        var s2 := s1.(streams := s1.streams[sid := st]);
        SameSlotsKeep(s1, s2);
        AfterSendKeeps(s2, id, answer);
      }
      DriveKeeps(DriveOne(s, answers[0]), answers[1..]);
    }
  }

  lemma AfterDeliveryKeeps(s: State, id: nat, d: Delivery)
    requires Conserved(s)
    ensures Conserved(AfterDelivery(s, id, d))
  {
    if d.Closed? { CancelKeeps(s, id); } else { SameSlotsKeep(s, AfterDelivery(s, id, d)); }
  }

  lemma DrainKeeps(s: State, id: nat, script: seq<Turn>)
    requires Conserved(s)
    ensures var (s1, d) := DrainResponseBody(s, id, script); Conserved(AfterDelivery(s1, id, d))
    ensures var (s1, d) := DiscardResponseBody(s, id, script); Conserved(AfterDelivery(s1, id, d))
  {
    var (s1, d) := DrainResponseBody(s, id, script);
    if id in s.requests && s.requests[id].stream.Some? {
      Indexes.DrainLoopFrame(s, id, s.requests[id].stream.value, script);
    }
    SameSlotsKeep(s, s1);
    AfterDeliveryKeeps(s1, id, d);
    var (s2, d2) := DiscardResponseBody(s, id, script);
    SameSlotsKeep(s, s2);
    AfterDeliveryKeeps(s2, id, d2);
  }

  lemma RetryKeeps(s: State, script: seq<Turn>)
    requires Conserved(s)
    ensures Conserved(RetryBlocked(s, script))
  {
    if s.responseBlocked.Some? {
      var id := s.responseBlocked.value;
      var s0 := s.(responseBlocked := None);
      SameSlotsKeep(s, s0);
      if id in s.requests && s.requests[id].pendingResponse.Some? && id in s.channels {
        var s1 := s0.(requests := s0.requests[id := s0.requests[id].(pendingResponse := None)]);
        var s2 := Push(s1, id, s.requests[id].pendingResponse.value);
        SameSlotsKeep(s0, s2);
        AfterDeliveryKeeps(s2, id, Accepts(s.channels[id]));
      } else {
        DrainKeeps(s0, id, script);
      }
    }
  }

  lemma DeliverTrailersKeeps(s: State, id: nat, block: nat)
    requires Conserved(s) && id in s.requests
    ensures Conserved(DeliverTrailers(s, id, block))
  {
    if id !in s.channels || Accepts(s.channels[id]) == Blocked {
      SameSlotsKeep(s, DeliverTrailers(s, id, block));
    } else {
      SameSlotsKeep(s, Push(s, id, Trailers(block)));
      AfterDeliveryKeeps(Push(s, id, Trailers(block)), id, Accepts(s.channels[id]));
    }
  }

  lemma HeadersKeeps(s: State, sid: nat, id: nat, e: StreamEvent)
    requires Conserved(s) && e.HeadersEvent?
    ensures Conserved(HandleHeaders(s, sid, id, e))
  {
    if id !in s.requests {
      SameSlotsKeep(s, HandleHeaders(s, sid, id, e));
    } else if !s.requests[id].started {
      CancelKeeps(s, id);
      DeliverHeadKeeps(s, id, e.receiverAlive);
    } else {
      var s1 := if sid in s.streams
                then s.(streams := s.streams[sid := s.streams[sid].(trailersRead := true)]) else s;
      SameSlotsKeep(s, s1);
      CancelKeeps(s1, id);
      DeliverTrailersKeeps(s1, id, e.block);
    }
  }

  lemma HeadAnsweredKeeps(s: State, s1: State, id: nat)
    requires Conserved(s) && id in s.requests && s.requests[id].responseTx
    requires id in s1.requests && s1.requests == s.requests[id := s1.requests[id]]
    requires var (r, r1) := (s.requests[id], s1.requests[id]);
             !r1.responseTx && r1.openTx == r.openTx && r1.write == r.write
    requires s1.okReplies == s.okReplies + multiset{ResponseSlot(id)} && s1.errReplies == s.errReplies
    requires s1.received == s.received && s1.seen == s.seen
    ensures Conserved(s1)
  {
    forall slot ensures SlotOk(s1, slot) { assert SlotOk(s, slot); }
  }

  lemma DeliverHeadKeeps(s: State, id: nat, receiverAlive: bool)
    requires Conserved(s) && id in s.requests
    ensures Conserved(DeliverHead(s, id, receiverAlive))
  {
    var r := s.requests[id];
    if r.discard || !r.bodyRx || !r.responseTx {
      SameSlotsKeep(s, DeliverHead(s, id, receiverAlive));
    } else {
      var s1 := s.(requests := s.requests[id := r.(bodyRx := false, responseTx := false, started := true)],
                   okReplies := s.okReplies + multiset{ResponseSlot(id)});
      HeadAnsweredKeeps(s, s1, id);
      var s2 := if id in s1.channels
                then s1.(channels := s1.channels[id := s1.channels[id].(receiverOpen := false)]) else s1;
      SameSlotsKeep(s1, s2);
      CancelKeeps(s2, id);
    }
  }

  /** A finished stream has answered its head or fails it now, and never owes an `opened`. */
  lemma FinishedKeeps(s: State, sid: nat)
    requires Conserved(s) && Indexes.Inv(s) && sid in s.streamToRequest
    ensures Conserved(HandleFinished(s, sid, s.streamToRequest[sid]))
  {
    var id := s.streamToRequest[sid];
    assert Indexes.SidOk(s, sid) && Indexes.IdOk(s, id);
    var r := s.requests[id];
    assert FailedByFinish(id, r) == HeldSlots(id, r);
    FailKeeps(s, id, HandleFinished(s, sid, id));
  }

  lemma EventKeeps(s: State, e: Event)
    requires Conserved(s) && Indexes.Inv(s)
    ensures Conserved(HandleEvent(s, e))
  {
    if e.OnStream? && e.sid in s.streamToRequest {
      var id := s.streamToRequest[e.sid];
      match e.event
      case HeadersEvent(_, _, _, _) => HeadersKeeps(s, e.sid, id, e.event);
      case DataEvent(script) => DrainKeeps(s, id, script);
      case FinishedEvent => FinishedKeeps(s, e.sid);
      case ResetEvent => CancelKeeps(s, id);
      case PriorityUpdateEvent =>
    } else {
      SameSlotsKeep(s, HandleEvent(s, e));
    }
  }

  lemma {:induction false} PollKeeps(s: State, events: seq<Event>)
    requires Conserved(s) && Indexes.Inv(s)
    ensures Conserved(PollEvents(s, events))
    decreases |events|
  {
    if events != [] && !Paused(s) {
      EventKeeps(s, events[0]);
      Indexes.EventKeeps(s, events[0]);
      PollKeeps(HandleEvent(s, events[0]), events[1..]);
    }
  }

  lemma StepKeeps(s: State, a: Action)
    requires Conserved(s) && Indexes.Inv(s) && Allowed(s, a)
    ensures Conserved(Step(s, a))
  {
    match a
    case Commanded(Open(id, hasBody, early)) => OpenKeeps(s, id, hasBody, early);
    case Commanded(Body(id, data, fin, token)) => EnqueueWriteKeeps(s, id, BodyWrite(data, fin, token));
    case Commanded(BodyTrailers(id, token)) => EnqueueWriteKeeps(s, id, TrailersWrite(token));
    case Commanded(Cancel(id)) => CancelKeeps(s, id);
    case Warmed => WarmupKeeps(s);
    case Dispatched(conn, openings) => DispatchKeeps(s, conn, openings);
    case Driven(answers) => DriveKeeps(s, answers);
    case Polled(script, events) =>
      RetryKeeps(s, script);
      Indexes.RetryKeeps(s, script);
      PollKeeps(RetryBlocked(s, script), events);
    case Consumed(_, _, _) => SameSlotsKeep(s, Step(s, a));
  }

  lemma {:induction false} RunKeeps(s: State, actions: seq<Action>)
    requires Conserved(s) && Indexes.Inv(s) && RunAllowed(s, actions)
    ensures Conserved(Run(s, actions))
    decreases |actions|
  {
    if actions != [] {
      StepKeeps(s, actions[0]);
      Indexes.StepKeeps(s, actions[0]);
      RunKeeps(Step(s, actions[0]), actions[1..]);
    }
  }

  lemma {:induction false} FailAllKeeps(s: State, order: seq<nat>)
    requires Conserved(s)
    ensures Conserved(FailAll(s, order)) && FailAll(s, order).received == s.received
    ensures forall id :: id in FailAll(s, order).requests ==> id in s.requests && id !in order
    decreases |order|
  {
    if order != [] {
      var s1 := FailAll(s, order[..|order| - 1]);
      var id := order[|order| - 1];
      FailAllKeeps(s, order[..|order| - 1]);
      assert order == order[..|order| - 1] + [id];
      if id in s1.requests { FailRemovedKeeps(s1, id); }
    }
  }

  /** Once the table has been drained, every sender received has been used exactly once. */
  lemma DrainedMeansAnswered(s: State, order: seq<nat>)
    requires Conserved(s) && forall id :: id in s.requests ==> id in order
    ensures var s1 := FailAll(s, order);
            forall slot :: s1.okReplies[slot] + s1.errReplies[slot] == (if slot in s.received then 1 else 0)
  {
    FailAllKeeps(s, order);
    var s1 := FailAll(s, order);
    forall slot ensures s1.okReplies[slot] + s1.errReplies[slot] == (if slot in s.received then 1 else 0) {
      assert SlotOk(s1, slot);
    }
  }

  lemma StartConserved()
    ensures Conserved(Start)
  {
    forall slot ensures SlotOk(Start, slot) {}
  }
}
