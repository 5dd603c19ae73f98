/**
  What no step ever takes back: a request id that is gone stays gone, a stream keeps its
  owner and its content, an accepted GOAWAY stays, and no stream opens after it.
 */
module UpstreamH3Order {
  import opened Common
  import opened UpstreamH3
  import Indexes = UpstreamH3Indexes
  import Replies = UpstreamH3Replies

  /** `s1` is later than `s`, with no command, no new stream and no upload in between. */
  ghost predicate Onward(s: State, s1: State) {
    && s1.received == s.received && s1.seen == s.seen
    && (s.draining ==> s1.draining)
    && (forall slot :: SlotOnward(s, s1, slot))
    && (forall sid :: SidOnward(s, s1, sid))
    && (forall id :: IdOnward(s, s1, id))
  }

  /** Only response heads are answered well; anything may be answered badly. */
  predicate SlotOnward(s: State, s1: State, slot: Slot) {
    && s.okReplies[slot] <= s1.okReplies[slot]
    && (!slot.ResponseSlot? ==> s1.okReplies[slot] == s.okReplies[slot])
    && s.errReplies[slot] <= s1.errReplies[slot]
  }

  predicate SidOnward(s: State, s1: State, sid: nat) {
    && (sid in s.streams <==> sid in s1.streams)
    && (sid in s.streams ==>
          var st := s1.streams[sid];
          st == s.streams[sid].(pos := st.pos, trailersRead := st.trailersRead))
  }

  predicate IdOnward(s: State, s1: State, id: nat) {
    && (id in s1.requests ==>
          && id in s.requests
          && s1.requests[id].stream == s.requests[id].stream
          && s1.requests[id].write == s.requests[id].write
          && s1.requests[id].hasBody == s.requests[id].hasBody
          && s1.requests[id].openTx == s.requests[id].openTx)
    && (id in s1.channels <==> id in s.channels)
    && (id in s.channels ==> ChannelOnward(s.channels[id], s1.channels[id]))
  }

  predicate ChannelOnward(ch: Channel, ch1: Channel) {
    ch1.stream == ch.stream && ch.sent <= ch1.sent
  }

  lemma OnwardTransitive(a: State, b: State, c: State)
    requires Onward(a, b) && Onward(b, c)
    ensures Onward(a, c)
  {
    forall slot ensures SlotOnward(a, c, slot) { assert SlotOnward(a, b, slot) && SlotOnward(b, c, slot); }
    forall sid ensures SidOnward(a, c, sid) { assert SidOnward(a, b, sid) && SidOnward(b, c, sid); }
    forall id ensures IdOnward(a, c, id) { assert IdOnward(a, b, id) && IdOnward(b, c, id); }
  }

  /** A change confined to one request, one stream's read side and a few more replies. */
  lemma LocalOnward(s: State, s1: State, id: nat, sid: nat, ok: multiset<Slot>, err: multiset<Slot>)
    requires s1.received == s.received && s1.seen == s.seen && (s.draining ==> s1.draining)
    requires s1.okReplies == s.okReplies || s1.okReplies == s.okReplies + ok
    requires forall slot :: slot in ok ==> slot.ResponseSlot?
    requires s1.channels == s.channels
             || (id in s.channels && id in s1.channels && s1.channels == s.channels[id := s1.channels[id]]
                 && ChannelOnward(s.channels[id], s1.channels[id]))
    requires s1.errReplies == s.errReplies || s1.errReplies == s.errReplies + err
    requires s1.streams == s.streams
             || (sid in s.streams && sid in s1.streams && SidOnward(s, s1, sid)
                 && s1.streams == s.streams[sid := s1.streams[sid]])
    requires s1.requests == s.requests || s1.requests == s.requests - {id}
             || (id in s1.requests && IdOnward(s, s1, id) && s1.requests == s.requests[id := s1.requests[id]])
    ensures Onward(s, s1)
  {
    forall slot ensures SlotOnward(s, s1, slot) {}
    forall x ensures SidOnward(s, s1, x) {}
    forall x ensures IdOnward(s, s1, x) {}
  }

  lemma CancelOnward(s: State, id: nat)
    ensures Onward(s, CancelRequest(s, id))
  {
    if id in s.requests {
      LocalOnward(s, CancelRequest(s, id), id, 0, multiset{}, HeldSlots(id, s.requests[id]));
    } else {
      LocalOnward(s, s, id, 0, multiset{}, multiset{});
    }
  }

  lemma AfterDeliveryOnward(s: State, id: nat, d: Delivery)
    ensures Onward(s, AfterDelivery(s, id, d))
  {
    if d.Closed? { CancelOnward(s, id); }
    else { LocalOnward(s, AfterDelivery(s, id, d), id, 0, multiset{}, multiset{}); }
  }

  lemma DrainOnward(s: State, id: nat, script: seq<Turn>)
    ensures var (s1, d) := DrainResponseBody(s, id, script); Onward(s, AfterDelivery(s1, id, d))
  {
    var (s1, d) := DrainResponseBody(s, id, script);
    if id in s.requests && s.requests[id].stream.Some? {
      var sid := s.requests[id].stream.value;
      Indexes.DrainLoopFrame(s, id, sid, script);
      assert s1.streams == if sid in s.streams then s.streams[sid := s1.streams[sid]] else s.streams;
      LocalOnward(s, s1, id, sid, multiset{}, multiset{});
    } else {
      LocalOnward(s, s1, id, 0, multiset{}, multiset{});
    }
    AfterDeliveryOnward(s1, id, d);
    OnwardTransitive(s, s1, AfterDelivery(s1, id, d));
  }

  lemma DiscardOnward(s: State, id: nat, script: seq<Turn>)
    ensures var (s1, d) := DiscardResponseBody(s, id, script); Onward(s, AfterDelivery(s1, id, d))
  {
    var (s1, d) := DiscardResponseBody(s, id, script);
    var sid := if id in s.requests && s.requests[id].stream.Some? then s.requests[id].stream.value else 0;
    LocalOnward(s, s1, id, sid, multiset{}, multiset{});
    AfterDeliveryOnward(s1, id, d);
    OnwardTransitive(s, s1, AfterDelivery(s1, id, d));
  }

  lemma RetryOnward(s: State, script: seq<Turn>)
    ensures Onward(s, RetryBlocked(s, script))
  {
    if s.responseBlocked.Some? {
      var id := s.responseBlocked.value;
      var s0 := s.(responseBlocked := None);
      LocalOnward(s, s0, id, 0, multiset{}, multiset{});
      if id in s.requests && s.requests[id].pendingResponse.Some? && id in s.channels {
        var s1 := Push(s0.(requests := s0.requests[id := s0.requests[id].(pendingResponse := None)]),
                       id, s.requests[id].pendingResponse.value);
        LocalOnward(s, s1, id, 0, multiset{}, multiset{});
        AfterDeliveryOnward(s1, id, Accepts(s.channels[id]));
        OnwardTransitive(s, s1, AfterDelivery(s1, id, Accepts(s.channels[id])));
        LocalOnward(s, s, id, 0, multiset{}, multiset{});
      } else if id in s.requests {
        var (s1, d) := DrainResponseBody(s0, id, script);
        DrainOnward(s0, id, script);
        OnwardTransitive(s, s0, AfterDelivery(s1, id, d));
      }
    } else {
      LocalOnward(s, s, 0, 0, multiset{}, multiset{});
    }
  }

  lemma DeliverHeadOnward(s: State, id: nat, receiverAlive: bool)
    requires id in s.requests
    ensures Onward(s, DeliverHead(s, id, receiverAlive))
  {
    var r := s.requests[id];
    var s1 := s.(requests := s.requests[id := r.(bodyRx := false, responseTx := false, started := true)],
                 okReplies := s.okReplies + multiset{ResponseSlot(id)});
    if r.discard || !r.bodyRx || !r.responseTx || receiverAlive {
      LocalOnward(s, DeliverHead(s, id, receiverAlive), id, 0, multiset{ResponseSlot(id)}, multiset{});
    } else {
      var s2 := if id in s1.channels
                then s1.(channels := s1.channels[id := s1.channels[id].(receiverOpen := false)]) else s1;
      LocalOnward(s, s2, id, 0, multiset{ResponseSlot(id)}, multiset{});
      CancelOnward(s2, id);
      OnwardTransitive(s, s2, CancelRequest(s2, id));
    }
  }

  lemma DeliverTrailersOnward(s: State, id: nat, block: nat)
    requires id in s.requests
    ensures Onward(s, DeliverTrailers(s, id, block))
  {
    if id !in s.channels || Accepts(s.channels[id]) == Blocked {
      LocalOnward(s, DeliverTrailers(s, id, block), id, 0, multiset{}, multiset{});
    } else {
      var s1 := Push(s, id, Trailers(block));
      LocalOnward(s, s1, id, 0, multiset{}, multiset{});
      AfterDeliveryOnward(s1, id, Accepts(s.channels[id]));
      OnwardTransitive(s, s1, AfterDelivery(s1, id, Accepts(s.channels[id])));
    }
  }

  lemma HeadersOnward(s: State, sid: nat, id: nat, e: StreamEvent)
    requires e.HeadersEvent?
    ensures Onward(s, HandleHeaders(s, sid, id, e))
  {
    if id !in s.requests {
      LocalOnward(s, HandleHeaders(s, sid, id, e), id, sid, multiset{}, multiset{});
    } else if !s.requests[id].started {
      LocalOnward(s, s, id, sid, multiset{}, multiset{});
      CancelOnward(s, id);
      DeliverHeadOnward(s, id, e.receiverAlive);
    } else {
      var s1 := if sid in s.streams
                then s.(streams := s.streams[sid := s.streams[sid].(trailersRead := true)]) else s;
      LocalOnward(s, s1, id, sid, multiset{}, multiset{});
      CancelOnward(s1, id);
      DeliverTrailersOnward(s1, id, e.block);
      OnwardTransitive(s, s1, HandleHeaders(s, sid, id, e));
    }
  }

  lemma FinishedOnward(s: State, sid: nat, id: nat)
    ensures Onward(s, HandleFinished(s, sid, id))
  {
    var s1 := HandleFinished(s, sid, id);
    if id in s.requests {
      LocalOnward(s, s1, id, sid, multiset{}, FailedByFinish(id, s.requests[id]));
    } else {
      LocalOnward(s, s1, id, sid, multiset{}, multiset{});
    }
  }

  lemma EventOnward(s: State, e: Event)
    ensures Onward(s, HandleEvent(s, e))
  {
    if e.OnStream? && e.sid in s.streamToRequest && !e.event.PriorityUpdateEvent? {
      var id := s.streamToRequest[e.sid];
      match e.event
      case HeadersEvent(_, _, _, _) => HeadersOnward(s, e.sid, id, e.event);
      case DataEvent(script) => DrainOnward(s, id, script); DiscardOnward(s, id, script);
      case FinishedEvent => FinishedOnward(s, e.sid, id);
      case ResetEvent => CancelOnward(s, id);
    } else {
      LocalOnward(s, HandleEvent(s, e), 0, 0, multiset{}, multiset{});
    }
  }

  lemma {:induction false} PollOnward(s: State, events: seq<Event>)
    ensures Onward(s, PollEvents(s, events))
    decreases |events|
  {
    if events != [] && !Paused(s) {
      var s1 := HandleEvent(s, events[0]);
      EventOnward(s, events[0]);
      PollOnward(s1, events[1..]);
      OnwardTransitive(s, s1, PollEvents(s1, events[1..]));
    } else {
      LocalOnward(s, s, 0, 0, multiset{}, multiset{});
    }
  }

  lemma ProcessOnward(s: State, script: seq<Turn>, events: seq<Event>)
    ensures Onward(s, ProcessEvents(s, script, events))
  {
    RetryOnward(s, script);
    PollOnward(RetryBlocked(s, script), events);
    OnwardTransitive(s, RetryBlocked(s, script), ProcessEvents(s, script, events));
  }

  lemma OnwardNothingNew(s: State, s1: State)
    requires Onward(s, s1)
    ensures NothingNew(s, s1) && s1.streams.Keys == s.streams.Keys
  {
    forall id | id in s1.requests ensures id in s.requests { assert IdOnward(s, s1, id); }
    forall sid ensures sid in s1.streams <==> sid in s.streams { assert SidOnward(s, s1, sid); }
  }

  /** What a step receives, and what it cannot bring back. */
  ghost predicate InOrder(s: State, a: Action, s1: State) {
    && s1.received == s.received + (if a.Commanded? then Slots(a.cmd) else {})
    && s.seen <= s1.seen
    && (s.draining ==> s1.draining && s1.streams.Keys == s.streams.Keys)
    && (forall id :: id in s.seen && id !in s.requests ==> id !in s1.requests)
  }

  lemma StepInOrder(s: State, a: Action)
    requires Allowed(s, a)
    ensures InOrder(s, a, Step(s, a))
  {
    match a
    case Commanded(cmd) =>
    case Warmed =>
    case Dispatched(_, _) =>
    case Driven(_) =>
    case Polled(script, events) =>
      ProcessOnward(s, script, events);
      OnwardNothingNew(s, ProcessEvents(s, script, events));
    case Consumed(_, _, _) =>
  }

  function AllSlots(actions: seq<Action>): set<Slot> {
    if actions == [] then {}
    else (if actions[0].Commanded? then Slots(actions[0].cmd) else {}) + AllSlots(actions[1..])
  }

  /** Over a whole run: everything handed over is on record, a request id that is gone never
      names a request again, and after GOAWAY the set of streams is final. */
  lemma {:induction false} RunInOrder(s: State, actions: seq<Action>)
    requires RunAllowed(s, actions)
    ensures var s1 := Run(s, actions);
            && s1.received == s.received + AllSlots(actions)
            && s.seen <= s1.seen
            && (s.draining ==> s1.draining && s1.streams.Keys == s.streams.Keys)
            && (forall id :: id in s.seen && id !in s.requests ==> id !in s1.requests)
    decreases |actions|
  {
    if actions != [] {
      StepInOrder(s, actions[0]);
      RunInOrder(Step(s, actions[0]), actions[1..]);
    }
  }

  /** The theorem: whatever happens on the connection, when the worker has drained its table
      every one-shot sender carried by a command it handled has been used exactly once, and
      no other has. */
  lemma EveryCommandIsAnsweredOnce(actions: seq<Action>, order: seq<nat>)
    requires RunAllowed(Start, actions)
    requires forall id :: id in Run(Start, actions).requests ==> id in order
    ensures var s := FailAll(Run(Start, actions), order);
            forall slot :: s.okReplies[slot] + s.errReplies[slot] == (if slot in AllSlots(actions) then 1 else 0)
  {
    Indexes.StartOk();
    Replies.StartConserved();
    Replies.RunKeeps(Start, actions);
    RunInOrder(Start, actions);
    Replies.DrainedMeansAnswered(Run(Start, actions), order);
  }

  // ----- streams only grow ---------------------------------------------------------------

  /** A stream keeps its identity, accepted bytes are never taken back, and nothing is sent
      after fin. */
  predicate SidGrows(s: State, s1: State, sid: nat) {
    sid in s.streams ==>
      && sid in s1.streams
      && s1.streams[sid].owner == s.streams[sid].owner
      && s1.streams[sid].body == s.streams[sid].body && s1.streams[sid].trailers == s.streams[sid].trailers
      && s.streams[sid].up <= s1.streams[sid].up
      && (s.streams[sid].fin ==> s1.streams[sid].fin && s1.streams[sid].up == s.streams[sid].up)
  }

  ghost predicate Grows(s: State, s1: State) {
    forall sid :: SidGrows(s, s1, sid)
  }

  lemma GrowsTransitive(a: State, b: State, c: State)
    requires Grows(a, b) && Grows(b, c)
    ensures Grows(a, c)
  {
    forall sid ensures SidGrows(a, c, sid) { assert SidGrows(a, b, sid) && SidGrows(b, c, sid); }
  }

  lemma {:induction false} DispatchGrows(s: State, conn: Conn, answers: seq<Opening>)
    requires DispatchAllowed(s, conn, answers)
    ensures Grows(s, DispatchWaiting(s, conn, answers))
    decreases |answers|
  {
    if answers != [] && s.waiting != [] {
      var (s1, stop) := DispatchOne(s, conn, answers[0]);
      assert Grows(s, s1);
      if !stop {
        DispatchGrows(s1, conn, answers[1..]);
        GrowsTransitive(s, s1, DispatchWaiting(s1, conn, answers[1..]));
      }
    }
  }

  lemma SendGrows(st: Stream, rest: seq<byte>, fin: bool, a: Acceptance)
    ensures var st1 := SendBody(st, rest, fin, a).0;
            && st1 == st.(up := st1.up, fin := st1.fin) && st.up <= st1.up
            && (st.fin ==> st1 == st)
  {}

  lemma OneStreamGrows(s: State, s1: State, sid: nat, st: Stream)
    requires sid in s.streams && s1.streams == s.streams[sid := st]
    requires var was := s.streams[sid];
             && st.owner == was.owner && st.body == was.body && st.trailers == was.trailers
             && was.up <= st.up && (was.fin ==> st.fin && st.up == was.up)
    ensures Grows(s, s1)
  {
    forall x ensures SidGrows(s, s1, x) {}
  }

  lemma DriveOneGrows(s: State, a: Acceptance)
    requires s.pendingWrites != []
    ensures Grows(s, DriveOne(s, a))
  {
    var id := s.pendingWrites[0];
    if id in s.requests && s.requests[id].stream.Some? && s.requests[id].write.Some?
       && s.requests[id].stream.value in s.streams {
      var sid := s.requests[id].stream.value;
      var (rest, fin) := Unsent(s.requests[id].write.value);
      var (st, answer) := SendBody(s.streams[sid], rest, fin, a);
      SendGrows(s.streams[sid], rest, fin, a);
      OneStreamGrows(s, DriveOne(s, a), sid, st);
    }
  }

  lemma {:induction false} DriveGrows(s: State, answers: seq<Acceptance>)
    ensures Grows(s, DrivePendingWrites(s, answers))
    decreases |answers|
  {
    if answers != [] && s.pendingWrites != [] {
      var s1 := DriveOne(s, answers[0]);
      DriveOneGrows(s, answers[0]);
      DriveGrows(s1, answers[1..]);
      GrowsTransitive(s, s1, DrivePendingWrites(s1, answers[1..]));
    }
  }

  lemma StepGrows(s: State, a: Action)
    requires Allowed(s, a)
    ensures Grows(s, Step(s, a))
  {
    var s1 := Step(s, a);
    match a
    case Commanded(_) =>
    case Warmed =>
    case Dispatched(conn, openings) => DispatchGrows(s, conn, openings);
    case Driven(answers) => DriveGrows(s, answers);
    case Polled(script, events) =>
      ProcessOnward(s, script, events);
      forall sid ensures SidGrows(s, s1, sid) { assert SidOnward(s, s1, sid); }
    case Consumed(_, _, _) =>
  }

  /** On every stream of every run, fin is sent once and last. */
  lemma {:induction false} StreamsOnlyGrow(s: State, actions: seq<Action>)
    requires RunAllowed(s, actions)
    ensures Grows(s, Run(s, actions))
    decreases |actions|
  {
    if actions != [] {
      StepGrows(s, actions[0]);
      StreamsOnlyGrow(Step(s, actions[0]), actions[1..]);
      GrowsTransitive(s, Step(s, actions[0]), Run(s, actions));
    }
  }

  // ----- channels only grow --------------------------------------------------------------

  /** A channel keeps every frame it has carried and the stream that feeds it. */
  predicate ChannelGrows(s: State, s1: State, id: nat) {
    id in s.channels && id != WARMUP_REQUEST_ID ==>
      && id in s1.channels
      && s.channels[id].sent <= s1.channels[id].sent
      && (s.channels[id].stream.Some? ==> s1.channels[id].stream == s.channels[id].stream)
  }

  ghost predicate ChannelsGrow(s: State, s1: State) {
    forall id :: ChannelGrows(s, s1, id)
  }

  lemma ChannelsGrowTransitive(a: State, b: State, c: State)
    requires ChannelsGrow(a, b) && ChannelsGrow(b, c)
    ensures ChannelsGrow(a, c)
  {
    forall id ensures ChannelGrows(a, c, id) { assert ChannelGrows(a, b, id) && ChannelGrows(b, c, id); }
  }

  lemma OnwardChannels(s: State, s1: State)
    requires Onward(s, s1)
    ensures ChannelsGrow(s, s1)
  {
    forall id ensures ChannelGrows(s, s1, id) { assert IdOnward(s, s1, id); }
  }

  lemma CancelChannels(s: State, id: nat)
    ensures ChannelsGrow(s, CancelRequest(s, id))
  {
    CancelOnward(s, id);
    OnwardChannels(s, CancelRequest(s, id));
  }

  lemma SameChannelsGrow(s: State, s0: State, s1: State)
    requires s0.channels == s.channels && ChannelsGrow(s0, s1)
    ensures ChannelsGrow(s, s1)
  {
    forall id ensures ChannelGrows(s, s1, id) { assert ChannelGrows(s0, s1, id); }
  }

  /** A change confined to one channel. */
  lemma OneChannelGrows(s: State, s1: State, id: nat)
    requires s1.channels == s.channels || (id in s1.channels && s1.channels == s.channels[id := s1.channels[id]])
    requires ChannelGrows(s, s1, id)
    ensures ChannelsGrow(s, s1)
  {
    forall x ensures ChannelGrows(s, s1, x) {}
  }

  lemma FailChannels(s: State, id: nat, r: Request)
    ensures ChannelsGrow(s, FailRequest(s, id, r))
  {
    OneChannelGrows(s, FailRequest(s, id, r), id);
  }

  lemma StreamOpenedChannels(s: State, id: nat, o: Opening)
    requires Link(s, id) && id in s.requests && s.requests[id].stream.None? && o.Opened?
    ensures ChannelsGrow(s, StreamOpened(s, id, o))
  {
    OneChannelGrows(s, StreamOpened(s, id, o), id);
  }

  predicate Link(s: State, id: nat) {
    id in s.requests ==> id in s.channels && s.channels[id].stream == s.requests[id].stream
  }

  lemma DispatchOneChannels(s: State, conn: Conn, o: Opening)
    requires s.waiting != [] && Link(s, s.waiting[0])
    ensures ChannelsGrow(s, DispatchOne(s, conn, o).0)
  {
    var id := s.waiting[0];
    var s1 := s.(waiting := s.waiting[1..]);
    var s2 := DispatchOne(s, conn, o).0;
    if s2.channels == s.channels {
      OneChannelGrows(s, s2, id);
    } else if o.Opened? {
      StreamOpenedChannels(s1, id, o);
      SameChannelsGrow(s, s1, s2);
    } else {
      var s3 := s1.(requests := s1.requests - {id});
      FailChannels(s3, id, s.requests[id]);
      SameChannelsGrow(s, s3, s2);
    }
  }

  lemma {:induction false} DispatchChannels(s: State, conn: Conn, answers: seq<Opening>)
    requires Indexes.Inv(s) && DispatchAllowed(s, conn, answers)
    ensures ChannelsGrow(s, DispatchWaiting(s, conn, answers))
    decreases |answers|
  {
    if answers != [] && s.waiting != [] {
      var (s1, stop) := DispatchOne(s, conn, answers[0]);
      assert Indexes.IdOk(s, s.waiting[0]);
      DispatchOneChannels(s, conn, answers[0]);
      if !stop {
        Indexes.DispatchOneKeeps(s, conn, answers[0]);
        DispatchChannels(s1, conn, answers[1..]);
        ChannelsGrowTransitive(s, s1, DispatchWaiting(s1, conn, answers[1..]));
      }
    }
  }

  lemma AfterSendChannels(s: State, id: nat, answer: Acceptance)
    requires id in s.requests && s.requests[id].write.Some?
    ensures ChannelsGrow(s, AfterSend(s, id, answer))
  {
    if answer.Rejected? {
      var r := s.requests[id];
      CancelChannels(s.(requests := s.requests[id := r.(write := None)],
                        errReplies := s.errReplies + multiset{WriteSlot(id, r.write.value.token)}), id);
    }
  }

  lemma DriveOneChannels(s: State, a: Acceptance)
    requires s.pendingWrites != []
    ensures ChannelsGrow(s, DriveOne(s, a))
  {
    var id := s.pendingWrites[0];
    var s1 := s.(pendingWrites := s.pendingWrites[1..]);
    if id in s.requests && s.requests[id].stream.Some? && s.requests[id].write.Some?
       && s.requests[id].stream.value in s.streams {
      var sid := s.requests[id].stream.value;
      var (rest, fin) := Unsent(s.requests[id].write.value);
      var (st, answer) := SendBody(s.streams[sid], rest, fin, a);
      var s2 := s1.(streams := s1.streams[sid := st]);
      AfterSendChannels(s2, id, answer);
      SameChannelsGrow(s, s2, DriveOne(s, a));
    }
  }

  lemma {:induction false} DriveChannels(s: State, answers: seq<Acceptance>)
    ensures ChannelsGrow(s, DrivePendingWrites(s, answers))
    decreases |answers|
  {
    if answers != [] && s.pendingWrites != [] {
      var s1 := DriveOne(s, answers[0]);
      DriveOneChannels(s, answers[0]);
      DriveChannels(s1, answers[1..]);
      ChannelsGrowTransitive(s, s1, DrivePendingWrites(s1, answers[1..]));
    }
  }

  lemma OpenChannels(s: State, id: nat, hasBody: bool, early: bool)
    requires id !in s.channels
    ensures ChannelsGrow(s, HandleOpen(s, id, hasBody, early))
  {
    OneChannelGrows(s, HandleOpen(s, id, hasBody, early), id);
  }

  lemma CommandChannels(s: State, cmd: Command)
    requires Indexes.Inv(s) && Allowed(s, Commanded(cmd))
    ensures ChannelsGrow(s, HandleCommand(s, cmd))
  {
    match cmd
    case Open(id, hasBody, early) =>
      assert Indexes.IdOk(s, id);
      OpenChannels(s, id, hasBody, early);
    case Cancel(id) => CancelChannels(s, id);
    case _ =>
      assert HandleCommand(s, cmd).channels == s.channels;
      OneChannelGrows(s, HandleCommand(s, cmd), cmd.id);
  }

  lemma StepChannels(s: State, a: Action)
    requires Indexes.Inv(s) && Allowed(s, a)
    ensures ChannelsGrow(s, Step(s, a))
  {
    match a
    case Commanded(cmd) => CommandChannels(s, cmd);
    case Warmed =>
    case Dispatched(conn, openings) => DispatchChannels(s, conn, openings);
    case Driven(answers) => DriveChannels(s, answers);
    case Polled(script, events) =>
      ProcessOnward(s, script, events);
      OnwardChannels(s, ProcessEvents(s, script, events));
    case Consumed(_, _, _) =>
  }
}
