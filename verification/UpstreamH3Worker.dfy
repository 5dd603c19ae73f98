/**
  The worker in the form the program has it: an object whose tables and queues are updated
  in place by loops.  Every method is proved to do exactly what the transition of the same
  name in `UpstreamH3` does; `Perform` puts them together into the steps of a run and carries
  the invariants of indexes, replies and delivery.
 */
module UpstreamH3Worker {
  import opened Common
  import opened UpstreamH3
  import Indexes = UpstreamH3Indexes
  import Replies = UpstreamH3Replies
  import Channels = UpstreamH3Delivery
  import Order = UpstreamH3Order

  /** The surrounding system: channels, streams, replies and what was received. */
  datatype Environment = Environment(
    channels: map<nat, Channel>, streams: map<nat, Stream>,
    okReplies: multiset<Slot>, errReplies: multiset<Slot>,
    received: set<Slot>, seen: set<nat>, error: Option<Error>)

  /** A pass over a queue has an answer for every id that was queued when it began. */
  predicate WholePass(s: State, action: Action) {
    match action
    case Dispatched(_, openings) => |openings| == |s.waiting|
    case Driven(answers) => |answers| == |s.pendingWrites|
    case _ => true
  }

  predicate WholePasses(s: State, actions: seq<Action>)
    decreases |actions|
  {
    actions == [] || (WholePass(s, actions[0]) && WholePasses(Step(s, actions[0]), actions[1..]))
  }

  class H3Worker {
    var requests: map<nat, Request>
    var streamToRequest: map<nat, nat>
    var waiting: seq<nat>
    var pendingWrites: seq<nat>
    var responseBlocked: Option<nat>
    var draining: bool
    var env: Environment

    function Abs(): State
      reads this
    {
      State(requests, streamToRequest, waiting, pendingWrites, responseBlocked, draining,
            env.channels, env.streams, env.okReplies, env.errReplies, env.received, env.seen, env.error)
    }

    /** The indexes agree, every one-shot sender is accounted for, and every channel has carried
        a prefix of its stream. */
    ghost predicate Valid()
      reads this
    {
      Indexes.Inv(Abs()) && Replies.Conserved(Abs()) && Channels.AllFaithful(Abs())
    }

    constructor ()
      ensures Abs() == Start && Valid()
    {
      requests, streamToRequest := map[], map[];
      waiting, pendingWrites := [], [];
      responseBlocked, draining := None, false;
      env := Environment(map[], map[], multiset{}, multiset{}, {}, {}, None);
      new;
      Begin();
    }

    method TrySend(id: nat, item: Item) returns (d: Delivery)
      requires id in env.channels
      modifies this`env
      ensures d == Accepts(old(env.channels[id]))
      ensures Abs() == Push(old(Abs()), id, item)
    {
      d := Accepts(env.channels[id]);
      if d == Ready {
        env := env.(channels := env.channels[id := env.channels[id].(sent := env.channels[id].sent + [item])]);
      }
    }

    method FailRequest(id: nat, r: Request)
      modifies this`env
      ensures Abs() == UpstreamH3.FailRequest(old(Abs()), id, r)
    {
      if !r.responseTx && id in env.channels {
        var _ := TrySend(id, Failure);
      }
      env := env.(errReplies := env.errReplies + HeldSlots(id, r));
    }

    method CancelRequest(id: nat)
      modifies this`requests, this`streamToRequest, this`env
      ensures Abs() == UpstreamH3.CancelRequest(old(Abs()), id)
    {
      if id !in requests { return; }
      var r := requests[id];
      requests := requests - {id};
      if r.stream.Some? { streamToRequest := streamToRequest - {r.stream.value}; }
      FailRequest(id, r);
    }

    method EnqueueWrite(id: nat, write: Write)
      modifies this`requests, this`pendingWrites, this`env
      ensures Abs() == UpstreamH3.EnqueueWrite(old(Abs()), id, write)
    {
      if id !in requests || requests[id].stream.None? || requests[id].write.Some? {
        env := env.(errReplies := env.errReplies + multiset{WriteSlot(id, write.token)});
        return;
      }
      requests := requests[id := requests[id].(write := Some(write))];
      pendingWrites := pendingWrites + [id];
    }

    method HandleOpen(id: nat, hasBody: bool, allowEarlyData: bool)
      modifies this
      ensures Abs() == UpstreamH3.HandleOpen(old(Abs()), id, hasBody, allowEarlyData)
    {
      env := env.(received := env.received + Slots(Open(id, hasBody, allowEarlyData)));
      env := env.(seen := env.seen + {id});
      if draining {
        env := env.(errReplies := env.errReplies + One(hasBody, OpenedSlot(id)));
        env := env.(errReplies := env.errReplies + multiset{ResponseSlot(id)});
        return;
      }
      requests := requests[id := Request(hasBody, allowEarlyData, hasBody, true, true,
                                         None, false, None, None, false)];
      env := env.(channels := env.channels[id := Channel(None, [], 0, true, false)]);
      waiting := waiting + [id];
    }

    method HandleCommand(cmd: Command)
      requires Indexes.Inv(Abs()) && Allowed(Abs(), Commanded(cmd))
      modifies this
      ensures Abs() == UpstreamH3.HandleCommand(old(Abs()), cmd)
      ensures Indexes.Inv(Abs())
    {
      Indexes.CommandKeeps(Abs(), cmd);
      match cmd
      case Open(id, hasBody, allowEarlyData) => HandleOpen(id, hasBody, allowEarlyData);
      case Body(id, data, fin, token) =>
        env := env.(received := env.received + {WriteSlot(id, token)});
        EnqueueWrite(id, BodyWrite(data, fin, token));
      case BodyTrailers(id, token) =>
        env := env.(received := env.received + {WriteSlot(id, token)});
        EnqueueWrite(id, TrailersWrite(token));
      case Cancel(id) => CancelRequest(id);
    }

    method EnqueueWarmup()
      modifies this
      ensures Abs() == UpstreamH3.EnqueueWarmup(old(Abs()))
    {
      var id := WARMUP_REQUEST_ID;
      if id in requests { return; }
      requests := requests[id := Request(false, false, false, false, false, None, false, None, None, true)];
      env := env.(channels := env.channels[id := Channel(None, [], 0, false, false)], seen := env.seen + {id});
      waiting := waiting + [id];
    }

    /** One pass over the requests that were waiting on entry. */
    method DispatchWaiting(conn: Conn, answers: seq<Opening>)
      requires Indexes.Inv(Abs()) && DispatchAllowed(Abs(), conn, answers) && |answers| == |waiting|
      modifies this
      ensures Abs() == UpstreamH3.DispatchWaiting(old(Abs()), conn, answers)
      ensures Indexes.Inv(Abs())
    {
      Indexes.DispatchKeeps(Abs(), conn, answers);
      var i := 0;
      while i < |answers| && waiting != []
        invariant 0 <= i <= |answers|
        invariant UpstreamH3.DispatchWaiting(Abs(), conn, answers[i..])
                  == UpstreamH3.DispatchWaiting(old(Abs()), conn, answers)
      {
        assert answers[i..][0] == answers[i] && answers[i..][1..] == answers[i + 1..];
        var stop := DispatchFront(conn, answers[i]);
        if stop { return; }
        i := i + 1;
      }
    }

    method DispatchFront(conn: Conn, o: Opening) returns (stop: bool)
      requires waiting != []
      modifies this
      ensures (Abs(), stop) == DispatchOne(old(Abs()), conn, o)
    {
      var id := waiting[0];
      waiting := waiting[1..];
      if id !in requests || requests[id].stream.Some? { return false; }
      var inEarlyData := conn.earlyData && !conn.established;
      if (inEarlyData && !requests[id].allowEarlyData) || (!conn.established && !inEarlyData) {
        waiting := waiting + [id];
        return false;
      }
      match o
      case Opened(_, _, _) =>
        StreamOpened(id, o);
        return false;
      case NoCredit =>
        waiting := [id] + waiting;
        return true;
      case Refused =>
        var r := requests[id];
        requests := requests - {id};
        FailRequest(id, r);
        return false;
    }

    method StreamOpened(id: nat, o: Opening)
      requires id in requests && o.Opened?
      modifies this
      ensures Abs() == UpstreamH3.StreamOpened(old(Abs()), id, o)
    {
      var r := requests[id];
      requests := requests[id := r.(stream := Some(o.sid), openTx := false)];
      env := env.(streams := env.streams[o.sid := Stream(id, o.body, o.trailers, 0, false, [], !r.hasBody)]);
      streamToRequest := streamToRequest[o.sid := id];
      if id in env.channels { env := env.(channels := env.channels[id := env.channels[id].(stream := Some(o.sid))]); }
      env := env.(okReplies := env.okReplies + One(r.openTx, OpenedSlot(id)));
    }

    /** One pass over the writes that were queued on entry. */
    method DrivePendingWrites(answers: seq<Acceptance>)
      requires Indexes.Inv(Abs()) && |answers| == |pendingWrites|
      modifies this
      ensures Abs() == UpstreamH3.DrivePendingWrites(old(Abs()), answers)
      ensures Indexes.Inv(Abs())
    {
      Indexes.DriveKeeps(Abs(), answers);
      var i := 0;
      while i < |answers| && pendingWrites != []
        invariant 0 <= i <= |answers|
        invariant UpstreamH3.DrivePendingWrites(Abs(), answers[i..])
                  == UpstreamH3.DrivePendingWrites(old(Abs()), answers)
      {
        assert answers[i..][0] == answers[i] && answers[i..][1..] == answers[i + 1..];
        DriveFront(answers[i]);
        i := i + 1;
      }
    }

    method DriveFront(a: Acceptance)
      requires pendingWrites != []
      modifies this
      ensures Abs() == DriveOne(old(Abs()), a)
    {
      var id := pendingWrites[0];
      pendingWrites := pendingWrites[1..];
      if id !in requests { return; }
      var r := requests[id];
      if r.stream.None? || r.write.None? || r.stream.value !in env.streams { return; }
      var (rest, fin) := Unsent(r.write.value);
      var (st, answer) := SendBody(env.streams[r.stream.value], rest, fin, a);
      env := env.(streams := env.streams[r.stream.value := st]);
      AfterSend(id, answer);
    }

    method AfterSend(id: nat, answer: Acceptance)
      requires id in requests && requests[id].write.Some?
      modifies this
      ensures Abs() == UpstreamH3.AfterSend(old(Abs()), id, answer)
    {
      var r := requests[id];
      var w := r.write.value;
      var (rest, fin) := Unsent(w);
      match answer
      case Took(n) =>
        if n < |rest| {
          requests := requests[id := r.(write := Some(BodyWrite(rest[n..], fin, w.token)))];
          pendingWrites := pendingWrites + [id];
        } else {
          requests := requests[id := r.(write := None)];
          env := env.(okReplies := env.okReplies + multiset{WriteSlot(id, w.token)});
        }
      case Full => pendingWrites := pendingWrites + [id];
      case Rejected => RejectWrite(id);
    }

    /** quiche refused the write: it is answered with an error and its request ends. */
    method RejectWrite(id: nat)
      requires id in requests && requests[id].write.Some?
      modifies this
      ensures Abs() == UpstreamH3.AfterSend(old(Abs()), id, Rejected)
    {
      var r := requests[id];
      requests := requests[id := r.(write := None)];
      env := env.(errReplies := env.errReplies + multiset{WriteSlot(id, r.write.value.token)});
      CancelRequest(id);
    }

    method DrainChunk(id: nat, sid: nat, n: nat)
      requires id in env.channels && sid in env.streams && env.streams[sid].pos <= |env.streams[sid].body|
      modifies this`env
      ensures Abs() == DrainOne(old(Abs()), id, sid, n)
    {
      var st := env.streams[sid];
      var end := st.pos + Available(st, n);
      env := env.(streams := env.streams[sid := st.(pos := end)]);
      env := env.(channels := env.channels[id := env.channels[id].(sent := env.channels[id].sent + [Data(st.body[st.pos..end])])]);
    }

    /** Move body bytes from the stream into the channel until one of them has no more room
        or no more data. */
    method DrainResponseBody(id: nat, script: seq<Turn>) returns (d: Delivery)
      modifies this`env
      ensures (Abs(), d) == UpstreamH3.DrainResponseBody(old(Abs()), id, script)
    {
      if id !in requests { return Broken(NoRequestState); }
      if requests[id].stream.None? { return Broken(DataBeforeOpen); }
      var sid := requests[id].stream.value;
      var i := 0;
      while i < |script| && id in env.channels && sid in env.streams && env.streams[sid].pos <= |env.streams[sid].body|
        invariant 0 <= i <= |script|
        invariant requests == old(requests)
        invariant DrainLoop(Abs(), id, sid, script[i..]) == DrainLoop(old(Abs()), id, sid, script)
      {
        var turn := script[i];
        assert script[i..][0] == turn && script[i..][1..] == script[i + 1..];
        env := env.(channels := env.channels[id := Consume(env.channels[id], turn.takes, turn.closes)]);
        var accepts := Accepts(env.channels[id]);
        if accepts != Ready { return accepts; }
        if turn.recv.RecvError? { return Broken(RecvFailed); }
        if Available(env.streams[sid], turn.recv.n) == 0 { return Ready; }
        DrainChunk(id, sid, turn.recv.n);
        i := i + 1;
      }
      return Ready;
    }

    method DiscardResponseBody(id: nat, script: seq<Turn>) returns (d: Delivery)
      modifies this`env
      ensures (Abs(), d) == UpstreamH3.DiscardResponseBody(old(Abs()), id, script)
    {
      if id !in requests || requests[id].stream.None? { return Broken(DiscardBeforeOpen); }
      var sid := requests[id].stream.value;
      if script == [] || sid !in env.streams { return Ready; }
      if script[0].recv.RecvError? { return Broken(RecvFailed); }
      var st := env.streams[sid];
      env := env.(streams := env.streams[sid := st.(pos := st.pos + Available(st, script[0].recv.n))]);
      return Ready;
    }

    method AfterDelivery(id: nat, d: Delivery)
      modifies this
      ensures Abs() == UpstreamH3.AfterDelivery(old(Abs()), id, d)
    {
      match d
      case Ready =>
      case Blocked => responseBlocked := Some(id);
      case Closed => CancelRequest(id);
      case Broken(e) => env := env.(error := Some(e));
    }

    method RetryBlocked(script: seq<Turn>)
      modifies this
      ensures Abs() == UpstreamH3.RetryBlocked(old(Abs()), script)
    {
      if responseBlocked.None? { return; }
      var id := responseBlocked.value;
      responseBlocked := None;
      if id !in requests { return; }
      var pending := requests[id].pendingResponse;
      if pending.Some? && id in env.channels {
        if Accepts(env.channels[id]) == Blocked {
          responseBlocked := Some(id);
          return;
        }
        requests := requests[id := requests[id].(pendingResponse := None)];
        var d := TrySend(id, pending.value);
        AfterDelivery(id, d);
      } else {
        var d := DrainResponseBody(id, script);
        AfterDelivery(id, d);
      }
    }

    method DeliverHead(id: nat, receiverAlive: bool)
      requires id in requests
      modifies this
      ensures Abs() == UpstreamH3.DeliverHead(old(Abs()), id, receiverAlive)
    {
      var r := requests[id];
      if r.discard {
        requests := requests[id := r.(started := true)];
      } else if !r.bodyRx {
        env := env.(error := Some(ReceiverMissing));
      } else if !r.responseTx {
        env := env.(error := Some(SenderMissing));
      } else {
        requests := requests[id := r.(bodyRx := false, responseTx := false, started := true)];
        env := env.(okReplies := env.okReplies + multiset{ResponseSlot(id)});
        if !receiverAlive {
          if id in env.channels {
            env := env.(channels := env.channels[id := env.channels[id].(receiverOpen := false)]);
          }
          CancelRequest(id);
        }
      }
    }

    method DeliverTrailers(id: nat, block: nat)
      requires id in requests
      modifies this
      ensures Abs() == UpstreamH3.DeliverTrailers(old(Abs()), id, block)
    {
      if id !in env.channels { return; }
      if Accepts(env.channels[id]) == Blocked {
        requests := requests[id := requests[id].(pendingResponse := Some(Trailers(block)))];
        responseBlocked := Some(id);
        return;
      }
      var d := TrySend(id, Trailers(block));
      AfterDelivery(id, d);
    }

    method HandleHeaders(sid: nat, id: nat, e: StreamEvent)
      requires e.HeadersEvent?
      modifies this
      ensures Abs() == UpstreamH3.HandleHeaders(old(Abs()), sid, id, e)
    {
      if id !in requests {
        env := env.(error := Some(NoRequestState));
      } else if !requests[id].started {
        if !e.valid {
          CancelRequest(id);
        } else if !e.interim {
          DeliverHead(id, e.receiverAlive);
        }
      } else {
        if sid in env.streams {
          env := env.(streams := env.streams[sid := env.streams[sid].(trailersRead := true)]);
        }
        if !e.valid { CancelRequest(id); } else { DeliverTrailers(id, e.block); }
      }
    }

    method HandleFinished(sid: nat, id: nat)
      modifies this
      ensures Abs() == UpstreamH3.HandleFinished(old(Abs()), sid, id)
    {
      streamToRequest := streamToRequest - {sid};
      if id !in requests { return; }
      var r := requests[id];
      requests := requests - {id};
      if (r.discard || r.started) && id in env.channels {
        env := env.(channels := env.channels[id := env.channels[id].(finished := true)]);
      }
      env := env.(errReplies := env.errReplies + FailedByFinish(id, r));
    }

    method HandleEvent(e: Event)
      modifies this
      ensures Abs() == UpstreamH3.HandleEvent(old(Abs()), e)
    {
      match e
      case PollError => env := env.(error := Some(PollFailed));
      case GoAway => draining := true;
      case OnStream(sid, event) =>
        if sid !in streamToRequest { return; }
        var id := streamToRequest[sid];
        match event
        case HeadersEvent(_, _, _, _) => HandleHeaders(sid, id, event);
        case DataEvent(script) =>
          var d;
          if id in requests && requests[id].discard {
            d := DiscardResponseBody(id, script);
          } else {
            d := DrainResponseBody(id, script);
          }
          AfterDelivery(id, d);
        case FinishedEvent => HandleFinished(sid, id);
        case ResetEvent => CancelRequest(id);
        case PriorityUpdateEvent =>
    }

    /** Retry the blocked delivery, then take events until quiche has no more or a channel is
        full.  No event can make the loop fail for lack of request state. */
    method ProcessH3Events(script: seq<Turn>, events: seq<Event>)
      requires Indexes.Inv(Abs()) && env.error.None?
      requires PollAllowed(UpstreamH3.RetryBlocked(Abs(), script), events)
      modifies this
      ensures Abs() == ProcessEvents(old(Abs()), script, events)
      ensures Indexes.Inv(Abs())
      ensures env.error in {None, Some(RecvFailed), Some(PollFailed)}
    {
      Indexes.RetryKeeps(Abs(), script);
      Indexes.PollKeeps(UpstreamH3.RetryBlocked(Abs(), script), events);
      RetryBlocked(script);
      var i := 0;
      while i < |events| && !Paused(Abs())
        invariant 0 <= i <= |events|
        invariant PollEvents(Abs(), events[i..]) == ProcessEvents(old(Abs()), script, events)
      {
        assert events[i..][0] == events[i] && events[i..][1..] == events[i + 1..];
        HandleEvent(events[i]);
        i := i + 1;
      }
    }

    /** One turn of the worker's loop, or of a consumer beside it, is the step of a run. */
    method Perform(action: Action)
      requires Valid() && Allowed(Abs(), action) && WholePass(Abs(), action)
      modifies this
      ensures Abs() == Step(old(Abs()), action) && Valid()
    {
      Indexes.StepKeeps(Abs(), action);
      Replies.StepKeeps(Abs(), action);
      Channels.StepFaithful(Abs(), action);
      match action
      case Commanded(cmd) => HandleCommand(cmd);
      case Warmed => EnqueueWarmup();
      case Dispatched(conn, openings) => if !draining { DispatchWaiting(conn, openings); }
      case Driven(answers) => DrivePendingWrites(answers);
      case Polled(script, events) => ProcessH3Events(script, events);
      case Consumed(id, takes, closes) =>
        if id in env.channels {
          env := env.(channels := env.channels[id := Consume(env.channels[id], takes, closes)]);
        }
    }

    /** A whole run of turns, and the drain of the table at its end: every reply slot of every
        command is used exactly once. */
    method Serve(actions: seq<Action>) returns (order: seq<nat>)
      requires Abs() == Start && RunAllowed(Start, actions) && WholePasses(Start, actions)
      modifies this
      ensures Abs() == UpstreamH3.FailAll(Run(Start, actions), order) && requests == map[]
      ensures forall slot :: env.okReplies[slot] + env.errReplies[slot] == (if slot in Order.AllSlots(actions) then 1 else 0)
    {
      Begin();
      var i := 0;
      while i < |actions|
        invariant 0 <= i <= |actions|
        invariant Valid() && RunAllowed(Abs(), actions[i..]) && WholePasses(Abs(), actions[i..])
        invariant Run(Abs(), actions[i..]) == Run(Start, actions)
      {
        assert actions[i..][0] == actions[i] && actions[i..][1..] == actions[i + 1..];
        Perform(actions[i]);
        i := i + 1;
      }
      order := FailAll();
      Order.EveryCommandIsAnsweredOnce(actions, order);
    }

    lemma Begin()
      requires Abs() == Start
      ensures Valid()
    {
      Indexes.StartOk();
      Replies.StartConserved();
      assert forall id :: Channels.Faithful(Start, id);
    }

    /** Draining the table answers everything that is left, whatever the order. */
    method FailAll() returns (order: seq<nat>)
      modifies this
      ensures Abs() == UpstreamH3.FailAll(old(Abs()), order)
      ensures requests == map[] && forall id :: id in order <==> id in old(requests)
    {
      order := [];
      while requests != map[]
        invariant Abs() == UpstreamH3.FailAll(old(Abs()), order)
        invariant forall id :: id in old(requests) <==> id in requests || id in order
        decreases |requests.Keys|
      {
        assert requests.Keys != {};
        var id :| id in requests;
        FailNext(id);
        order := order + [id];
        assert order[..|order| - 1] + [id] == order;
      }
    }

    method FailNext(id: nat)
      requires id in requests
      modifies this
      ensures Abs() == FailOne(old(Abs()), id)
      ensures requests == old(requests) - {id}
    {
      var r := requests[id];
      requests := requests - {id};
      FailRequest(id, r);
    }
  }
}
