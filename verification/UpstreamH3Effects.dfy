/**
  What the worker's steps bring about (src/upstream_h3.rs): what a GOAWAY, a cancel or a reset
  ends for good, and exactly which replies are good news.
 */
module UpstreamH3Effects {
  import opened Common
  import opened UpstreamH3
  import Indexes = UpstreamH3Indexes
  import Replies = UpstreamH3Replies
  import Order = UpstreamH3Order

  // ----- GOAWAY ------------------------------------------------------------------------------

  lemma {:induction false} PollSplit(s: State, a: seq<Event>, b: seq<Event>)
    ensures PollEvents(s, a + b) == PollEvents(PollEvents(s, a), b)
    decreases |a|
  {
    if a == [] {
      assert a + b == b;
    } else if !Paused(s) {
      assert (a + b)[0] == a[0] && (a + b)[1..] == a[1..] + b;
      PollSplit(HandleEvent(s, a[0]), a[1..], b);
    }
  }

  /** Polling reaches the GOAWAY at `i`: nothing before it pauses the loop. */
  predicate TakesGoAway(s: State, script: seq<Turn>, events: seq<Event>, i: nat) {
    i < |events| && events[i] == GoAway && !Paused(PollEvents(RetryBlocked(s, script), events[..i]))
  }

  /** A GOAWAY that is reached starts the drain. */
  lemma GoAwayDrains(s: State, script: seq<Turn>, events: seq<Event>, i: nat)
    requires TakesGoAway(s, script, events, i)
    ensures ProcessEvents(s, script, events).draining
  {
    var s0 := RetryBlocked(s, script);
    var p := PollEvents(s0, events[..i]);
    var rest := events[i..];
    PollSplit(s0, events[..i], rest);
    assert events[..i] + rest == events;
    assert rest[0] == GoAway;
    Order.PollOnward(HandleEvent(p, GoAway), rest[1..]);
  }

  lemma CancelReplies(s: State, id: nat)
    ensures s.errReplies <= CancelRequest(s, id).errReplies && CancelRequest(s, id).okReplies == s.okReplies
  {
  }

  lemma AfterSendErrs(s: State, id: nat, answer: Acceptance)
    requires id in s.requests && s.requests[id].write.Some?
    ensures s.errReplies <= AfterSend(s, id, answer).errReplies
  {
    if answer.Rejected? {
      var r := s.requests[id];
      CancelReplies(s.(requests := s.requests[id := r.(write := None)],
                       errReplies := s.errReplies + multiset{WriteSlot(id, r.write.value.token)}), id);
    }
  }

  /** The write at the front of the queue, if it is still wanted, and its stream. */
  predicate Serves(s: State) {
    && s.pendingWrites != []
    && var id := s.pendingWrites[0];
       id in s.requests && s.requests[id].stream.Some? && s.requests[id].write.Some?
       && s.requests[id].stream.value in s.streams
  }

  /** The state in which quiche's answer to the front write is dealt with, and that answer. */
  function Offered(s: State, a: Acceptance): (State, Acceptance)
    requires Serves(s)
  {
    var id := s.pendingWrites[0];
    var sid := s.requests[id].stream.value;
    var (rest, fin) := Unsent(s.requests[id].write.value);
    var (st, answer) := SendBody(s.streams[sid], rest, fin, a);
    (s.(pendingWrites := s.pendingWrites[1..], streams := s.streams[sid := st]), answer)
  }

  lemma DriveOneIs(s: State, a: Acceptance)
    requires s.pendingWrites != []
    ensures DriveOne(s, a) == if Serves(s) then AfterSend(Offered(s, a).0, s.pendingWrites[0], Offered(s, a).1)
                              else s.(pendingWrites := s.pendingWrites[1..])
  {
  }

  lemma {:induction false} DriveErrs(s: State, answers: seq<Acceptance>)
    ensures s.errReplies <= DrivePendingWrites(s, answers).errReplies
    decreases |answers|
  {
    if answers != [] && s.pendingWrites != [] {
      DriveOneIs(s, answers[0]);
      if Serves(s) { AfterSendErrs(Offered(s, answers[0]).0, s.pendingWrites[0], Offered(s, answers[0]).1); }
      DriveErrs(DriveOne(s, answers[0]), answers[1..]);
    }
  }

  lemma DispatchOneErrs(s: State, conn: Conn, o: Opening)
    requires s.waiting != []
    ensures s.errReplies <= DispatchOne(s, conn, o).0.errReplies
  {
  }

  lemma {:induction false} DispatchErrs(s: State, conn: Conn, answers: seq<Opening>)
    ensures s.errReplies <= DispatchWaiting(s, conn, answers).errReplies
    decreases |answers|
  {
    if answers != [] && s.waiting != [] {
      var (s1, stop) := DispatchOne(s, conn, answers[0]);
      DispatchOneErrs(s, conn, answers[0]);
      if !stop { DispatchErrs(s1, conn, answers[1..]); }
    }
  }

  lemma EnqueueErrs(s: State, id: nat, write: Write)
    ensures s.errReplies <= EnqueueWrite(s, id, write).errReplies
  {
  }

  lemma CommandErrs(s: State, cmd: Command)
    ensures s.errReplies <= HandleCommand(s, cmd).errReplies
  {
    match cmd
    case Open(_, _, _) =>
    case Body(id, data, fin, token) =>
      EnqueueErrs(s.(received := s.received + {WriteSlot(id, token)}), id, BodyWrite(data, fin, token));
    case BodyTrailers(id, token) =>
      EnqueueErrs(s.(received := s.received + {WriteSlot(id, token)}), id, TrailersWrite(token));
    case Cancel(id) => CancelReplies(s, id);
  }

  lemma OnwardErrs(s: State, s1: State)
    requires Order.Onward(s, s1)
    ensures s.errReplies <= s1.errReplies
  {
    forall slot ensures s.errReplies[slot] <= s1.errReplies[slot] { assert Order.SlotOnward(s, s1, slot); }
  }

  /** A reply once given stays given. */
  lemma StepErrs(s: State, a: Action)
    ensures s.errReplies <= Step(s, a).errReplies
  {
    match a
    case Commanded(cmd) => CommandErrs(s, cmd);
    case Warmed =>
    case Dispatched(conn, openings) => DispatchErrs(s, conn, openings);
    case Driven(answers) => DriveErrs(s, answers);
    case Polled(script, events) =>
      Order.ProcessOnward(s, script, events);
      OnwardErrs(s, ProcessEvents(s, script, events));
    case Consumed(_, _, _) =>
  }

  lemma {:induction false} RunErrs(s: State, actions: seq<Action>)
    ensures s.errReplies <= Run(s, actions).errReplies
    decreases |actions|
  {
    if actions != [] {
      StepErrs(s, actions[0]);
      RunErrs(Step(s, actions[0]), actions[1..]);
    }
  }

  /** Everything the command hands over has been answered with an error. */
  ghost predicate Declined(s: State, cmd: Command) {
    forall slot :: slot in Slots(cmd) ==> slot in s.errReplies
  }

  lemma {:induction false} DrainingDeclines(s: State, actions: seq<Action>, j: nat)
    requires RunAllowed(s, actions) && s.draining && j < |actions| && actions[j].Commanded? && actions[j].cmd.Open?
    ensures Declined(Run(s, actions), actions[j].cmd)
    decreases |actions|
  {
    var s1 := Step(s, actions[0]);
    if j == 0 {
      assert Declined(s1, actions[0].cmd);
      RunErrs(s1, actions[1..]);
    } else {
      Order.StepInOrder(s, actions[0]);
      DrainingDeclines(s1, actions[1..], j - 1);
    }
  }

  /** The theorem: once a GOAWAY is taken the set of streams is what it was before, in every
      continuation, and every request that comes later is declined. */
  lemma GoAwayIsFinal(s: State, script: seq<Turn>, events: seq<Event>, i: nat, later: seq<Action>)
    requires TakesGoAway(s, script, events, i)
    requires RunAllowed(ProcessEvents(s, script, events), later)
    ensures var s1 := Run(ProcessEvents(s, script, events), later);
            && s1.draining && s1.streams.Keys == s.streams.Keys
            && forall j :: 0 <= j < |later| && later[j].Commanded? && later[j].cmd.Open? ==> Declined(s1, later[j].cmd)
  {
    var s0 := ProcessEvents(s, script, events);
    GoAwayDrains(s, script, events, i);
    Order.ProcessOnward(s, script, events);
    Order.OnwardNothingNew(s, s0);
    Order.RunInOrder(s0, later);
    forall j | 0 <= j < |later| && later[j].Commanded? && later[j].cmd.Open?
      ensures Declined(Run(s0, later), later[j].cmd)
    {
      DrainingDeclines(s0, later, j);
    }
  }

  // ----- endings -------------------------------------------------------------------------------

  /** Polling reaches the event at `i`: a reset or the end of the stream that serves the request. */
  predicate TakesEnd(s: State, script: seq<Turn>, events: seq<Event>, i: nat, id: nat) {
    && i < |events| && events[i].OnStream? && (events[i].event.ResetEvent? || events[i].event.FinishedEvent?)
    && var p := PollEvents(RetryBlocked(s, script), events[..i]);
       !Paused(p) && events[i].sid in p.streamToRequest && p.streamToRequest[events[i].sid] == id
  }

  /** The caller cancels the request, or its stream is reset or ends. */
  ghost predicate Ends(s: State, a: Action, id: nat) {
    match a
    case Commanded(cmd) => cmd == Cancel(id)
    case Polled(script, events) => exists i :: TakesEnd(s, script, events, i, id)
    case _ => false
  }

  lemma EndEvent(p: State, e: Event, rest: seq<Event>, id: nat)
    requires e.OnStream? && (e.event.ResetEvent? || e.event.FinishedEvent?)
    requires e.sid in p.streamToRequest && p.streamToRequest[e.sid] == id
    ensures id !in PollEvents(HandleEvent(p, e), rest).requests
  {
    var s1 := HandleEvent(p, e);
    Order.PollOnward(s1, rest);
    assert Order.IdOnward(s1, PollEvents(s1, rest), id);
  }

  lemma EndTaken(s: State, script: seq<Turn>, events: seq<Event>, i: nat, id: nat)
    requires TakesEnd(s, script, events, i, id)
    ensures id !in ProcessEvents(s, script, events).requests
  {
    var s0 := RetryBlocked(s, script);
    var p := PollEvents(s0, events[..i]);
    var rest := events[i..];
    PollSplit(s0, events[..i], rest);
    assert events[..i] + rest == events && rest[0] == events[i];
    EndEvent(p, events[i], rest[1..], id);
  }

  lemma EndsNow(s: State, a: Action, id: nat)
    requires Ends(s, a, id)
    ensures id !in Step(s, a).requests
  {
    if a.Polled? {
      var i :| TakesEnd(s, a.script, a.events, i, id);
      EndTaken(s, a.script, a.events, i, id);
    }
  }

  /** The theorem: a request that is cancelled, or whose stream is reset or ends, is gone in every
      continuation, and whatever was or will be asked in its name has had its one answer. */
  lemma EndIsFinal(before: seq<Action>, a: Action, later: seq<Action>, id: nat)
    requires RunAllowed(Start, before)
    requires var s := Run(Start, before);
             id in s.seen && Allowed(s, a) && Ends(s, a, id) && RunAllowed(Step(s, a), later)
    ensures var s1 := Run(Step(Run(Start, before), a), later);
            && id !in s1.requests
            && forall slot: Slot :: slot.id == id && slot in s1.received ==> s1.okReplies[slot] + s1.errReplies[slot] == 1
  {
    var s := Run(Start, before);
    Indexes.StartOk();
    Replies.StartConserved();
    Indexes.RunKeeps(Start, before);
    Replies.RunKeeps(Start, before);
    EndsNow(s, a, id);
    Order.StepInOrder(s, a);
    Indexes.StepKeeps(s, a);
    Replies.StepKeeps(s, a);
    var s1 := Run(Step(s, a), later);
    Order.RunInOrder(Step(s, a), later);
    Replies.RunKeeps(Step(s, a), later);
    forall slot: Slot | slot.id == id && slot in s1.received ensures s1.okReplies[slot] + s1.errReplies[slot] == 1 {
      assert Replies.SlotOk(s1, slot);
    }
  }

  // ----- good news -----------------------------------------------------------------------------

  /** A stream may be opened once the handshake is done, and before that only for a request that
      allows early data on a connection that offers it. */
  predicate MayOpen(conn: Conn, r: Request) {
    conn.established || (conn.earlyData && r.allowEarlyData)
  }

  /** A dispatch turn gives the request at the front its stream. */
  predicate Opens(s: State, conn: Conn, o: Opening) {
    && s.waiting != [] && o.Opened?
    && var id := s.waiting[0];
       id in s.requests && s.requests[id].stream.None? && MayOpen(conn, s.requests[id])
  }

  function OpenedBy(s: State, conn: Conn, o: Opening): set<Slot> {
    if Opens(s, conn, o) && s.requests[s.waiting[0]].openTx then {OpenedSlot(s.waiting[0])} else {}
  }

  function OpenedIn(s: State, conn: Conn, answers: seq<Opening>): set<Slot>
    decreases |answers|
  {
    if answers == [] || s.waiting == [] then {}
    else
      var (s1, stop) := DispatchOne(s, conn, answers[0]);
      OpenedBy(s, conn, answers[0]) + if stop then {} else OpenedIn(s1, conn, answers[1..])
  }

  /** quiche takes all that is left of the front write, on a stream whose side is still open. */
  predicate Completes(s: State, a: Acceptance) {
    && Serves(s) && a.Took?
    && var r := s.requests[s.pendingWrites[0]];
       !s.streams[r.stream.value].fin && a.n >= |Unsent(r.write.value).0|
  }

  function CompletedBy(s: State, a: Acceptance): set<Slot> {
    if Completes(s, a) then {WriteSlot(s.pendingWrites[0], s.requests[s.pendingWrites[0]].write.value.token)} else {}
  }

  function CompletedIn(s: State, answers: seq<Acceptance>): set<Slot>
    decreases |answers|
  {
    if answers == [] || s.pendingWrites == [] then {}
    else CompletedBy(s, answers[0]) + CompletedIn(DriveOne(s, answers[0]), answers[1..])
  }

  /** The event is the response head of a request that has none yet. */
  predicate IsHead(s: State, e: Event) {
    && e.OnStream? && e.sid in s.streamToRequest && e.event.HeadersEvent? && e.event.valid && !e.event.interim
    && var id := s.streamToRequest[e.sid];
       id in s.requests && !s.requests[id].started && id != WARMUP_REQUEST_ID
  }

  function HeadBy(s: State, e: Event): set<Slot> {
    if IsHead(s, e) then {ResponseSlot(s.streamToRequest[e.sid])} else {}
  }

  function HeadsIn(s: State, events: seq<Event>): set<Slot>
    decreases |events|
  {
    if events == [] || Paused(s) then {} else HeadBy(s, events[0]) + HeadsIn(HandleEvent(s, events[0]), events[1..])
  }

  /** The replies of a step that are good news. */
  function GoodNews(s: State, a: Action): set<Slot> {
    match a
    case Dispatched(conn, openings) => if s.draining then {} else OpenedIn(s, conn, openings)
    case Driven(answers) => CompletedIn(s, answers)
    case Polled(script, events) => HeadsIn(RetryBlocked(s, script), events)
    case _ => {}
  }

  function AllGoodNews(s: State, actions: seq<Action>): set<Slot>
    decreases |actions|
  {
    if actions == [] then {} else GoodNews(s, actions[0]) + AllGoodNews(Step(s, actions[0]), actions[1..])
  }

  /** From `s` to `s1` exactly the replies in `news` were added as good ones. */
  ghost predicate Tells(s: State, s1: State, news: set<Slot>) {
    forall slot :: slot in s1.okReplies <==> slot in s.okReplies || slot in news
  }

  lemma TellsBoth(a: State, b: State, c: State, x: set<Slot>, y: set<Slot>)
    requires Tells(a, b, x) && Tells(b, c, y)
    ensures Tells(a, c, x + y)
  {
  }

  lemma DispatchOneTells(s: State, conn: Conn, o: Opening)
    requires s.waiting != []
    ensures Tells(s, DispatchOne(s, conn, o).0, OpenedBy(s, conn, o))
  {
  }

  lemma {:induction false} DispatchTells(s: State, conn: Conn, answers: seq<Opening>)
    ensures Tells(s, DispatchWaiting(s, conn, answers), OpenedIn(s, conn, answers))
    decreases |answers|
  {
    if answers != [] && s.waiting != [] {
      var (s1, stop) := DispatchOne(s, conn, answers[0]);
      DispatchOneTells(s, conn, answers[0]);
      if !stop {
        DispatchTells(s1, conn, answers[1..]);
        TellsBoth(s, s1, DispatchWaiting(s, conn, answers), OpenedBy(s, conn, answers[0]), OpenedIn(s1, conn, answers[1..]));
      }
    }
  }

  lemma AfterSendTells(s: State, id: nat, answer: Acceptance)
    requires id in s.requests && s.requests[id].write.Some?
    ensures var w := s.requests[id].write.value;
            Tells(s, AfterSend(s, id, answer),
                  if answer.Took? && answer.n >= |Unsent(w).0| then {WriteSlot(id, w.token)} else {})
  {
    if answer.Rejected? {
      var r := s.requests[id];
      CancelReplies(s.(requests := s.requests[id := r.(write := None)],
                       errReplies := s.errReplies + multiset{WriteSlot(id, r.write.value.token)}), id);
    }
  }

  lemma DriveOneTells(s: State, a: Acceptance)
    requires s.pendingWrites != []
    ensures Tells(s, DriveOne(s, a), CompletedBy(s, a))
  {
    DriveOneIs(s, a);
    if Serves(s) { AfterSendTells(Offered(s, a).0, s.pendingWrites[0], Offered(s, a).1); }
  }

  lemma {:induction false} DriveTells(s: State, answers: seq<Acceptance>)
    ensures Tells(s, DrivePendingWrites(s, answers), CompletedIn(s, answers))
    decreases |answers|
  {
    if answers != [] && s.pendingWrites != [] {
      var s1 := DriveOne(s, answers[0]);
      DriveOneTells(s, answers[0]);
      DriveTells(s1, answers[1..]);
      TellsBoth(s, s1, DrivePendingWrites(s, answers), CompletedBy(s, answers[0]), CompletedIn(s1, answers[1..]));
    }
  }

  lemma DeliveryReplies(s: State, id: nat, d: Delivery)
    ensures AfterDelivery(s, id, d).okReplies == s.okReplies
  {
    CancelReplies(s, id);
  }

  lemma DrainReplies(s: State, id: nat, script: seq<Turn>)
    ensures var (s1, d) := DrainResponseBody(s, id, script); AfterDelivery(s1, id, d).okReplies == s.okReplies
  {
    var (s1, d) := DrainResponseBody(s, id, script);
    if id in s.requests && s.requests[id].stream.Some? {
      Indexes.DrainLoopFrame(s, id, s.requests[id].stream.value, script);
    }
    DeliveryReplies(s1, id, d);
  }

  lemma DiscardReplies(s: State, id: nat, script: seq<Turn>)
    ensures var (s1, d) := DiscardResponseBody(s, id, script); AfterDelivery(s1, id, d).okReplies == s.okReplies
  {
    var (s1, d) := DiscardResponseBody(s, id, script);
    DeliveryReplies(s1, id, d);
  }

  lemma RetryReplies(s: State, script: seq<Turn>)
    ensures RetryBlocked(s, script).okReplies == s.okReplies
  {
    if s.responseBlocked.Some? {
      var id := s.responseBlocked.value;
      var s0 := s.(responseBlocked := None);
      if id in s.requests && s.requests[id].pendingResponse.Some? && id in s.channels {
        var s1 := s0.(requests := s0.requests[id := s0.requests[id].(pendingResponse := None)]);
        DeliveryReplies(Push(s1, id, s.requests[id].pendingResponse.value), id, Accepts(s.channels[id]));
      } else if id in s.requests {
        DrainReplies(s0, id, script);
      }
    }
  }

  lemma TrailersReplies(s: State, id: nat, block: nat)
    requires id in s.requests
    ensures DeliverTrailers(s, id, block).okReplies == s.okReplies
  {
    if id in s.channels { DeliveryReplies(Push(s, id, Trailers(block)), id, Accepts(s.channels[id])); }
  }

  lemma HeadTells(s: State, id: nat, receiverAlive: bool)
    requires id in s.requests && s.requests[id].bodyRx && s.requests[id].responseTx && !s.requests[id].discard
    ensures Tells(s, DeliverHead(s, id, receiverAlive), {ResponseSlot(id)})
  {
    var r := s.requests[id];
    var s1 := s.(requests := s.requests[id := r.(bodyRx := false, responseTx := false, started := true)],
                 okReplies := s.okReplies + multiset{ResponseSlot(id)});
    if !receiverAlive {
      CancelReplies(if id in s1.channels
                    then s1.(channels := s1.channels[id := s1.channels[id].(receiverOpen := false)]) else s1, id);
    }
  }

  lemma HeadersTell(s: State, sid: nat, id: nat, e: StreamEvent)
    requires Indexes.IdOk(s, id) && e.HeadersEvent?
    ensures Tells(s, HandleHeaders(s, sid, id, e),
                  if id in s.requests && !s.requests[id].started && e.valid && !e.interim && id != WARMUP_REQUEST_ID
                  then {ResponseSlot(id)} else {})
  {
    if id in s.requests {
      if !s.requests[id].started {
        CancelReplies(s, id);
        if id != WARMUP_REQUEST_ID { HeadTells(s, id, e.receiverAlive); }
      } else {
        var s1 := if sid in s.streams
                  then s.(streams := s.streams[sid := s.streams[sid].(trailersRead := true)]) else s;
        CancelReplies(s1, id);
        TrailersReplies(s1, id, e.block);
      }
    }
  }

  lemma EventTells(s: State, e: Event)
    requires Indexes.Inv(s)
    ensures Tells(s, HandleEvent(s, e), HeadBy(s, e))
  {
    if e.OnStream? && e.sid in s.streamToRequest {
      var id := s.streamToRequest[e.sid];
      assert Indexes.IdOk(s, id);
      match e.event
      case HeadersEvent(_, _, _, _) => HeadersTell(s, e.sid, id, e.event);
      case DataEvent(script) => DrainReplies(s, id, script); DiscardReplies(s, id, script);
      case FinishedEvent =>
      case ResetEvent => CancelReplies(s, id);
      case PriorityUpdateEvent =>
    }
  }

  lemma {:induction false} PollTells(s: State, events: seq<Event>)
    requires Indexes.Inv(s) && PollAllowed(s, events)
    ensures Tells(s, PollEvents(s, events), HeadsIn(s, events))
    decreases |events|
  {
    if events != [] && !Paused(s) {
      var s1 := HandleEvent(s, events[0]);
      EventTells(s, events[0]);
      Indexes.EventKeeps(s, events[0]);
      PollTells(s1, events[1..]);
      TellsBoth(s, s1, PollEvents(s, events), HeadBy(s, events[0]), HeadsIn(s1, events[1..]));
    }
  }

  lemma ProcessTells(s: State, script: seq<Turn>, events: seq<Event>)
    requires Indexes.Inv(s) && s.error.None? && PollAllowed(RetryBlocked(s, script), events)
    ensures Tells(s, ProcessEvents(s, script, events), HeadsIn(RetryBlocked(s, script), events))
  {
    RetryReplies(s, script);
    Indexes.RetryKeeps(s, script);
    PollTells(RetryBlocked(s, script), events);
  }

  lemma CommandTells(s: State, cmd: Command)
    ensures Tells(s, HandleCommand(s, cmd), {})
  {
    if cmd.Cancel? { CancelReplies(s, cmd.id); }
  }

  lemma StepTells(s: State, a: Action)
    requires Indexes.Inv(s) && Allowed(s, a)
    ensures Tells(s, Step(s, a), GoodNews(s, a))
  {
    match a
    case Commanded(cmd) => CommandTells(s, cmd);
    case Warmed =>
    case Dispatched(conn, openings) => DispatchTells(s, conn, openings);
    case Driven(answers) => DriveTells(s, answers);
    case Polled(script, events) => ProcessTells(s, script, events);
    case Consumed(_, _, _) =>
  }

  lemma {:induction false} RunTells(s: State, actions: seq<Action>)
    requires Indexes.Inv(s) && RunAllowed(s, actions)
    ensures Tells(s, Run(s, actions), AllGoodNews(s, actions))
    decreases |actions|
  {
    if actions != [] {
      var s1 := Step(s, actions[0]);
      StepTells(s, actions[0]);
      Indexes.StepKeeps(s, actions[0]);
      RunTells(s1, actions[1..]);
      TellsBoth(s, s1, Run(s, actions), GoodNews(s, actions[0]), AllGoodNews(s1, actions[1..]));
    }
  }

  lemma {:induction false} FailAllReplies(s: State, order: seq<nat>)
    ensures FailAll(s, order).okReplies == s.okReplies
    decreases |order|
  {
    if order != [] { FailAllReplies(s, order[..|order| - 1]); }
  }

  /** The theorem: when the worker has exited, a reply slot of a command of the run was answered
      well exactly if its stream was opened, its last byte was taken or its head arrived, and
      with an error otherwise. */
  lemma AnswersAreExact(actions: seq<Action>, order: seq<nat>, slot: Slot)
    requires RunAllowed(Start, actions)
    requires forall id :: id in Run(Start, actions).requests ==> id in order
    requires slot in Order.AllSlots(actions)
    ensures var s := FailAll(Run(Start, actions), order);
            if slot in AllGoodNews(Start, actions) then s.okReplies[slot] == 1 && s.errReplies[slot] == 0
            else s.okReplies[slot] == 0 && s.errReplies[slot] == 1
  {
    Indexes.StartOk();
    RunTells(Start, actions);
    FailAllReplies(Run(Start, actions), order);
    Order.EveryCommandIsAnsweredOnce(actions, order);
  }
}
