/**
  The upstream HTTP/3 connection worker (src/upstream_h3.rs) as a state machine.

  The worker owns six indexes; `State` holds them together with the part of the
  surrounding system it acts on: response body channels, QUIC streams and the one-shot
  replies it has sent.  quiche, the consumers of the body channels and the command
  senders are the environment: what they answer is a parameter of every transition, so
  a statement about all parameters is a statement about all their behaviours.
 */
module UpstreamH3 {
  import opened Common

  const MAX_BODY_FRAMES: nat := 24
  const H3_BODY_RECV_BUFFER: nat := 65536
  const WARMUP_REQUEST_ID: nat := 0

  /** What travels in a response body channel. */
  datatype Item = Data(bytes: seq<byte>) | Trailers(block: nat) | Failure

  /** A queued write; `rest` is what quiche has not accepted yet. */
  datatype Write =
    | BodyWrite(rest: seq<byte>, fin: bool, token: nat)
    | TrailersWrite(token: nat)

  /** `openTx`, `responseTx` and `bodyRx` say whether the request still holds that end. */
  datatype Request = Request(
    hasBody: bool, allowEarlyData: bool,
    openTx: bool, responseTx: bool, bodyRx: bool,
    stream: Option<nat>, started: bool,
    write: Option<Write>, pendingResponse: Option<Item>, discard: bool)

  /** One bounded channel with its whole history: `sent[taken..]` is what is queued.
      `stream` remembers which stream feeds it, also after the request is gone. */
  datatype Channel = Channel(
    stream: Option<nat>, sent: seq<Item>, taken: nat, receiverOpen: bool, finished: bool)

  /** One QUIC stream: the request it was opened for; what the peer sends (`body`,
      `trailers`) and how much of it was read; what the peer has accepted (`up`) and whether
      our side is closed (`fin`). */
  datatype Stream = Stream(
    owner: nat, body: seq<byte>, trailers: Option<nat>, pos: nat, trailersRead: bool,
    up: seq<byte>, fin: bool)

  /** The one-shot senders a command carries. */
  datatype Slot = OpenedSlot(id: nat) | ResponseSlot(id: nat) | WriteSlot(id: nat, token: nat)

  datatype Error =
    | NoRequestState | ReceiverMissing | SenderMissing | DataBeforeOpen | DiscardBeforeOpen
    | RecvFailed | PollFailed

  datatype State = State(
    requests: map<nat, Request>, streamToRequest: map<nat, nat>,
    waiting: seq<nat>, pendingWrites: seq<nat>,
    responseBlocked: Option<nat>, draining: bool,
    channels: map<nat, Channel>, streams: map<nat, Stream>,
    okReplies: multiset<Slot>, errReplies: multiset<Slot>,
    received: set<Slot>, seen: set<nat>, error: Option<Error>)

  const Start := State(map[], map[], [], [], None, false,
                       map[], map[], multiset{}, multiset{}, {}, {}, None)

  datatype Command =
    | Open(id: nat, hasBody: bool, allowEarlyData: bool)
    | Body(id: nat, data: seq<byte>, fin: bool, token: nat)
    | BodyTrailers(id: nat, token: nat)
    | Cancel(id: nat)

  /** Nothing received, no id announced, no request added, no GOAWAY taken back. */
  predicate NothingNew(s: State, s1: State) {
    && s1.received == s.received && s1.seen == s.seen && (s.draining ==> s1.draining)
    && s1.requests.Keys <= s.requests.Keys
  }

  // ----- replies and failure -------------------------------------------------------

  function One(b: bool, slot: Slot): multiset<Slot> {
    if b then multiset{slot} else multiset{}
  }

  function WriteReply(id: nat, write: Option<Write>): multiset<Slot> {
    match write
    case None => multiset{}
    case Some(w) => multiset{WriteSlot(id, w.token)}
  }

  /** Every one-shot sender the request still holds. */
  function HeldSlots(id: nat, r: Request): multiset<Slot> {
    One(r.openTx, OpenedSlot(id)) + One(r.responseTx, ResponseSlot(id)) + WriteReply(id, r.write)
  }

  datatype Delivery = Ready | Blocked | Closed | Broken(error: Error)

  function Accepts(ch: Channel): Delivery {
    if !ch.receiverOpen then Closed
    else if |ch.sent| - ch.taken >= MAX_BODY_FRAMES then Blocked
    else Ready
  }

  /** `try_send`: the frame goes in if there is room and somebody to read it. */
  function Push(s: State, id: nat, item: Item): State {
    if id in s.channels && Accepts(s.channels[id]) == Ready
    then s.(channels := s.channels[id := s.channels[id].(sent := s.channels[id].sent + [item])])
    else s
  }

  /** `PendingRequest::fail` on a request already taken out of the table. */
  function FailRequest(s: State, id: nat, r: Request): (s': State)
    ensures NothingNew(s, s') && s'.streams == s.streams && s'.draining == s.draining
  {
    var s1 := if r.responseTx then s else Push(s, id, Failure);
    s1.(errReplies := s1.errReplies + HeldSlots(id, r))
  }

  function CancelRequest(s: State, id: nat): (s': State)
    ensures NothingNew(s, s') && s'.streams == s.streams && s'.draining == s.draining
    ensures id !in s'.requests
  {
    if id !in s.requests then s else
    var r := s.requests[id];
    var s1 := s.(requests := s.requests - {id},
                 streamToRequest := if r.stream.Some? then s.streamToRequest - {r.stream.value}
                                    else s.streamToRequest);
    FailRequest(s1, id, r)
  }

  function FailOne(s: State, id: nat): State {
    if id in s.requests
    then FailRequest(s.(requests := s.requests - {id}), id, s.requests[id]) else s
  }

  /** `fail_all`, draining the table in the order given. */
  function FailAll(s: State, order: seq<nat>): State {
    if order == [] then s
    else FailOne(FailAll(s, order[..|order| - 1]), order[|order| - 1])
  }

  // ----- commands ------------------------------------------------------------------

  function EnqueueWrite(s: State, id: nat, write: Write): (s': State)
    ensures NothingNew(s, s') && s'.streams == s.streams && s'.draining == s.draining
  {
    var reject := s.(errReplies := s.errReplies + multiset{WriteSlot(id, write.token)});
    if id !in s.requests then reject
    else if s.requests[id].stream.None? then reject
    else if s.requests[id].write.Some? then reject
    else s.(requests := s.requests[id := s.requests[id].(write := Some(write))],
            pendingWrites := s.pendingWrites + [id])
  }

  /** The one-shot senders a command hands over. */
  function Slots(cmd: Command): set<Slot> {
    match cmd
    case Open(id, hasBody, _) => (if hasBody then {OpenedSlot(id)} else {}) + {ResponseSlot(id)}
    case Body(id, _, _, token) => {WriteSlot(id, token)}
    case BodyTrailers(id, token) => {WriteSlot(id, token)}
    case Cancel(_) => {}
  }

  function HandleOpen(s: State, id: nat, hasBody: bool, allowEarlyData: bool): State {
    var s1 := s.(seen := s.seen + {id}, received := s.received + Slots(Open(id, hasBody, allowEarlyData)));
    if s.draining then
      s1.(errReplies := s1.errReplies + One(hasBody, OpenedSlot(id)) + multiset{ResponseSlot(id)})
    else
      s1.(requests := s1.requests[id := Request(hasBody, allowEarlyData, hasBody, true, true,
                                                None, false, None, None, false)],
          channels := s1.channels[id := Channel(None, [], 0, true, false)],
          waiting := s1.waiting + [id])
  }

  function HandleCommand(s: State, cmd: Command): (s': State)
    ensures s'.received == s.received + Slots(cmd) && s.seen <= s'.seen
    ensures s'.draining == s.draining && s'.streams == s.streams
    ensures forall id :: id in s'.requests ==> id in s.requests || (cmd.Open? && cmd.id == id)
  {
    match cmd
    case Open(id, hasBody, allowEarlyData) => HandleOpen(s, id, hasBody, allowEarlyData)
    case Body(id, data, fin, token) =>
      EnqueueWrite(s.(received := s.received + {WriteSlot(id, token)}), id, BodyWrite(data, fin, token))
    case BodyTrailers(id, token) =>
      EnqueueWrite(s.(received := s.received + {WriteSlot(id, token)}), id, TrailersWrite(token))
    case Cancel(id) => CancelRequest(s, id)
  }

  function EnqueueWarmup(s: State): State {
    var id := WARMUP_REQUEST_ID;
    if id in s.requests then s else
    s.(requests := s.requests[id := Request(false, false, false, false, false,
                                            None, false, None, None, true)],
       channels := s.channels[id := Channel(None, [], 0, false, false)],
       waiting := s.waiting + [id],
       seen := s.seen + {id})
  }

  // ----- opening streams -----------------------------------------------------------

  datatype Conn = Conn(established: bool, earlyData: bool)

  /** The answer of `send_request`; an opened stream comes with what its peer will send. */
  datatype Opening =
    | Opened(sid: nat, body: seq<byte>, trailers: Option<nat>)
    | NoCredit
    | Refused

  function StreamOpened(s: State, id: nat, o: Opening): State
    requires id in s.requests && o.Opened?
  {
    var r := s.requests[id];
    s.(requests := s.requests[id := r.(stream := Some(o.sid), openTx := false)],
       streamToRequest := s.streamToRequest[o.sid := id],
       streams := s.streams[o.sid := Stream(id, o.body, o.trailers, 0, false, [], !r.hasBody)],
       channels := if id in s.channels
                   then s.channels[id := s.channels[id].(stream := Some(o.sid))] else s.channels,
       okReplies := s.okReplies + One(r.openTx, OpenedSlot(id)))
  }

  function DispatchOne(s: State, conn: Conn, o: Opening): (r: (State, bool))
    requires s.waiting != []
    ensures NothingNew(s, r.0)
  {
    var id := s.waiting[0];
    var s1 := s.(waiting := s.waiting[1..]);
    if id !in s.requests then (s1, false) else
    var r := s.requests[id];
    if r.stream.Some? then (s1, false) else
    var inEarlyData := conn.earlyData && !conn.established;
    if (inEarlyData && !r.allowEarlyData) || (!conn.established && !inEarlyData) then
      (s1.(waiting := s1.waiting + [id]), false)
    else
      match o
      case Opened(_, _, _) => (StreamOpened(s1, id, o), false)
      case NoCredit => (s1.(waiting := [id] + s1.waiting), true)
      case Refused => (FailRequest(s1.(requests := s1.requests - {id}), id, r), false)
  }

  /** One pass over the queue as it was on entry: one answer per queued id. */
  function DispatchWaiting(s: State, conn: Conn, answers: seq<Opening>): (s': State)
    ensures NothingNew(s, s')
    decreases |answers|
  {
    if answers == [] || s.waiting == [] then s else
    var (s1, stop) := DispatchOne(s, conn, answers[0]);
    if stop then s1 else DispatchWaiting(s1, conn, answers[1..])
  }

  // ----- request bodies ------------------------------------------------------------

  /** The answer of `send_body` / `send_additional_headers`. */
  datatype Acceptance = Took(n: nat) | Full | Rejected

  /** quiche takes some prefix; it sets fin only with the last byte and nothing after fin. */
  function SendBody(st: Stream, rest: seq<byte>, fin: bool, a: Acceptance): (Stream, Acceptance) {
    if a.Full? then (st, a)
    else if a.Rejected? || st.fin then (st, Rejected)
    else
      var n := Min(a.n, |rest|);
      (st.(up := st.up + rest[..n], fin := fin && n == |rest|), Took(n))
  }

  /** What quiche is asked to send for a write: trailers are an empty, final write. */
  function Unsent(w: Write): (seq<byte>, bool) {
    if w.BodyWrite? then (w.rest, w.fin) else ([], true)
  }

  /** The write has been taken off the queue and offered to quiche; it is done, goes to the
      back of the queue, or ends its request. */
  function AfterSend(s: State, id: nat, answer: Acceptance): (s': State)
    requires id in s.requests && s.requests[id].write.Some?
    ensures NothingNew(s, s') && s'.streams == s.streams
  {
    var r := s.requests[id];
    var w := r.write.value;
    var (rest, fin) := Unsent(w);
    match answer
    case Took(n) =>
      if n < |rest| then
        s.(requests := s.requests[id := r.(write := Some(BodyWrite(rest[n..], fin, w.token)))],
           pendingWrites := s.pendingWrites + [id])
      else
        s.(requests := s.requests[id := r.(write := None)],
           okReplies := s.okReplies + multiset{WriteSlot(id, w.token)})
    case Full => s.(pendingWrites := s.pendingWrites + [id])
    case Rejected =>
      CancelRequest(s.(requests := s.requests[id := r.(write := None)],
                       errReplies := s.errReplies + multiset{WriteSlot(id, w.token)}), id)
  }

  function DriveOne(s: State, a: Acceptance): (s': State)
    requires s.pendingWrites != []
    ensures NothingNew(s, s') && s'.streams.Keys == s.streams.Keys
  {
    var id := s.pendingWrites[0];
    var s1 := s.(pendingWrites := s.pendingWrites[1..]);
    if id !in s.requests then s1 else
    var r := s.requests[id];
    if r.stream.None? || r.write.None? || r.stream.value !in s.streams then s1 else
    var sid := r.stream.value;
    var (rest, fin) := Unsent(r.write.value);
    var (st, answer) := SendBody(s.streams[sid], rest, fin, a);
    AfterSend(s1.(streams := s1.streams[sid := st]), id, answer)
  }

  function DrivePendingWrites(s: State, answers: seq<Acceptance>): (s': State)
    ensures NothingNew(s, s') && s'.streams.Keys == s.streams.Keys
    decreases |answers|
  {
    if answers == [] || s.pendingWrites == [] then s
    else DrivePendingWrites(DriveOne(s, answers[0]), answers[1..])
  }

  // ----- response bodies -----------------------------------------------------------

  datatype Recv = Read(n: nat) | RecvError

  /** One turn of the drain loop: what the consumer did just before, and what `recv_body`
      answers if it is reached. */
  datatype Turn = Turn(takes: nat, closes: bool, recv: Recv)

  function Consume(ch: Channel, takes: nat, closes: bool): Channel {
    ch.(taken := if ch.taken <= |ch.sent| then Min(|ch.sent|, ch.taken + takes) else ch.taken,
        receiverOpen := ch.receiverOpen && !closes)
  }

  /** How many bytes `recv_body` yields: the next ones, at most a buffer full. */
  function Available(st: Stream, n: nat): nat {
    if st.pos <= |st.body| then Min(n, Min(H3_BODY_RECV_BUFFER, |st.body| - st.pos)) else 0
  }

  function DrainOne(s: State, id: nat, sid: nat, n: nat): State
    requires id in s.channels && sid in s.streams
    requires s.streams[sid].pos <= |s.streams[sid].body|
  {
    var st := s.streams[sid];
    var k := Available(st, n);
    var chunk := Data(st.body[st.pos..st.pos + k]);
    s.(channels := s.channels[id := s.channels[id].(sent := s.channels[id].sent + [chunk])],
       streams := s.streams[sid := st.(pos := st.pos + k)])
  }

  function DrainLoop(s: State, id: nat, sid: nat, script: seq<Turn>): (State, Delivery)
    decreases |script|
  {
    if script == [] || id !in s.channels || sid !in s.streams
       || s.streams[sid].pos > |s.streams[sid].body| then (s, Ready) else
    var turn := script[0];
    var s1 := s.(channels := s.channels[id := Consume(s.channels[id], turn.takes, turn.closes)]);
    var accepts := Accepts(s1.channels[id]);
    if accepts != Ready then (s1, accepts)
    else if turn.recv.RecvError? then (s1, Broken(RecvFailed))
    else if Available(s1.streams[sid], turn.recv.n) == 0 then (s1, Ready)
    else DrainLoop(DrainOne(s1, id, sid, turn.recv.n), id, sid, script[1..])
  }

  function DrainResponseBody(s: State, id: nat, script: seq<Turn>): (State, Delivery) {
    if id !in s.requests then (s, Broken(NoRequestState))
    else if s.requests[id].stream.None? then (s, Broken(DataBeforeOpen))
    else DrainLoop(s, id, s.requests[id].stream.value, script)
  }

  /** The warm-up answer is read once per event and thrown away. */
  function DiscardResponseBody(s: State, id: nat, script: seq<Turn>): (State, Delivery) {
    if id !in s.requests || s.requests[id].stream.None? then (s, Broken(DiscardBeforeOpen)) else
    var sid := s.requests[id].stream.value;
    if script == [] || sid !in s.streams then (s, Ready)
    else if script[0].recv.RecvError? then (s, Broken(RecvFailed))
    else
      var st := s.streams[sid];
      (s.(streams := s.streams[sid := st.(pos := st.pos + Available(st, script[0].recv.n))]), Ready)
  }

  function AfterDelivery(s: State, id: nat, d: Delivery): State {
    match d
    case Ready => s
    case Blocked => s.(responseBlocked := Some(id))
    case Closed => CancelRequest(s, id)
    case Broken(e) => s.(error := Some(e))
  }

  /** Retry the single delivery that found its channel full. */
  function RetryBlocked(s: State, script: seq<Turn>): State {
    if s.responseBlocked.None? then s else
    var id := s.responseBlocked.value;
    var s0 := s.(responseBlocked := None);
    if id !in s.requests then s0
    else if s.requests[id].pendingResponse.Some? && id in s.channels then
      var d := Accepts(s.channels[id]);
      if d == Blocked then s
      else
        var s1 := s0.(requests := s0.requests[id := s0.requests[id].(pendingResponse := None)]);
        AfterDelivery(Push(s1, id, s.requests[id].pendingResponse.value), id, d)
    else
      var (s1, d) := DrainResponseBody(s0, id, script);
      AfterDelivery(s1, id, d)
  }

  // ----- events --------------------------------------------------------------------

  datatype StreamEvent =
    | HeadersEvent(valid: bool, interim: bool, block: nat, receiverAlive: bool)
    | DataEvent(script: seq<Turn>)
    | FinishedEvent
    | ResetEvent
    | PriorityUpdateEvent

  datatype Event = OnStream(sid: nat, event: StreamEvent) | GoAway | PollError

  function DeliverHead(s: State, id: nat, receiverAlive: bool): State
    requires id in s.requests
  {
    var r := s.requests[id];
    if r.discard then s.(requests := s.requests[id := r.(started := true)])
    else if !r.bodyRx then s.(error := Some(ReceiverMissing))
    else if !r.responseTx then s.(error := Some(SenderMissing))
    else
      var s1 := s.(requests := s.requests[id := r.(bodyRx := false, responseTx := false, started := true)],
                   okReplies := s.okReplies + multiset{ResponseSlot(id)});
      if receiverAlive then s1
      else
        // The unsent head is dropped and its body receiver with it.
        var s2 := if id in s1.channels
                  then s1.(channels := s1.channels[id := s1.channels[id].(receiverOpen := false)]) else s1;
        CancelRequest(s2, id)
  }

  function DeliverTrailers(s: State, id: nat, block: nat): State
    requires id in s.requests
  {
    if id !in s.channels then s else
    var d := Accepts(s.channels[id]);
    if d == Blocked then
      s.(requests := s.requests[id := s.requests[id].(pendingResponse := Some(Trailers(block)))],
         responseBlocked := Some(id))
    else AfterDelivery(Push(s, id, Trailers(block)), id, d)
  }

  function HandleHeaders(s: State, sid: nat, id: nat, e: StreamEvent): State
    requires e.HeadersEvent?
  {
    if id !in s.requests then s.(error := Some(NoRequestState))
    else if !s.requests[id].started then
      if !e.valid then CancelRequest(s, id)
      else if e.interim then s
      else DeliverHead(s, id, e.receiverAlive)
    else
      var s1 := if sid in s.streams
                then s.(streams := s.streams[sid := s.streams[sid].(trailersRead := true)]) else s;
      if !e.valid then CancelRequest(s1, id) else DeliverTrailers(s1, id, e.block)
  }

  /** A stream that ends fails a head that never came and an upload still in progress. */
  function FailedByFinish(id: nat, r: Request): multiset<Slot> {
    if r.discard then multiset{}
    else One(!r.started && r.responseTx, ResponseSlot(id)) + WriteReply(id, r.write)
  }

  function HandleFinished(s: State, sid: nat, id: nat): State {
    var s1 := s.(streamToRequest := s.streamToRequest - {sid});
    if id !in s1.requests then s1 else
    var r := s1.requests[id];
    var s2 := s1.(requests := s1.requests - {id});
    var s3 := if (r.discard || r.started) && id in s2.channels
              then s2.(channels := s2.channels[id := s2.channels[id].(finished := true)]) else s2;
    s3.(errReplies := s3.errReplies + FailedByFinish(id, r))
  }

  function HandleEvent(s: State, e: Event): State {
    match e
    case PollError => s.(error := Some(PollFailed))
    case GoAway => s.(draining := true)
    case OnStream(sid, event) =>
      if sid !in s.streamToRequest then s else
      var id := s.streamToRequest[sid];
      match event
      case HeadersEvent(_, _, _, _) => HandleHeaders(s, sid, id, event)
      case DataEvent(script) =>
        var (s1, d) := if id in s.requests && s.requests[id].discard
                       then DiscardResponseBody(s, id, script) else DrainResponseBody(s, id, script);
        AfterDelivery(s1, id, d)
      case FinishedEvent => HandleFinished(s, sid, id)
      case ResetEvent => CancelRequest(s, id)
      case PriorityUpdateEvent => s
  }

  predicate Paused(s: State) {
    s.error.Some? || s.responseBlocked.Some?
  }

  function PollEvents(s: State, events: seq<Event>): State
    decreases |events|
  {
    if events == [] || Paused(s) then s
    else PollEvents(HandleEvent(s, events[0]), events[1..])
  }

  function ProcessEvents(s: State, script: seq<Turn>, events: seq<Event>): State {
    PollEvents(RetryBlocked(s, script), events)
  }

  // ----- the environment's contract and runs ---------------------------------------

  predicate OpeningAllowed(s: State, o: Opening) {
    o.Opened? ==> o.sid !in s.streams
  }

  /** Stream ids are fresh. */
  predicate DispatchAllowed(s: State, conn: Conn, answers: seq<Opening>)
    decreases |answers|
  {
    answers == [] || s.waiting == [] ||
    (OpeningAllowed(s, answers[0]) &&
     var (s1, stop) := DispatchOne(s, conn, answers[0]);
     stop || DispatchAllowed(s1, conn, answers[1..]))
  }

  /** Trailers and the end of a stream are reported only after everything before them
      has been read; a stream has at most one trailer block. */
  predicate EventAllowed(s: State, e: Event) {
    e.OnStream? && e.sid in s.streamToRequest && e.sid in s.streams ==>
      var st := s.streams[e.sid];
      var id := s.streamToRequest[e.sid];
      && (e.event.FinishedEvent? ==>
            st.pos == |st.body| && (st.trailers.Some? ==> st.trailersRead))
      && (e.event.HeadersEvent? && id in s.requests && s.requests[id].started ==>
            st.pos == |st.body| && st.trailers == Some(e.event.block) && !st.trailersRead)
  }

  predicate PollAllowed(s: State, events: seq<Event>)
    decreases |events|
  {
    events == [] || Paused(s) ||
    (EventAllowed(s, events[0]) && PollAllowed(HandleEvent(s, events[0]), events[1..]))
  }

  datatype Action =
    | Commanded(cmd: Command)
    | Warmed
    | Dispatched(conn: Conn, openings: seq<Opening>)
    | Driven(answers: seq<Acceptance>)
    | Polled(script: seq<Turn>, events: seq<Event>)
    | Consumed(id: nat, takes: nat, closes: bool)

  function Step(s: State, a: Action): State {
    match a
    case Commanded(cmd) => HandleCommand(s, cmd)
    case Warmed => EnqueueWarmup(s)
    case Dispatched(conn, openings) => if s.draining then s else DispatchWaiting(s, conn, openings)
    case Driven(answers) => DrivePendingWrites(s, answers)
    case Polled(script, events) => ProcessEvents(s, script, events)
    case Consumed(id, takes, closes) =>
      if id in s.channels then s.(channels := s.channels[id := Consume(s.channels[id], takes, closes)]) else s
  }

  /** Request ids come from a counter that starts at 1, each write reply is a new one-shot,
      warm-up runs once, and nothing happens after the connection has failed. */
  predicate Allowed(s: State, a: Action) {
    && s.error.None?
    && match a
       case Commanded(Open(id, _, _)) => id !in s.seen && id != WARMUP_REQUEST_ID
       case Commanded(Body(id, _, _, token)) => WriteSlot(id, token) !in s.received && id != WARMUP_REQUEST_ID
       case Commanded(BodyTrailers(id, token)) => WriteSlot(id, token) !in s.received && id != WARMUP_REQUEST_ID
       case Commanded(Cancel(_)) => true
       case Warmed => WARMUP_REQUEST_ID !in s.seen
       case Dispatched(conn, openings) => DispatchAllowed(s, conn, openings)
       case Driven(_) => true
       case Polled(script, events) => PollAllowed(RetryBlocked(s, script), events)
       case Consumed(_, _, _) => true
  }

  function Run(s: State, actions: seq<Action>): State
    decreases |actions|
  {
    if actions == [] then s else Run(Step(s, actions[0]), actions[1..])
  }

  predicate RunAllowed(s: State, actions: seq<Action>)
    decreases |actions|
  {
    actions == [] || (Allowed(s, actions[0]) && RunAllowed(Step(s, actions[0]), actions[1..]))
  }
}
