/**
  Uploads: one `H3RequestBodyWriter` (src/upstream_h3_connector.rs) driving one request of
  the worker.  The writer batches small chunks, waits for the stream to open before its
  first command and for each command's answer before the next; the worker splits commands
  as quiche takes them.  Together they lose, repeat and reorder nothing.
 */
module H3Upload {
  import opened Common
  import opened UpstreamH3
  import Indexes = UpstreamH3Indexes
  import Replies = UpstreamH3Replies
  import Order = UpstreamH3Order

  const UPSTREAM_BODY_BATCH_THRESHOLD: nat := 65536

  datatype Call = WriteAllBuf(data: seq<byte>) | Finish

  /** What the writer's caller is waiting for. */
  datatype Phase = Idle | Opening(call: Call) | Sending(token: nat, fin: bool) | Stopped

  /** `written` is everything the caller passed in, `handed` everything put into commands. */
  datatype Writer = Writer(
    open: bool, pending: seq<byte>, phase: Phase,
    written: seq<byte>, handed: seq<byte>, finished: bool, nextToken: nat)

  /** The writer, its request, and the one command it may have on its way to the worker. */
  datatype System = System(s: State, id: nat, w: Writer, inbox: Option<Command>)

  // ----- the writer ------------------------------------------------------------------

  function Send(g: System, data: seq<byte>, fin: bool): System {
    var w := g.w;
    g.(w := w.(phase := Sending(w.nextToken, fin), handed := w.handed + data, nextToken := w.nextToken + 1),
       inbox := Some(Body(g.id, data, fin, w.nextToken)))
  }

  function FlushPending(g: System, fin: bool): System {
    Send(g.(w := g.w.(pending := [])), g.w.pending, fin)
  }

  /** The call once the stream is known to be open. */
  function Proceed(g: System, call: Call): System {
    var g0 := g.(w := g.w.(phase := Idle));
    match call
    case WriteAllBuf(data) =>
      if data == [] then g0
      else if g.w.pending == [] && |data| >= UPSTREAM_BODY_BATCH_THRESHOLD then Send(g0, data, false)
      else
        var g1 := g0.(w := g0.w.(pending := g0.w.pending + data));
        if |g1.w.pending| >= UPSTREAM_BODY_BATCH_THRESHOLD then FlushPending(g1, false) else g1
    case Finish => FlushPending(g0, true)
  }

  function StartCall(g: System, call: Call): System {
    var w := g.w.(written := g.w.written + (if call.WriteAllBuf? then call.data else []),
                  finished := g.w.finished || call.Finish?);
    if w.open then g.(w := w.(open := false, phase := Opening(call)))
    else Proceed(g.(w := w), call)
  }

  // ----- the system ------------------------------------------------------------------

  datatype SystemStep =
    | Called(call: Call)
    | OpenAnswered
    | Handled
    | Answered
    | WorkerLost
    | WorkerStep(action: Action)

  function SystemNext(g: System, step: SystemStep): System {
    match step
    case Called(call) => StartCall(g, call)
    case OpenAnswered =>
      if g.w.phase.Opening? && g.s.okReplies[OpenedSlot(g.id)] > 0 then Proceed(g, g.w.phase.call)
      else g.(w := g.w.(phase := Stopped))
    case Handled => g.(s := if g.inbox.Some? then HandleCommand(g.s, g.inbox.value) else g.s, inbox := None)
    case Answered =>
      if g.w.phase.Sending? && g.s.okReplies[WriteSlot(g.id, g.w.phase.token)] > 0
      then g.(w := g.w.(phase := Idle)) else g.(w := g.w.(phase := Stopped))
    case WorkerLost => g.(w := g.w.(phase := Stopped), inbox := None)
    case WorkerStep(action) => g.(s := Step(g.s, action))
  }

  /** Nobody else writes for this request; the caller awaits each call, does not write after
      `finish`, and gives up after an error. */
  predicate StepAllowed(g: System, step: SystemStep) {
    match step
    case Called(_) => g.w.phase.Idle? && !g.w.finished
    case OpenAnswered => g.w.phase.Opening?
                         && g.s.okReplies[OpenedSlot(g.id)] + g.s.errReplies[OpenedSlot(g.id)] > 0
    case Handled => g.inbox.Some? && g.s.error.None?
    case Answered => g.w.phase.Sending? && var slot := WriteSlot(g.id, g.w.phase.token);
                     g.s.okReplies[slot] + g.s.errReplies[slot] > 0
    case WorkerLost => g.w.phase.Opening? || g.w.phase.Sending?
    case WorkerStep(action) =>
      Allowed(g.s, action) && (action.Commanded? ==> action.cmd.id != g.id || action.cmd.Cancel?)
  }

  /** The request has just been sent to the worker's queue. */
  ghost predicate Begins(g: System) {
    && g.id != WARMUP_REQUEST_ID && g.id !in g.s.seen
    && g.inbox.Some? && g.inbox.value.Open? && g.inbox.value.id == g.id && g.inbox.value.hasBody
    && g.w == Writer(true, [], Idle, [], [], false, 0)
    && (forall token :: WriteSlot(g.id, token) !in g.s.received)
  }

  function SystemRun(g: System, steps: seq<SystemStep>): System
    decreases |steps|
  {
    if steps == [] then g else SystemRun(SystemNext(g, steps[0]), steps[1..])
  }

  predicate SystemRunAllowed(g: System, steps: seq<SystemStep>)
    decreases |steps|
  {
    steps == [] || (StepAllowed(g, steps[0]) && SystemRunAllowed(SystemNext(g, steps[0]), steps[1..]))
  }

  // ----- the invariant ---------------------------------------------------------------

  predicate HasStream(s: State, id: nat) {
    id in s.channels && s.channels[id].stream.Some? && s.channels[id].stream.value in s.streams
  }

  /** What the peer has accepted for the request, and whether our side was closed. */
  function Up(s: State, id: nat): seq<byte> {
    if HasStream(s, id) then s.streams[s.channels[id].stream.value].up else []
  }

  function Fin(s: State, id: nat): bool {
    HasStream(s, id) && s.streams[s.channels[id].stream.value].fin
  }

  /** The writer's own books. */
  predicate Balanced(w: Writer) {
    && (match w.phase
        case Idle => w.written == w.handed + w.pending
        case Sending(_, _) => w.written == w.handed + w.pending
        case Opening(WriteAllBuf(data)) => w.written == w.handed + w.pending + data
        case Opening(Finish) => w.written == w.handed + w.pending
        case Stopped => w.handed <= w.written)
    && |w.pending| < UPSTREAM_BODY_BATCH_THRESHOLD
    && (w.open ==> w.phase.Idle? && !w.finished)
    && (w.phase.Opening? ==> (w.finished <==> w.phase.call.Finish?))
    && (w.phase.Sending? ==> (w.finished <==> w.phase.fin))
    && (w.finished && (w.phase.Idle? || w.phase.Sending?) ==> w.pending == [])
  }

  /** A live request of ours: it has its stream once the writer is past opening, and what it
      still holds completes what was handed over. */
  predicate Live(s: State, id: nat, w: Writer) {
    id in s.requests ==>
      var r := s.requests[id];
      && r.hasBody && (r.openTx <==> r.stream.None?)
      && (r.stream.None? ==> w.open || w.phase.Opening? || w.phase.Stopped?)
      && (r.write.Some? ==>
            && r.write.value.BodyWrite?
            && (w.phase == Sending(r.write.value.token, r.write.value.fin) || w.phase.Stopped?)
            && (r.write.value.fin ==> w.finished && w.handed == w.written)
            && Up(s, id) + r.write.value.rest == w.handed
            && !Fin(s, id))
  }

  predicate Accepted(s: State, id: nat, w: Writer) {
    && Up(s, id) <= w.handed
    && (Fin(s, id) ==> w.finished && Up(s, id) == w.handed == w.written && !w.phase.Opening?)
    && (w.phase.Idle? || w.phase.Opening? ==> Up(s, id) == w.handed)
    && (w.phase.Idle? && w.finished ==> Fin(s, id))
    && (w.phase.Sending? && s.okReplies[WriteSlot(id, w.phase.token)] > 0 ==>
          Up(s, id) == w.handed && (w.phase.fin ==> Fin(s, id)))
  }

  predicate Inbox(s: State, id: nat, w: Writer, inbox: Option<Command>) {
    match inbox
    case None =>
      && (id in s.seen || w.phase.Stopped?)
      && (w.phase.Sending? && id in s.requests && s.requests[id].write.None? ==>
            s.okReplies[WriteSlot(id, w.phase.token)] > 0)
    case Some(Open(i, hasBody, _)) =>
      i == id && hasBody && id !in s.seen && (w.open || w.phase.Opening?)
    case Some(Body(i, data, fin, token)) =>
      && i == id && id in s.seen && w.phase == Sending(token, fin)
      && WriteSlot(id, token) !in s.received
      && (id in s.requests ==> s.requests[id].write.None?)
      && Up(s, id) + data == w.handed && !Fin(s, id)
    case _ => false
  }

  /** What the writer, its request and the command on its way know of each other. */
  ghost predicate Agrees(g: System) {
    && Balanced(g.w) && Live(g.s, g.id, g.w) && Accepted(g.s, g.id, g.w) && Inbox(g.s, g.id, g.w, g.inbox)
    && (forall token :: token >= g.w.nextToken ==> WriteSlot(g.id, token) !in g.s.received)
    && (g.w.phase.Sending? ==> g.w.phase.token < g.w.nextToken)
  }

  ghost predicate Uploading(g: System) {
    g.id != WARMUP_REQUEST_ID && Indexes.Inv(g.s) && Replies.Conserved(g.s) && Agrees(g)
  }

  lemma BeginsUploading(g: System)
    requires Begins(g) && Indexes.Inv(g.s) && Replies.Conserved(g.s)
    ensures Uploading(g)
  {
    assert Indexes.IdOk(g.s, g.id);
  }

  // ----- steps of the writer -----------------------------------------------------------

  /** A command leaves the writer: everything handed over so far is with quiche. */
  lemma SendKeeps(g: System, data: seq<byte>, fin: bool, w: Writer)
    requires Uploading(g) && g.w.phase.Opening? && g.inbox.None? && !g.w.open
    requires g.id in g.s.requests ==> g.s.requests[g.id].stream.Some?
    requires w == g.w.(phase := Idle, pending := w.pending) && |w.pending| < UPSTREAM_BODY_BATCH_THRESHOLD
    requires w.written == w.handed + data + w.pending && (fin <==> w.finished) && (fin ==> w.pending == [])
    ensures Uploading(Send(g.(w := w), data, fin))
  {
    assert Replies.SlotOk(g.s, WriteSlot(g.id, g.w.nextToken));
  }

  lemma ProceedKeeps(g: System, call: Call)
    requires Uploading(g) && g.w.phase == Opening(call) && g.inbox.None? && !g.w.open
    requires g.id in g.s.requests ==> g.s.requests[g.id].stream.Some?
    ensures Uploading(Proceed(g, call))
  {
    match call
    case WriteAllBuf(data) =>
      var batch := g.w.pending + data;
      assert g.w.handed + g.w.pending + data == g.w.handed + batch;
      if g.w.pending == [] && |data| >= UPSTREAM_BODY_BATCH_THRESHOLD {
        SendKeeps(g, data, false, g.w.(phase := Idle));
      } else if |batch| >= UPSTREAM_BODY_BATCH_THRESHOLD {
        SendKeeps(g, batch, false, g.w.(phase := Idle, pending := []));
      }
    case Finish => SendKeeps(g, g.w.pending, true, g.w.(phase := Idle, pending := []));
  }

  lemma CallKeeps(g: System, call: Call)
    requires Uploading(g) && StepAllowed(g, Called(call))
    ensures Uploading(StartCall(g, call))
  {
    var w := g.w.(written := g.w.written + (if call.WriteAllBuf? then call.data else []),
                  finished := g.w.finished || call.Finish?, open := false, phase := Opening(call));
    if !g.w.open {
      ProceedKeeps(g.(w := w), call);
      assert Proceed(g.(w := w), call) == StartCall(g, call);
    }
  }

  lemma OpenAnsweredKeeps(g: System)
    requires Uploading(g) && StepAllowed(g, OpenAnswered)
    ensures Uploading(SystemNext(g, OpenAnswered))
  {
    var slot := OpenedSlot(g.id);
    assert Replies.SlotOk(g.s, slot);
    if g.s.okReplies[slot] > 0 { ProceedKeeps(g, g.w.phase.call); }
  }

  lemma AnsweredKeeps(g: System)
    requires Uploading(g) && StepAllowed(g, Answered)
    ensures Uploading(SystemNext(g, Answered))
  {
    assert Replies.SlotOk(g.s, WriteSlot(g.id, g.w.phase.token));
  }

  lemma WorkerLostKeeps(g: System)
    requires Uploading(g) && StepAllowed(g, WorkerLost)
    ensures Uploading(SystemNext(g, WorkerLost))
  {}

  // ----- steps of the worker -----------------------------------------------------------

  lemma HandledKeeps(g: System)
    requires Uploading(g) && StepAllowed(g, Handled)
    ensures Uploading(SystemNext(g, Handled))
  {
    var cmd := g.inbox.value;
    Indexes.StepKeeps(g.s, Commanded(cmd));
    Replies.StepKeeps(g.s, Commanded(cmd));
    assert Indexes.IdOk(g.s, g.id);
    if cmd.Body? {
      assert Replies.SlotOk(g.s, WriteSlot(g.id, cmd.token));
    }
  }

  /** Nothing about this upload has changed, except that its request may have ended. */
  ghost predicate Quiet(s: State, s1: State, id: nat) {
    && (id in s1.requests ==>
          && id in s.requests
          && s1.requests[id].hasBody == s.requests[id].hasBody
          && s1.requests[id].openTx == s.requests[id].openTx
          && s1.requests[id].stream == s.requests[id].stream
          && s1.requests[id].write == s.requests[id].write)
    && Up(s1, id) == Up(s, id) && Fin(s1, id) == Fin(s, id)
    && (id in s1.seen <==> id in s.seen)
    && (forall token :: QuietSlot(s, s1, WriteSlot(id, token)))
  }

  predicate QuietSlot(s: State, s1: State, slot: Slot) {
    s1.okReplies[slot] == s.okReplies[slot] && (slot in s1.received <==> slot in s.received)
  }

  lemma QuietAgrees(g: System, s1: State)
    requires Agrees(g) && Quiet(g.s, s1, g.id)
    ensures Agrees(g.(s := s1))
  {
    forall token ensures QuietSlot(g.s, s1, WriteSlot(g.id, token)) {}
  }

  lemma QuietKeeps(g: System, s1: State)
    requires Uploading(g) && Quiet(g.s, s1, g.id) && Indexes.Inv(s1) && Replies.Conserved(s1)
    ensures Uploading(g.(s := s1))
  {
    QuietAgrees(g, s1);
  }

  lemma QuietTrans(s: State, s1: State, s2: State, id: nat)
    requires Quiet(s, s1, id) && Quiet(s1, s2, id)
    ensures Quiet(s, s2, id)
  {
    forall token ensures QuietSlot(s, s2, WriteSlot(id, token)) {
      assert QuietSlot(s, s1, WriteSlot(id, token)) && QuietSlot(s1, s2, WriteSlot(id, token));
    }
  }

  lemma OnwardQuiet(s: State, s1: State, id: nat)
    requires Order.Onward(s, s1)
    ensures Quiet(s, s1, id)
  {
    assert Order.IdOnward(s, s1, id);
    if HasStream(s, id) || HasStream(s1, id) { assert Order.SidOnward(s, s1, s.channels[id].stream.value); }
    forall token ensures QuietSlot(s, s1, WriteSlot(id, token)) {
      assert Order.SlotOnward(s, s1, WriteSlot(id, token));
    }
  }

  lemma EnqueueQuiet(s: State, other: nat, write: Write, id: nat)
    requires other != id
    ensures Quiet(s, EnqueueWrite(s.(received := s.received + {WriteSlot(other, write.token)}), other, write), id)
  {}

  lemma OpenQuiet(s: State, other: nat, hasBody: bool, early: bool, id: nat)
    requires other != id
    ensures Quiet(s, HandleOpen(s, other, hasBody, early), id)
  {}

  lemma CommandQuiet(s: State, cmd: Command, id: nat)
    requires cmd.id != id || cmd.Cancel?
    ensures Quiet(s, HandleCommand(s, cmd), id)
  {
    match cmd
    case Open(other, hasBody, early) => OpenQuiet(s, other, hasBody, early, id);
    case Body(other, data, fin, token) => EnqueueQuiet(s, other, BodyWrite(data, fin, token), id);
    case BodyTrailers(other, token) => EnqueueQuiet(s, other, TrailersWrite(token), id);
    case Cancel(other) =>
      Order.CancelOnward(s, other);
      OnwardQuiet(s, CancelRequest(s, other), id);
  }

  // Opening the stream.

  lemma StreamOpenedKeeps(g: System, s: State, o: Opening, s1: State)
    requires Uploading(g) && g.id in g.s.requests && g.s.requests[g.id].stream.None?
    requires s == g.s.(waiting := s.waiting) && o.Opened? && o.sid !in s.streams
    requires s1 == StreamOpened(s, g.id, o) && Indexes.Inv(s1) && Replies.Conserved(s1)
    ensures Uploading(g.(s := s1))
  {
    assert Indexes.IdOk(g.s, g.id) && Indexes.IdOk(s1, g.id);
  }

  /** Queues do not matter to an upload. */
  lemma QueuesQuiet(s: State, s1: State, s2: State, id: nat)
    requires s1 == s.(waiting := s1.waiting, pendingWrites := s1.pendingWrites)
    ensures Quiet(s, s1, id)
    ensures Quiet(s1, s2, id) ==> Quiet(s, s2, id)
  {
    if Quiet(s1, s2, id) {
      forall token ensures QuietSlot(s, s2, WriteSlot(id, token)) {
        assert QuietSlot(s1, s2, WriteSlot(id, token));
      }
    }
  }

  lemma OtherOpenedQuiet(s: State, other: nat, o: Opening, id: nat)
    requires other != id && other in s.requests && o.Opened? && o.sid !in s.streams
    requires id in s.channels && s.channels[id].stream.Some? ==> s.channels[id].stream.value in s.streams
    ensures Quiet(s, StreamOpened(s, other, o), id)
  {}

  /** Serving somebody else, or ours without opening it. */
  lemma DispatchOneQuiet(s: State, conn: Conn, o: Opening, id: nat)
    requires Indexes.Inv(s) && s.waiting != [] && OpeningAllowed(s, o)
    requires s.waiting[0] == id && id in s.requests && s.requests[id].stream.None? ==> !o.Opened?
    ensures Quiet(s, DispatchOne(s, conn, o).0, id)
  {
    var other := s.waiting[0];
    var s1 := s.(waiting := s.waiting[1..]);
    var s2 := DispatchOne(s, conn, o).0;
    assert Indexes.IdOk(s, id);
    if s2 == s.(waiting := s2.waiting) {
      QueuesQuiet(s, s2, s2, id);
    } else {
      if o.Refused? {
        Order.CancelOnward(s1, other);
        OnwardQuiet(s1, CancelRequest(s1, other), id);
        assert s2 == CancelRequest(s1, other);
      } else {
        OtherOpenedQuiet(s1, other, o, id);
      }
      QueuesQuiet(s, s1, s2, id);
    }
  }

  lemma DispatchOneKeeps(g: System, conn: Conn, o: Opening)
    requires Uploading(g) && g.s.waiting != [] && OpeningAllowed(g.s, o)
    ensures Uploading(g.(s := DispatchOne(g.s, conn, o).0))
  {
    var s := g.s;
    var s2 := DispatchOne(s, conn, o).0;
    Indexes.DispatchOneKeeps(s, conn, o);
    Replies.DispatchOneKeeps(s, conn, o);
    if s.waiting[0] == g.id && g.id in s.requests && s.requests[g.id].stream.None? && o.Opened? {
      if s2 == s.(waiting := s2.waiting) {
        QueuesQuiet(s, s2, s2, g.id);
        QuietKeeps(g, s2);
      } else {
        StreamOpenedKeeps(g, s.(waiting := s.waiting[1..]), o, s2);
      }
    } else {
      DispatchOneQuiet(s, conn, o, g.id);
      QuietKeeps(g, s2);
    }
  }

  lemma {:induction false} DispatchKeeps(g: System, conn: Conn, answers: seq<Opening>)
    requires Uploading(g) && DispatchAllowed(g.s, conn, answers)
    ensures Uploading(g.(s := DispatchWaiting(g.s, conn, answers)))
    decreases |answers|
  {
    if answers != [] && g.s.waiting != [] {
      DispatchOneKeeps(g, conn, answers[0]);
      var (s1, stop) := DispatchOne(g.s, conn, answers[0]);
      if !stop { DispatchKeeps(g.(s := s1), conn, answers[1..]); }
    }
  }

  // Sending the body.

  /** quiche takes some of what is left: the accepted bytes grow by exactly that, fin comes
      with the last of them, and only then is the command answered. */
  lemma ProgressAgrees(g: System, s1: State, taken: seq<byte>)
    requires Agrees(g) && g.id in g.s.requests && g.id in s1.requests
    requires g.s.requests[g.id].write.Some? && g.s.requests[g.id].write.value.BodyWrite?
    requires var w := g.s.requests[g.id].write.value;
             && taken <= w.rest
             && s1.requests[g.id] == g.s.requests[g.id].(write :=
                  if taken == w.rest then None else Some(BodyWrite(w.rest[|taken|..], w.fin, w.token)))
             && Up(s1, g.id) == Up(g.s, g.id) + taken
             && Fin(s1, g.id) == (w.fin && taken == w.rest)
             && (forall token :: s1.okReplies[WriteSlot(g.id, token)] == g.s.okReplies[WriteSlot(g.id, token)]
                                   + if taken == w.rest && token == w.token then 1 else 0)
             && Replies.SlotOk(s1, WriteSlot(g.id, w.token))
    requires s1.seen == g.s.seen && s1.received == g.s.received
    ensures Agrees(g.(s := s1))
  {
    var w := g.s.requests[g.id].write.value;
    assert taken + w.rest[|taken|..] == w.rest;
    assert Up(g.s, g.id) + w.rest == Up(s1, g.id) + w.rest[|taken|..];
  }

  /** Whatever quiche does with somebody else's write. */
  lemma OtherAfterSendQuiet(s: State, other: nat, answer: Acceptance, id: nat)
    requires other in s.requests && s.requests[other].write.Some? && other != id
    ensures Quiet(s, AfterSend(s, other, answer), id)
  {
    if answer.Rejected? {
      var w := s.requests[other].write.value;
      var s1 := s.(requests := s.requests[other := s.requests[other].(write := None)],
                   errReplies := s.errReplies + multiset{WriteSlot(other, w.token)});
      Order.CancelOnward(s1, other);
      OnwardQuiet(s1, CancelRequest(s1, other), id);
      forall token ensures QuietSlot(s, CancelRequest(s1, other), WriteSlot(id, token)) {
        assert QuietSlot(s1, CancelRequest(s1, other), WriteSlot(id, token));
      }
    }
  }

  lemma OtherStreamQuiet(s: State, s2: State, sid: nat, st: Stream, id: nat)
    requires s2 == s.(pendingWrites := s2.pendingWrites, streams := s.streams[sid := st]) && sid in s.streams
    requires HasStream(s, id) ==> s.channels[id].stream.value != sid
    ensures Quiet(s, s2, id)
  {}

  lemma OtherDriveQuiet(s: State, a: Acceptance, id: nat)
    requires Indexes.Inv(s) && s.pendingWrites != [] && s.pendingWrites[0] != id
    ensures Quiet(s, DriveOne(s, a), id)
  {
    var other := s.pendingWrites[0];
    var s1 := s.(pendingWrites := s.pendingWrites[1..]);
    assert Indexes.IdOk(s, id) && Indexes.IdOk(s, other);
    if other in s.requests && s.requests[other].stream.Some? && s.requests[other].write.Some? {
      var sid := s.requests[other].stream.value;
      var (rest, fin) := Unsent(s.requests[other].write.value);
      var (st, answer) := SendBody(s.streams[sid], rest, fin, a);
      var s2 := s1.(streams := s1.streams[sid := st]);
      OtherStreamQuiet(s, s2, sid, st, id);
      OtherAfterSendQuiet(s2, other, answer, id);
      QuietTrans(s, s2, AfterSend(s2, other, answer), id);
    } else {
      QueuesQuiet(s, s1, s1, id);
    }
  }

  /** Our write is offered to quiche: `s2` is the state with the stream already updated. */
  ghost predicate Offered(g: System, s2: State, st: Stream, sid: nat) {
    && g.id in g.s.requests && g.s.requests[g.id].write.Some? && g.s.requests[g.id].stream == Some(sid)
    && sid in g.s.streams && g.id in g.s.channels && g.s.channels[g.id].stream == Some(sid)
    && s2 == g.s.(pendingWrites := s2.pendingWrites, streams := g.s.streams[sid := st])
  }

  lemma OurSendTook(g: System, s2: State, st: Stream, sid: nat, n: nat)
    requires Agrees(g) && Offered(g, s2, st, sid)
    requires var w := g.s.requests[g.id].write.value;
             && w.BodyWrite? && n <= |w.rest|
             && st == g.s.streams[sid].(up := g.s.streams[sid].up + w.rest[..n], fin := w.fin && n == |w.rest|)
             && Replies.SlotOk(AfterSend(s2, g.id, Took(n)), WriteSlot(g.id, w.token))
    ensures Agrees(g.(s := AfterSend(s2, g.id, Took(n))))
  {
    ProgressAgrees(g, AfterSend(s2, g.id, Took(n)), g.s.requests[g.id].write.value.rest[..n]);
  }

  lemma OurSendRejected(g: System, s2: State, st: Stream, sid: nat)
    requires Agrees(g) && Offered(g, s2, st, sid) && st == g.s.streams[sid]
    ensures Agrees(g.(s := AfterSend(s2, g.id, Rejected)))
  {
    var w := g.s.requests[g.id].write.value;
    var s1 := s2.(requests := s2.requests[g.id := s2.requests[g.id].(write := None)],
                  errReplies := s2.errReplies + multiset{WriteSlot(g.id, w.token)});
    Order.CancelOnward(s1, g.id);
    OnwardQuiet(s1, CancelRequest(s1, g.id), g.id);
    EndedAgrees(g, s1, CancelRequest(s1, g.id));
  }

  lemma OurSendKeeps(g: System, s2: State, st: Stream, sid: nat, a: Acceptance)
    requires Uploading(g) && Offered(g, s2, st, sid)
    requires var (rest, fin) := Unsent(g.s.requests[g.id].write.value);
             st == SendBody(g.s.streams[sid], rest, fin, a).0
    ensures var (rest, fin) := Unsent(g.s.requests[g.id].write.value);
            var s3 := AfterSend(s2, g.id, SendBody(g.s.streams[sid], rest, fin, a).1);
            Indexes.Inv(s3) && Replies.Conserved(s3) ==> Uploading(g.(s := s3))
  {
    var w := g.s.requests[g.id].write.value;
    var answer := SendBody(g.s.streams[sid], Unsent(w).0, Unsent(w).1, a).1;
    var s3 := AfterSend(s2, g.id, answer);
    if Indexes.Inv(s3) && Replies.Conserved(s3) {
      assert Replies.SlotOk(s3, WriteSlot(g.id, w.token));
      match answer
      case Took(n) => OurSendTook(g, s2, st, sid, n);
      case Full =>
        assert s3 == g.s.(pendingWrites := s3.pendingWrites);
        QueuesQuiet(g.s, s3, s3, g.id);
        QuietAgrees(g, s3);
      case Rejected => OurSendRejected(g, s2, st, sid);
    }
  }

  /** A request that ended keeps what had been accepted. */
  lemma EndedAgrees(g: System, s1: State, s2: State)
    requires Agrees(g) && g.id !in s2.requests && Quiet(s1, s2, g.id)
    requires Up(s1, g.id) == Up(g.s, g.id) && Fin(s1, g.id) == Fin(g.s, g.id)
    requires s1.okReplies == g.s.okReplies && s1.received == g.s.received && s1.seen == g.s.seen
    ensures Agrees(g.(s := s2))
  {
    forall token ensures QuietSlot(g.s, s2, WriteSlot(g.id, token)) {
      assert QuietSlot(s1, s2, WriteSlot(g.id, token));
    }
    QuietAgrees(g, s2);
  }

  lemma DriveOneKeeps(g: System, a: Acceptance)
    requires Uploading(g) && g.s.pendingWrites != []
    ensures Uploading(g.(s := DriveOne(g.s, a)))
  {
    var s := g.s;
    Indexes.DriveOneKeeps(s, a);
    Replies.DriveKeeps(s, [a]);
    assert DrivePendingWrites(s, [a]) == DriveOne(s, a);
    if s.pendingWrites[0] != g.id {
      OtherDriveQuiet(s, a, g.id);
      QuietKeeps(g, DriveOne(s, a));
    } else {
      var s1 := s.(pendingWrites := s.pendingWrites[1..]);
      assert Indexes.IdOk(s, g.id);
      if g.id in s.requests && s.requests[g.id].stream.Some? && s.requests[g.id].write.Some? {
        var sid := s.requests[g.id].stream.value;
        var (rest, fin) := Unsent(s.requests[g.id].write.value);
        var (st, answer) := SendBody(s.streams[sid], rest, fin, a);
        OurSendKeeps(g, s1.(streams := s1.streams[sid := st]), st, sid, a);
      } else {
        QueuesQuiet(s, s1, s1, g.id);
        QuietKeeps(g, s1);
      }
    }
  }

  lemma {:induction false} DriveKeeps(g: System, answers: seq<Acceptance>)
    requires Uploading(g)
    ensures Uploading(g.(s := DrivePendingWrites(g.s, answers)))
    decreases |answers|
  {
    if answers != [] && g.s.pendingWrites != [] {
      DriveOneKeeps(g, answers[0]);
      DriveKeeps(g.(s := DriveOne(g.s, answers[0])), answers[1..]);
    }
  }

  lemma WarmQuiet(s: State, id: nat)
    requires id != WARMUP_REQUEST_ID
    ensures Quiet(s, Step(s, Warmed), id)
  {}

  lemma ConsumeQuiet(s: State, a: Action, id: nat)
    requires a.Consumed?
    ensures Quiet(s, Step(s, a), id)
  {}

  lemma WorkerKeeps(g: System, a: Action)
    requires Uploading(g) && StepAllowed(g, WorkerStep(a))
    ensures Uploading(g.(s := Step(g.s, a)))
  {
    Indexes.StepKeeps(g.s, a);
    Replies.StepKeeps(g.s, a);
    var s1 := Step(g.s, a);
    match a
    case Commanded(cmd) => CommandQuiet(g.s, cmd, g.id); QuietKeeps(g, s1);
    case Warmed => WarmQuiet(g.s, g.id); QuietKeeps(g, s1);
    case Dispatched(conn, openings) => if !g.s.draining { DispatchKeeps(g, conn, openings); }
    case Driven(answers) => DriveKeeps(g, answers);
    case Polled(script, events) =>
      Order.ProcessOnward(g.s, script, events);
      OnwardQuiet(g.s, s1, g.id);
      QuietKeeps(g, s1);
    case Consumed(_, _, _) => ConsumeQuiet(g.s, a, g.id); QuietKeeps(g, s1);
  }

  lemma SystemStepKeeps(g: System, step: SystemStep)
    requires Uploading(g) && StepAllowed(g, step)
    ensures Uploading(SystemNext(g, step))
  {
    match step
    case Called(call) => CallKeeps(g, call);
    case OpenAnswered => OpenAnsweredKeeps(g);
    case Handled => HandledKeeps(g);
    case Answered => AnsweredKeeps(g);
    case WorkerLost => WorkerLostKeeps(g);
    case WorkerStep(a) => WorkerKeeps(g, a);
  }

  lemma {:induction false} SystemRunKeeps(g: System, steps: seq<SystemStep>)
    requires Uploading(g) && SystemRunAllowed(g, steps)
    ensures Uploading(SystemRun(g, steps))
    decreases |steps|
  {
    if steps != [] {
      SystemStepKeeps(g, steps[0]);
      SystemRunKeeps(SystemNext(g, steps[0]), steps[1..]);
    }
  }

  /** The theorem.  At every point of every run, what quiche has accepted is a prefix of what
      the caller wrote; a call that returned has left less than one batch behind; fin means
      that everything was accepted, and a `finish` that returned means fin.  A body command
      that reaches a live request finds the stream open and no other write pending, so the
      worker's rejections cannot fire. */
  lemma UploadIsAPrefix(actions: seq<Action>, g: System, steps: seq<SystemStep>)
    requires RunAllowed(Start, actions) && g.s == Run(Start, actions)
    requires Begins(g) && SystemRunAllowed(g, steps)
    ensures var g1 := SystemRun(g, steps);
            var (s, w) := (g1.s, g1.w);
            && Up(s, g1.id) <= w.written
            && (w.phase.Idle? ==> w.written == Up(s, g1.id) + w.pending && |w.pending| < UPSTREAM_BODY_BATCH_THRESHOLD)
            && (Fin(s, g1.id) ==> w.finished && Up(s, g1.id) == w.written)
            && (w.phase.Idle? && w.finished ==> Fin(s, g1.id))
            && (g1.inbox.Some? && g1.inbox.value.Body? && g1.id in s.requests ==>
                  s.requests[g1.id].stream.Some? && s.requests[g1.id].write.None?)
  {
    Indexes.StartOk();
    Replies.StartConserved();
    Indexes.RunKeeps(Start, actions);
    Replies.RunKeeps(Start, actions);
    BeginsUploading(g);
    SystemRunKeeps(g, steps);
  }
}
