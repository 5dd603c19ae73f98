/**
  What the worker achieves when nothing stands in its way (src/upstream_h3.rs): waiting requests
  get their streams in order, queued writes complete, and a response reaches its reader whole.
 */
module UpstreamH3Progress {
  import opened Common
  import opened UpstreamH3
  import Indexes = UpstreamH3Indexes
  import Order = UpstreamH3Order
  import opened Effects = UpstreamH3Effects
  import opened Channels = UpstreamH3Delivery

  // ----- early data --------------------------------------------------------------------------

  /** A stream that is new in `s1` belongs to a request of `s` that might be opened. */
  ghost predicate Rightly(s: State, s1: State, conn: Conn, sid: nat) {
    sid in s1.streams && sid !in s.streams ==>
      s1.streams[sid].owner in s.requests && MayOpen(conn, s.requests[s1.streams[sid].owner])
  }

  ghost predicate SamePermission(s: State, s1: State, id: nat) {
    id in s1.requests ==> id in s.requests && s1.requests[id].allowEarlyData == s.requests[id].allowEarlyData
  }

  lemma DispatchOnePermits(s: State, conn: Conn, o: Opening)
    requires s.waiting != []
    ensures forall id :: SamePermission(s, DispatchOne(s, conn, o).0, id)
  {
  }

  /** A turn that opens no stream for want of a right to, or for another reason, adds none. */
  lemma OpensOrNot(s: State, conn: Conn, o: Opening)
    requires s.waiting != []
    ensures var s1 := DispatchOne(s, conn, o).0;
            if Opens(s, conn, o)
            then o.sid in s1.streams && s1.streams == s.streams[o.sid := s1.streams[o.sid]] && s1.streams[o.sid].owner == s.waiting[0]
            else s1.streams == s.streams
  {
  }

  lemma DispatchOneRightly(s: State, conn: Conn, o: Opening)
    requires s.waiting != []
    ensures forall sid :: Rightly(s, DispatchOne(s, conn, o).0, conn, sid)
  {
    OpensOrNot(s, conn, o);
  }

  /** While the handshake is under way only requests that allow early data get a stream, and
      none does unless the connection offers early data. */
  lemma {:induction false} EarlyDataIsRespected(s: State, conn: Conn, answers: seq<Opening>)
    requires DispatchAllowed(s, conn, answers)
    ensures forall sid :: Rightly(s, DispatchWaiting(s, conn, answers), conn, sid)
    decreases |answers|
  {
    if answers != [] && s.waiting != [] {
      var (s1, stop) := DispatchOne(s, conn, answers[0]);
      DispatchOneRightly(s, conn, answers[0]);
      DispatchOnePermits(s, conn, answers[0]);
      if !stop {
        var s2 := DispatchWaiting(s1, conn, answers[1..]);
        EarlyDataIsRespected(s1, conn, answers[1..]);
        Order.DispatchGrows(s1, conn, answers[1..]);
        forall sid ensures Rightly(s, s2, conn, sid) {
          assert Rightly(s, s1, conn, sid) && Rightly(s1, s2, conn, sid) && Order.SidGrows(s1, s2, sid);
          if sid in s2.streams { assert SamePermission(s, s1, s2.streams[sid].owner); }
        }
      }
    }
  }

  // ----- everyone gets a stream ----------------------------------------------------------------

  ghost predicate AllOpened(answers: seq<Opening>) {
    forall i :: 0 <= i < |answers| ==> answers[i].Opened?
  }

  /** The request at place `i` of the queue has got the stream of answer `i`. */
  ghost predicate GotStream(s: State, s1: State, answers: seq<Opening>, i: nat)
    requires i < |s.waiting| == |answers| && answers[i].Opened?
  {
    var id := s.waiting[i];
    id in s.requests && s.requests[id].stream.None? ==>
      id in s1.requests && s1.requests[id].stream == Some(answers[i].sid)
  }

  ghost predicate KeepsStream(s: State, s1: State, id: nat) {
    id in s.requests && s.requests[id].stream.Some? ==>
      id in s1.requests && s1.requests[id].stream == s.requests[id].stream
  }

  lemma OpenFront(s: State, conn: Conn, o: Opening)
    requires s.waiting != [] && conn.established && o.Opened?
    ensures var (s1, stop) := DispatchOne(s, conn, o);
            && !stop && s1.waiting == s.waiting[1..]
            && (forall id :: KeepsStream(s, s1, id))
            && (var id := s.waiting[0];
                id in s.requests && s.requests[id].stream.None? ==>
                  id in s1.requests && s1.requests[id].stream == Some(o.sid))
            && (forall id :: id in s.requests && id != s.waiting[0] ==> id in s1.requests && s1.requests[id] == s.requests[id])
  {
  }

  lemma FrontIsOnce(s: State, i: nat)
    requires Indexes.Inv(s) && 0 < i < |s.waiting| && s.waiting[i] in s.requests && s.requests[s.waiting[i]].stream.None?
    ensures s.waiting[i] != s.waiting[0]
  {
    assert Indexes.IdOk(s, s.waiting[i]);
    Indexes.PopTimes(s.waiting);
    assert s.waiting[1..][i - 1] == s.waiting[i];
  }

  /** On an established connection that has credit, one pass gives every waiting request its
      stream, in the order of the queue, and empties the queue. */
  lemma {:induction false} EveryoneGetsAStream(s: State, conn: Conn, answers: seq<Opening>)
    requires Indexes.Inv(s) && conn.established && AllOpened(answers) && |answers| == |s.waiting|
    requires DispatchAllowed(s, conn, answers)
    ensures var s1 := DispatchWaiting(s, conn, answers);
            && s1.waiting == []
            && (forall i :: 0 <= i < |answers| ==> GotStream(s, s1, answers, i))
            && (forall id :: KeepsStream(s, s1, id))
    decreases |answers|
  {
    if answers != [] {
      var o, rest := answers[0], answers[1..];
      var (s1, stop) := DispatchOne(s, conn, o);
      OpenFront(s, conn, o);
      Indexes.DispatchOneKeeps(s, conn, o);
      EveryoneGetsAStream(s1, conn, rest);
      var s2 := DispatchWaiting(s1, conn, rest);
      forall id ensures KeepsStream(s, s2, id) { assert KeepsStream(s, s1, id) && KeepsStream(s1, s2, id); }
      forall i | 0 <= i < |answers| ensures GotStream(s, s2, answers, i) {
        var id := s.waiting[i];
        if id in s.requests && s.requests[id].stream.None? {
          if i == 0 {
            assert KeepsStream(s1, s2, id);
          } else {
            FrontIsOnce(s, i);
            assert GotStream(s1, s2, rest, i - 1);
          }
        }
      }
    }
  }

  // ----- writes complete -----------------------------------------------------------------------

  /** What is still to be sent for the request, and the stream it goes to. */
  function Rest(s: State, id: nat): seq<byte> {
    if id in s.requests && s.requests[id].write.Some? then Unsent(s.requests[id].write.value).0 else []
  }

  predicate Writes(s: State, id: nat) {
    && id in s.requests && s.requests[id].write.Some? && s.requests[id].stream.Some?
    && s.requests[id].stream.value in s.streams && !s.streams[s.requests[id].stream.value].fin
  }

  /** The stream has taken what was left, the fin with it, and the write was answered well. */
  ghost predicate Done(s: State, s1: State, id: nat) {
    Writes(s, id) ==>
      var r := s.requests[id];
      var sid := r.stream.value;
      && WriteSlot(id, r.write.value.token) in s1.okReplies
      && sid in s1.streams && s.streams[sid].up + Rest(s, id) <= s1.streams[sid].up
      && (Unsent(r.write.value).1 ==> s1.streams[sid].fin && s1.streams[sid].up == s.streams[sid].up + Rest(s, id))
  }

  /** quiche takes the whole of every queued write. */
  ghost predicate Ample(s: State, answers: seq<Acceptance>) {
    |answers| == |s.pendingWrites| && forall i :: 0 <= i < |answers| ==> Enough(s, s.pendingWrites[i], answers[i])
  }

  predicate Enough(s: State, id: nat, a: Acceptance) {
    a.Took? && a.n >= |Rest(s, id)|
  }

  lemma FrontCompletes(s: State, n: nat)
    requires s.pendingWrites != [] && Writes(s, s.pendingWrites[0]) && n >= |Rest(s, s.pendingWrites[0])|
    ensures var s1 := DriveOne(s, Took(n));
            var id := s.pendingWrites[0];
            && Done(s, s1, id) && s1.pendingWrites == s.pendingWrites[1..]
            && s1.requests == s.requests[id := s.requests[id].(write := None)]
            && s1.streams == s.streams[s.requests[id].stream.value := s1.streams[s.requests[id].stream.value]]
  {
    DriveOneTells(s, Took(n));
    var rest := Rest(s, s.pendingWrites[0]);
    assert rest[..|rest|] == rest;
    DriveOneIs(s, Took(n));
  }

  /** Another request's write, and the stream it goes to, are as they were. */
  ghost predicate Undisturbed(s: State, s1: State, id: nat) {
    Writes(s, id) ==>
      && id in s1.requests && s1.requests[id] == s.requests[id]
      && s.requests[id].stream.value in s1.streams
      && s1.streams[s.requests[id].stream.value] == s.streams[s.requests[id].stream.value]
  }

  lemma FrontDisturbsNoOther(s: State, a: Acceptance, id: nat)
    requires Indexes.Inv(s) && s.pendingWrites != [] && id != s.pendingWrites[0] && Enough(s, s.pendingWrites[0], a)
    requires Serves(s) ==> Writes(s, s.pendingWrites[0])
    ensures Undisturbed(s, DriveOne(s, a), id) && DriveOne(s, a).pendingWrites == s.pendingWrites[1..]
  {
    assert Indexes.IdOk(s, id) && Indexes.IdOk(s, s.pendingWrites[0]);
    DriveOneIs(s, a);
    if Writes(s, s.pendingWrites[0]) { FrontCompletes(s, a.n); }
  }

  lemma WriterIsOnce(s: State, i: nat)
    requires Indexes.Inv(s) && 0 < i < |s.pendingWrites| && Writes(s, s.pendingWrites[i])
    ensures s.pendingWrites[i] != s.pendingWrites[0]
  {
    assert Indexes.IdOk(s, s.pendingWrites[i]);
    Indexes.PopTimes(s.pendingWrites);
    assert s.pendingWrites[1..][i - 1] == s.pendingWrites[i];
  }

  lemma DoneStays(s: State, s1: State, s2: State, id: nat, answers: seq<Acceptance>)
    requires Done(s, s1, id) && s2 == DrivePendingWrites(s1, answers)
    ensures Done(s, s2, id)
  {
    DriveTells(s1, answers);
    Order.DriveGrows(s1, answers);
    if Writes(s, id) { assert Order.SidGrows(s1, s2, s.requests[id].stream.value); }
  }

  /** No queued write goes to a stream whose side is closed. */
  ghost predicate OpenSides(s: State) {
    forall id :: id in s.requests && s.requests[id].write.Some? ==> Writes(s, id)
  }

  lemma FrontKeepsRest(s: State, a: Acceptance)
    requires Indexes.Inv(s) && s.pendingWrites != [] && Enough(s, s.pendingWrites[0], a) && OpenSides(s)
    ensures OpenSides(DriveOne(s, a)) && DriveOne(s, a).pendingWrites == s.pendingWrites[1..]
    ensures Done(s, DriveOne(s, a), s.pendingWrites[0])
    ensures forall id :: |Rest(DriveOne(s, a), id)| <= |Rest(s, id)|
    ensures forall id :: id != s.pendingWrites[0] ==> Undisturbed(s, DriveOne(s, a), id)
  {
    var s1 := DriveOne(s, a);
    DriveOneIs(s, a);
    if Writes(s, s.pendingWrites[0]) { FrontCompletes(s, a.n); }
    forall id | id != s.pendingWrites[0] ensures Undisturbed(s, s1, id) { FrontDisturbsNoOther(s, a, id); }
    forall id | id in s1.requests && s1.requests[id].write.Some? ensures Writes(s1, id) {
      assert Undisturbed(s, s1, id) || id == s.pendingWrites[0];
    }
  }

  /** When quiche takes everything, one pass completes every queued write and empties the queue. */
  lemma {:induction false} EveryWriteCompletes(s: State, answers: seq<Acceptance>)
    requires Indexes.Inv(s) && OpenSides(s) && Ample(s, answers)
    ensures var s1 := DrivePendingWrites(s, answers);
            s1.pendingWrites == [] && forall i :: 0 <= i < |answers| ==> Done(s, s1, s.pendingWrites[i])
    decreases |answers|
  {
    if answers != [] {
      var a, rest := answers[0], answers[1..];
      var s1 := DriveOne(s, a);
      assert Enough(s, s.pendingWrites[0], a);
      FrontKeepsRest(s, a);
      Indexes.DriveOneKeeps(s, a);
      forall i | 0 <= i < |rest| ensures Enough(s1, s1.pendingWrites[i], rest[i]) {
        assert Enough(s, s.pendingWrites[i + 1], answers[i + 1]);
      }
      EveryWriteCompletes(s1, rest);
      var s2 := DrivePendingWrites(s1, rest);
      forall i | 0 <= i < |answers| ensures Done(s, s2, s.pendingWrites[i]) {
        if i == 0 {
          DoneStays(s, s1, s2, s.pendingWrites[0], rest);
        } else if Writes(s, s.pendingWrites[i]) {
          WriterIsOnce(s, i);
          assert Undisturbed(s, s1, s.pendingWrites[i]);
          assert Done(s1, s2, s1.pendingWrites[i - 1]);
        }
      }
    }
  }

  // ----- a response arrives --------------------------------------------------------------------

  /** The consumer keeps up and quiche has something whenever there is something. */
  predicate Keen(t: Turn) {
    !t.closes && t.takes >= MAX_BODY_FRAMES && t.recv.Read? && t.recv.n >= 1
  }

  ghost predicate AllKeen(script: seq<Turn>) {
    forall i :: 0 <= i < |script| ==> Keen(script[i])
  }

  /** The channel is open and what it holds fits it. */
  predicate Receptive(s: State, id: nat) {
    id in s.channels && s.channels[id].receiverOpen && Bounded(s.channels[id])
  }

  predicate Read(s: State, id: nat, sid: nat) {
    && Receptive(s, id) && s.channels[id].taken == |s.channels[id].sent|
    && sid in s.streams && s.streams[sid].pos == |s.streams[sid].body|
  }

  /** Draining with a keen consumer reads the stream to its end. */
  lemma {:induction false} DrainReadsAll(s: State, id: nat, sid: nat, script: seq<Turn>)
    requires Receptive(s, id) && sid in s.streams && s.streams[sid].pos <= |s.streams[sid].body| && AllKeen(script)
    requires |script| > |s.streams[sid].body| - s.streams[sid].pos
    ensures DrainLoop(s, id, sid, script).1 == Ready && Read(DrainLoop(s, id, sid, script).0, id, sid)
    decreases |script|
  {
    var turn := script[0];
    assert Keen(turn);
    var s1 := s.(channels := s.channels[id := Consume(s.channels[id], turn.takes, turn.closes)]);
    if Available(s1.streams[sid], turn.recv.n) != 0 {
      DrainReadsAll(DrainOne(s1, id, sid, turn.recv.n), id, sid, script[1..]);
    }
  }

  /** A live request that is served by stream `sid`. */
  predicate Live(s: State, id: nat, sid: nat) {
    && id != WARMUP_REQUEST_ID && id in s.requests && s.requests[id].stream == Some(sid) && !s.requests[id].discard
    && sid in s.streamToRequest && s.streamToRequest[sid] == id && sid in s.streams && Receptive(s, id)
  }

  const HEAD := HeadersEvent(true, false, 0, true)

  lemma HeadArrives(s: State, id: nat, sid: nat)
    requires Live(s, id, sid) && !s.requests[id].started && s.requests[id].bodyRx && s.requests[id].responseTx
    ensures var s1 := HandleEvent(s, OnStream(sid, HEAD));
            && Live(s1, id, sid) && s1.requests[id].started && s1.streams == s.streams
            && (Paused(s1) <==> Paused(s)) && ResponseSlot(id) in s1.okReplies
  {
  }

  lemma DataArrives(s: State, id: nat, sid: nat, script: seq<Turn>)
    requires Live(s, id, sid) && s.streams[sid].pos <= |s.streams[sid].body| && AllKeen(script)
    requires |script| > |s.streams[sid].body| - s.streams[sid].pos
    ensures var s1 := HandleEvent(s, OnStream(sid, DataEvent(script)));
            && Live(s1, id, sid) && Read(s1, id, sid) && s1.requests == s.requests && s1.okReplies == s.okReplies
            && (Paused(s1) <==> Paused(s)) && s1.streams[sid] == s.streams[sid].(pos := |s.streams[sid].body|)
  {
    DrainReadsAll(s, id, sid, script);
    Indexes.DrainLoopFrame(s, id, sid, script);
  }

  lemma TrailersArrive(s: State, id: nat, sid: nat, block: nat)
    requires Live(s, id, sid) && Read(s, id, sid) && s.requests[id].started
    ensures var s1 := HandleEvent(s, OnStream(sid, HeadersEvent(true, false, block, true)));
            && Live(s1, id, sid) && s1.requests == s.requests && s1.okReplies == s.okReplies
            && (Paused(s1) <==> Paused(s)) && s1.streams[sid] == s.streams[sid].(trailersRead := true)
            && s1.channels[id].sent == s.channels[id].sent + [Trailers(block)]
  {
  }

  lemma FinishArrives(s: State, id: nat, sid: nat)
    requires Live(s, id, sid) && s.requests[id].started
    ensures var s1 := HandleEvent(s, OnStream(sid, FinishedEvent));
            && id !in s1.requests && id in s1.channels && s1.channels[id] == s.channels[id].(finished := true)
            && s1.streams == s.streams && s1.okReplies == s.okReplies
  {
  }

  /** The events of a whole response on stream `sid`. */
  function Response(sid: nat, script: seq<Turn>, trailers: Option<nat>): seq<Event> {
    [OnStream(sid, HEAD), OnStream(sid, DataEvent(script))]
    + (if trailers.Some? then [OnStream(sid, HeadersEvent(true, false, trailers.value, true))] else [])
    + [OnStream(sid, FinishedEvent)]
  }

  lemma PollOne(s: State, e: Event, rest: seq<Event>)
    requires !Paused(s)
    ensures PollEvents(s, [e] + rest) == PollEvents(HandleEvent(s, e), rest)
  {
    assert ([e] + rest)[1..] == rest;
  }

  /** A request whose response is about to come: nothing of it has been read yet. */
  ghost predicate Awaits(s: State, id: nat, sid: nat) {
    && Indexes.Inv(s) && AllFaithful(s) && !Paused(s) && Live(s, id, sid) && !s.requests[id].started
    && s.channels[id].stream == Some(sid) && s.streams[sid].pos <= |s.streams[sid].body| && !s.streams[sid].trailersRead
  }

  ghost predicate Whole(s: State, id: nat, st: Stream) {
    && id !in s.requests && id in s.channels && s.channels[id].finished && Complete(s.channels[id], st)
    && ResponseSlot(id) in s.okReplies
  }

  /** One event, with the invariants it keeps. */
  lemma EventKeepsBoth(s: State, e: Event)
    requires Indexes.Inv(s) && AllFaithful(s) && !Paused(s) && EventAllowed(s, e)
    ensures Indexes.Inv(HandleEvent(s, e)) && AllFaithful(HandleEvent(s, e))
  {
    Indexes.EventKeeps(s, e);
    EventFaithful(s, e);
  }

  lemma HeadAndData(s: State, id: nat, sid: nat, script: seq<Turn>, rest: seq<Event>) returns (s2: State)
    requires Awaits(s, id, sid) && AllKeen(script) && |script| > |s.streams[sid].body| - s.streams[sid].pos
    ensures PollEvents(s, [OnStream(sid, HEAD), OnStream(sid, DataEvent(script))] + rest) == PollEvents(s2, rest)
    ensures Indexes.Inv(s2) && AllFaithful(s2) && !Paused(s2) && Live(s2, id, sid) && Read(s2, id, sid)
    ensures s2.requests[id].started && ResponseSlot(id) in s2.okReplies
    ensures s2.streams[sid] == s.streams[sid].(pos := |s.streams[sid].body|)
  {
    var e1, e2 := OnStream(sid, HEAD), OnStream(sid, DataEvent(script));
    assert Indexes.IdOk(s, id);
    HeadArrives(s, id, sid);
    EventKeepsBoth(s, e1);
    var s1 := HandleEvent(s, e1);
    DataArrives(s1, id, sid, script);
    EventKeepsBoth(s1, e2);
    s2 := HandleEvent(s1, e2);
    assert [e1, e2] + rest == [e1] + ([e2] + rest);
    PollOne(s, e1, [e2] + rest);
    PollOne(s1, e2, rest);
  }

  lemma FinishesWhole(s: State, id: nat, sid: nat)
    requires Indexes.Inv(s) && AllFaithful(s) && !Paused(s) && Live(s, id, sid) && s.requests[id].started
    requires s.streams[sid].pos == |s.streams[sid].body| && (s.streams[sid].trailers.Some? ==> s.streams[sid].trailersRead)
    requires ResponseSlot(id) in s.okReplies
    ensures Whole(PollEvents(s, [OnStream(sid, FinishedEvent)]), id, s.streams[sid])
  {
    var e := OnStream(sid, FinishedEvent);
    assert Indexes.IdOk(s, id);
    FinishArrives(s, id, sid);
    EventKeepsBoth(s, e);
    PollOne(s, e, []);
    assert [e] + [] == [e];
    assert Faithful(HandleEvent(s, e), id);
  }

  /** A response whose head, data, trailers and end are reported, with a consumer that keeps up,
      is carried whole and answered well. */
  lemma ResponseArrives(s: State, id: nat, sid: nat, script: seq<Turn>)
    requires Awaits(s, id, sid) && AllKeen(script) && |script| > |s.streams[sid].body| - s.streams[sid].pos
    ensures Whole(PollEvents(s, Response(sid, script, s.streams[sid].trailers)), id, s.streams[sid])
  {
    var st := s.streams[sid];
    var last := [OnStream(sid, FinishedEvent)];
    var first := [OnStream(sid, HEAD), OnStream(sid, DataEvent(script))];
    match st.trailers
    case None =>
      var s2 := HeadAndData(s, id, sid, script, last);
      assert Response(sid, script, st.trailers) == first + last;
      FinishesWhole(s2, id, sid);
    case Some(block) =>
      var e := OnStream(sid, HeadersEvent(true, false, block, true));
      var s2 := HeadAndData(s, id, sid, script, [e] + last);
      assert Response(sid, script, st.trailers) == first + ([e] + last);
      PollOne(s2, e, last);
      TrailersArrive(s2, id, sid, block);
      EventKeepsBoth(s2, e);
      FinishesWhole(HandleEvent(s2, e), id, sid);
  }

  /** A delivery that found its channel full is made up for as soon as there is room: parked
      trailers go in, or the drain goes on to the end of the data. */
  lemma BlockedDeliveryResumes(s: State, id: nat, sid: nat, script: seq<Turn>)
    requires Live(s, id, sid) && s.responseBlocked == Some(id) && |s.channels[id].sent| - s.channels[id].taken < MAX_BODY_FRAMES
    requires s.streams[sid].pos <= |s.streams[sid].body| && AllKeen(script)
    requires |script| > |s.streams[sid].body| - s.streams[sid].pos
    ensures var s1 := RetryBlocked(s, script);
            && s1.responseBlocked == None && s1.error == s.error && id in s1.requests && s1.requests[id].pendingResponse == None
            && match s.requests[id].pendingResponse
               case Some(item) => s1.channels[id].sent == s.channels[id].sent + [item]
               case None => Read(s1, id, sid)
  {
    if s.requests[id].pendingResponse.None? {
      var s0 := s.(responseBlocked := None);
      DrainReadsAll(s0, id, sid, script);
      Indexes.DrainLoopFrame(s0, id, sid, script);
    }
  }

  // ----- the warm-up ------------------------------------------------------------------------------

  const WARMUP := WARMUP_REQUEST_ID

  /** A warm-up waits behind the others and gets its stream like them. */
  lemma WarmupGetsAStream(s: State, conn: Conn, answers: seq<Opening>)
    requires Indexes.Inv(s) && Allowed(s, Warmed) && conn.established
    requires AllOpened(answers) && |answers| == |s.waiting| + 1 && DispatchAllowed(EnqueueWarmup(s), conn, answers)
    ensures var s1 := DispatchWaiting(EnqueueWarmup(s), conn, answers);
            WARMUP in s1.requests && s1.requests[WARMUP].stream == Some(answers[|s.waiting|].sid)
  {
    assert Indexes.IdOk(s, WARMUP);
    Indexes.WarmupKeeps(s);
    var w := EnqueueWarmup(s);
    EveryoneGetsAStream(w, conn, answers);
    assert GotStream(w, DispatchWaiting(w, conn, answers), answers, |s.waiting|);
  }

  /** The warm-up is being served by stream `sid`; nobody reads its channel. */
  predicate Warming(s: State, sid: nat) {
    && WARMUP in s.requests && s.requests[WARMUP].stream == Some(sid)
    && s.requests[WARMUP].discard && HeldSlots(WARMUP, s.requests[WARMUP]) == multiset{}
    && sid in s.streamToRequest && s.streamToRequest[sid] == WARMUP && sid in s.streams
    && WARMUP in s.channels && !s.channels[WARMUP].receiverOpen && !Paused(s)
  }

  ghost predicate NothingTold(s: State, s1: State) {
    && s1.okReplies == s.okReplies && s1.errReplies == s.errReplies && s1.channels.Keys == s.channels.Keys
    && (forall id :: id in s.channels && id in s1.channels ==> s1.channels[id].sent == s.channels[id].sent)
  }

  lemma WarmupHead(s: State, sid: nat)
    requires Warming(s, sid) && !s.requests[WARMUP].started
    ensures var s1 := HandleEvent(s, OnStream(sid, HEAD));
            Warming(s1, sid) && s1.requests[WARMUP] == s.requests[WARMUP].(started := true) && NothingTold(s, s1)
  {
  }

  lemma WarmupData(s: State, sid: nat, turn: Turn)
    requires Warming(s, sid) && turn.recv.Read?
    ensures var s1 := HandleEvent(s, OnStream(sid, DataEvent([turn])));
            Warming(s1, sid) && s1.requests == s.requests && NothingTold(s, s1)
  {
  }

  lemma WarmupEnds(s: State, sid: nat, last: StreamEvent)
    requires Warming(s, sid) && s.requests[WARMUP].started
    requires last.FinishedEvent? || (last.HeadersEvent? && last.valid)
    ensures var s1 := HandleEvent(s, OnStream(sid, last)); WARMUP !in s1.requests && !Paused(s1) && NothingTold(s, s1)
  {
    if last.HeadersEvent? {
      var s0 := s.(streams := s.streams[sid := s.streams[sid].(trailersRead := true)]);
      assert Accepts(s.channels[WARMUP]) == Closed;
      assert HandleEvent(s, OnStream(sid, last)) == CancelRequest(s0, WARMUP);
    }
  }

  /** The answer to a warm-up is taken and thrown away, and its end or its trailers end it: no
      frame is sent to anybody and nothing is answered. */
  lemma WarmupPasses(s: State, sid: nat, turn: Turn, last: StreamEvent)
    requires Indexes.Inv(s) && !Paused(s) && turn.recv.Read?
    requires WARMUP in s.requests && s.requests[WARMUP].stream == Some(sid) && !s.requests[WARMUP].started
    requires last.FinishedEvent? || (last.HeadersEvent? && last.valid)
    ensures var s1 := PollEvents(s, [OnStream(sid, HEAD), OnStream(sid, DataEvent([turn])), OnStream(sid, last)]);
            WARMUP !in s1.requests && !Paused(s1) && NothingTold(s, s1)
  {
    var e1, e2, e3 := OnStream(sid, HEAD), OnStream(sid, DataEvent([turn])), OnStream(sid, last);
    assert Indexes.IdOk(s, WARMUP) && Indexes.SidOk(s, sid);
    WarmupHead(s, sid);
    var s1 := HandleEvent(s, e1);
    WarmupData(s1, sid, turn);
    var s2 := HandleEvent(s1, e2);
    WarmupEnds(s2, sid, last);
    assert [e1, e2, e3] == [e1] + ([e2] + ([e3] + []));
    PollOne(s, e1, [e2] + ([e3] + []));
    PollOne(s1, e2, [e3] + []);
    PollOne(s2, e3, []);
  }
}
