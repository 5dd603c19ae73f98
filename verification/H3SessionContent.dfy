/**
  What a downstream HTTP/3 session puts on and takes off the wire is what its caller and its peer
  gave it (src/h3_session.rs): the frames carry the given head, bytes and trailers, and reads
  return the request body in order.
 */
module H3SessionContent {
  import opened Common
  import opened H3Session
  import opened H3SessionTrace

  // ----- the response ------------------------------------------------------------------------------------

  /** Heads, body bytes and trailers, each in order. */
  datatype Content = Content(heads: seq<Block>, bytes: seq<byte>, trailers: seq<Block>)

  const Nothing := Content([], [], [])

  function Join(a: Content, b: Content): Content {
    Content(a.heads + b.heads, a.bytes + b.bytes, a.trailers + b.trailers)
  }

  function OfFrame(f: Frame): Content {
    match f
    case Head(block) => Content([block], [], [])
    case Trailers(block) => Content([], [], [block])
    case Data(bytes, _) => Content([], bytes, [])
  }

  /** What a list of frames carries. */
  function Of(frames: seq<Frame>): Content {
    if frames == [] then Nothing else Join(Of(frames[..|frames| - 1]), OfFrame(frames[|frames| - 1]))
  }

  lemma OfSnoc(frames: seq<Frame>, f: Frame)
    ensures Of(frames + [f]) == Join(Of(frames), OfFrame(f))
  {
    assert (frames + [f])[..|frames|] == frames;
  }

  lemma JoinNothing(a: Content)
    ensures Join(a, Nothing) == a && Join(Nothing, a) == a
  {
    assert a.heads + [] == a.heads && a.bytes + [] == a.bytes && a.trailers + [] == a.trailers;
    assert [] + a.heads == a.heads && [] + a.bytes == a.bytes && [] + a.trailers == a.trailers;
  }

  lemma JoinAssociates(a: Content, b: Content, c: Content)
    ensures Join(Join(a, b), c) == Join(a, Join(b, c))
  {
    assert (a.heads + b.heads) + c.heads == a.heads + (b.heads + c.heads);
    assert (a.bytes + b.bytes) + c.bytes == a.bytes + (b.bytes + c.bytes);
    assert (a.trailers + b.trailers) + c.trailers == a.trailers + (b.trailers + c.trailers);
  }

  predicate TravelsOn(f: Field) {
    f.name != "connection" && f.name != "transfer-encoding" && f.name != "upgrade" && f.name != "trailer"
    && f.name != "keep-alive" && f.name != "proxy-connection"
  }

  function Those(fields: Block, keep: Field -> bool): Block {
    if fields == [] then [] else (if keep(fields[0]) then [fields[0]] else []) + Those(fields[1..], keep)
  }

  lemma {:induction false} ThoseSnoc(fields: Block, f: Field, keep: Field -> bool)
    ensures Those(fields + [f], keep) == Those(fields, keep) + if keep(f) then [f] else []
    decreases |fields|
  {
    if fields == [] {
      assert fields + [f] == [f] && [f][1..] == [];
    } else {
      var (first, last) := (if keep(fields[0]) then [fields[0]] else [], if keep(f) then [f] else []);
      ThoseSnoc(fields[1..], f, keep);
      assert (fields + [f])[0] == fields[0] && (fields + [f])[1..] == fields[1..] + [f];
      assert Those(fields + [f], keep) == first + Those(fields[1..] + [f], keep);
      assert first + (Those(fields[1..], keep) + last) == (first + Those(fields[1..], keep)) + last;
    }
  }

  /** The fields that are not hop-by-hop, in order. */
  function Filtered(fields: Block): Block {
    Those(fields, TravelsOn)
  }

  lemma TravelsExactly(f: Field)
    ensures TravelsOn(f) <==> !HopByHop(f.name)
  {
  }

  lemma {:induction false} EndToEndIsFiltered(trailers: Block)
    ensures EndToEnd(trailers) == Filtered(trailers)
    decreases |trailers|
  {
    if trailers != [] {
      var last := |trailers| - 1;
      EndToEndIsFiltered(trailers[..last]);
      ThoseSnoc(trailers[..last], trailers[last], TravelsOn);
      TravelsExactly(trailers[last]);
      assert trailers[..last] + [trailers[last]] == trailers;
    }
  }

  /** The response is open and its head has been sent. */
  predicate Flowing(o: Out) {
    !o.ended && o.written
  }

  /** The block of a header call that finds no head sent, if the response is open. */
  function GivenHead(o: Out, block: Block, informational: bool, sent: bool): Content {
    if !o.ended && !o.written && !informational && sent then Content([block], [], []) else Nothing
  }

  /** The bytes of a body call that finds the head sent. */
  function GivenBytes(o: Out, data: seq<byte>, sent: bool): Content {
    if Flowing(o) && sent then Content([], data, []) else Nothing
  }

  /** The fields of a trailers call that finds the head sent, without the hop-by-hop ones. */
  function GivenTrailers(o: Out, fields: Block, sent: bool): Content {
    if Flowing(o) && sent && fields != [] then Content([], [], [fields]) else Nothing
  }

  function GivenTask(o: Out, t: Task): Content {
    match t
    case HeaderTask(block, informational, _, sent, _) => GivenHead(o, block, informational, sent)
    case BodyTask(data, _, sent) => if data.Some? then GivenBytes(o, data.value, sent) else Nothing
    case TrailerTask(trailers, sent, _) =>
      if trailers.Some? then GivenTrailers(o, Filtered(trailers.value), sent) else Nothing
    case _ => Nothing
  }

  /** Tasks give until one of them fails. */
  function GivenTasks(o: Out, tasks: seq<Task>): Content {
    if tasks == [] then Nothing
    else
      var last := |tasks| - 1;
      var (o1, r) := ApplyAll(o, tasks[..last]);
      Join(GivenTasks(o, tasks[..last]), if r.Ok? then GivenTask(o1, tasks[last]) else Nothing)
  }

  function Given(o: Out, c: Call): Content {
    match c
    case DoHeaders(block, informational, _, sent, _) => GivenHead(o, block, informational, sent)
    case DoBody(data, _, sent) => GivenBytes(o, data, sent)
    case DoTrailers(trailers, sent, _) => GivenTrailers(o, Filtered(trailers), sent)
    case DoDuplex(tasks, _) => GivenTasks(o, tasks)
    case _ => Nothing
  }

  function AllGiven(o: Out, calls: seq<Call>): Content {
    if calls == [] then Nothing
    else var last := |calls| - 1; Join(AllGiven(o, calls[..last]), Given(Run(o, calls[..last]), calls[last]))
  }

  lemma FinGivesNothing(o: Out, sent: bool)
    ensures Of(Send(o, FIN, sent).frames) == Of(o.frames)
  {
    if sent {
      OfSnoc(o.frames, FIN);
      JoinNothing(Of(o.frames));
    }
  }

  lemma FinishGivesNothing(o: Out, sent: bool)
    ensures Of(Finish(o, sent).0.frames) == Of(o.frames) && Of(Shutdown(o, sent).frames) == Of(o.frames)
  {
    FinGivesNothing(o, true);
    FinGivesNothing(o, sent);
  }

  lemma HeadersGive(o: Out, block: Block, informational: bool, end: bool, sent: bool, finSent: bool)
    ensures Of(SendHeaders(o, block, informational, end, sent, finSent).0.frames)
            == Join(Of(o.frames), GivenHead(o, block, informational, sent))
  {
    JoinNothing(Of(o.frames));
    OfSnoc(o.frames, Head(block));
    FinGivesNothing(Send(o, Head(block), true).(written := true, ended := end), finSent);
  }

  lemma BodyGives(o: Out, data: seq<byte>, end: bool, sent: bool)
    ensures Of(SendBody(o, data, end, sent).0.frames) == Join(Of(o.frames), GivenBytes(o, data, sent))
  {
    JoinNothing(Of(o.frames));
    OfSnoc(o.frames, Data(data, end));
  }

  lemma TrailersGive(o: Out, trailers: Block, sent: bool, finSent: bool)
    ensures Of(WriteTrailers(o, trailers, sent, finSent).0.frames)
            == Join(Of(o.frames), GivenTrailers(o, Filtered(trailers), sent))
  {
    EndToEndIsFiltered(trailers);
    FieldsGive(o, trailers, EndToEnd(trailers), sent, finSent);
  }

  lemma FieldsGive(o: Out, trailers: Block, fields: Block, sent: bool, finSent: bool)
    requires fields == EndToEnd(trailers)
    ensures Of(WriteTrailers(o, trailers, sent, finSent).0.frames) == Join(Of(o.frames), GivenTrailers(o, fields, sent))
  {
    JoinNothing(Of(o.frames));
    OfSnoc(o.frames, Trailers(fields));
    FinGivesNothing(o, true);
    FinGivesNothing(Send(o, Trailers(fields), true), true);
  }

  lemma TaskGives(o: Out, t: Task)
    ensures Of(ApplyTask(o, t).0.frames) == Join(Of(o.frames), GivenTask(o, t))
  {
    JoinNothing(Of(o.frames));
    match t
    case HeaderTask(block, informational, end, sent, finSent) => HeadersGive(o, block, informational, end, sent, finSent);
    case BodyTask(data, end, sent) =>
      BodyGives(o, [], true, sent);
      if data.Some? { BodyGives(o, data.value, end, sent); }
    case TrailerTask(trailers, sent, finSent) => if trailers.Some? { TrailersGive(o, trailers.value, sent, finSent); }
    case _ =>
  }

  lemma {:induction false} TasksGive(o: Out, tasks: seq<Task>)
    ensures Of(ApplyAll(o, tasks).0.frames) == Join(Of(o.frames), GivenTasks(o, tasks))
    decreases |tasks|
  {
    JoinNothing(Of(o.frames));
    if tasks != [] {
      var last := |tasks| - 1;
      var (o1, r) := ApplyAll(o, tasks[..last]);
      TasksGive(o, tasks[..last]);
      JoinNothing(GivenTasks(o, tasks[..last]));
      if r.Ok? {
        TaskGives(o1, tasks[last]);
        JoinAssociates(Of(o.frames), GivenTasks(o, tasks[..last]), GivenTask(o1, tasks[last]));
      }
    }
  }

  lemma StepGives(o: Out, c: Call)
    ensures Of(H3SessionTrace.Step(o, c).frames) == Join(Of(o.frames), Given(o, c))
  {
    JoinNothing(Of(o.frames));
    match c
    case DoHeaders(block, informational, end, sent, finSent) => HeadersGive(o, block, informational, end, sent, finSent);
    case DoBody(data, end, sent) => BodyGives(o, data, end, sent);
    case DoTrailers(trailers, sent, finSent) => TrailersGive(o, trailers, sent, finSent);
    case DoFinish(sent) => FinishGivesNothing(o, sent);
    case DoShutdown(sent) => FinishGivesNothing(o, sent);
    case DoDuplex(tasks, finSent) =>
      TasksGive(o, tasks);
      FinishGivesNothing(ApplyAll(o, tasks).0, finSent);
  }

  lemma {:induction false} RunGives(o: Out, calls: seq<Call>)
    ensures Of(H3SessionTrace.Run(o, calls).frames) == Join(Of(o.frames), AllGiven(o, calls))
    decreases |calls|
  {
    JoinNothing(Of(o.frames));
    if calls != [] {
      var last := |calls| - 1;
      RunGives(o, calls[..last]);
      var o1 := H3SessionTrace.Run(o, calls[..last]);
      StepGives(o1, calls[last]);
      JoinAssociates(Of(o.frames), AllGiven(o, calls[..last]), Given(o1, calls[last]));
    }
  }

  /** For every call sequence, whatever sends fail: the frames carry exactly the head, the bytes
      and the end-to-end trailer fields of the calls that gave them, in call order. */
  lemma FramesCarryWhatWasGiven(calls: seq<Call>)
    ensures Of(H3SessionTrace.Run(Fresh, calls).frames) == AllGiven(Fresh, calls)
  {
    RunGives(Fresh, calls);
    JoinNothing(AllGiven(Fresh, calls));
  }

  // ----- outcomes --------------------------------------------------------------------------------------------

  /** A body call that reports success on an open response has sent its bytes; one that reports an
      error has sent nothing. */
  lemma OkMeansSent(o: Out, data: seq<byte>, end: bool, sent: bool)
    requires !o.ended
    ensures var (o1, r) := SendBody(o, data, end, sent);
            && (r.Ok? ==> o.written && Of(o1.frames) == Join(Of(o.frames), Content([], data, [])) && o1.ended == end)
            && (r.Err? ==> o1 == o)
            && (r.Err? <==> !o.written || ((data != [] || end) && !sent))
  {
    BodyGives(o, data, end, sent);
    JoinNothing(Of(o.frames));
  }

  /** Trailers that report success have ended the response with their fin. */
  lemma OkTrailersEnd(o: Out, trailers: Block, sent: bool, finSent: bool)
    requires !o.ended
    ensures var (o1, r) := WriteTrailers(o, trailers, sent, finSent);
            && (r.Ok? <==> o.written && finSent && (Filtered(trailers) != [] ==> sent))
            && (r.Ok? ==> o1.ended && o1.frames != [] && o1.frames[|o1.frames| - 1] == FIN)
  {
    EndToEndIsFiltered(trailers);
  }

  predicate EndsResponse(t: Task) {
    match t
    case HeaderTask(_, _, end, _, _) => end
    case BodyTask(_, end, _) => end
    case TrailerTask(_, _, _) => true
    case DoneTask => true
    case _ => false
  }

  lemma {:induction false} TasksReportTheEnd(o: Out, tasks: seq<Task>)
    ensures var r := ApplyAll(o, tasks).1;
            r.Ok? ==> (r.value <==> exists i :: 0 <= i < |tasks| && EndsResponse(tasks[i]))
    decreases |tasks|
  {
    if tasks != [] {
      var last := |tasks| - 1;
      TasksReportTheEnd(o, tasks[..last]);
      if exists i :: 0 <= i < last && EndsResponse(tasks[..last][i]) {
        var i :| 0 <= i < last && EndsResponse(tasks[..last][i]);
        assert EndsResponse(tasks[i]);
      }
    }
  }

  /** A list of tasks that succeeds reports the end exactly if one of them is an ending one, and
      then a response that has its head is ended. */
  lemma DuplexEnds(o: Out, tasks: seq<Task>, finSent: bool)
    ensures var (o1, r) := Duplex(o, tasks, finSent);
            && (r.Ok? ==> (r.value <==> exists i :: 0 <= i < |tasks| && EndsResponse(tasks[i])))
            && (r == Ok(true) ==> o1.ended || !o1.written)
  {
    TasksReportTheEnd(o, tasks);
  }

  predicate FinSent(c: Call) {
    match c
    case DoHeaders(_, _, _, _, finSent) => finSent
    case DoTrailers(_, _, finSent) => finSent
    case DoShutdown(sent) => sent
    case DoDuplex(tasks, finSent) => finSent && TasksSendFin(tasks)
    case _ => true
  }

  predicate TasksSendFin(tasks: seq<Task>) {
    forall i :: 0 <= i < |tasks| ==> TaskSendsFin(tasks[i])
  }

  predicate TaskSendsFin(t: Task) {
    match t
    case HeaderTask(_, _, _, _, finSent) => finSent
    case TrailerTask(_, _, finSent) => finSent
    case _ => true
  }

  /** The last frame closes the stream. */
  predicate Finned(frames: seq<Frame>) {
    frames != [] && frames[|frames| - 1].Data? && frames[|frames| - 1].fin
  }

  predicate EndIsFin(o: Out) {
    o.ended <==> Finned(o.frames)
  }

  lemma TrailersEndIsFin(o: Out, trailers: Block, sent: bool)
    requires EndIsFin(o)
    ensures EndIsFin(WriteTrailers(o, trailers, sent, true).0)
  {
  }

  lemma TaskEndIsFin(o: Out, t: Task)
    requires EndIsFin(o) && TaskSendsFin(t)
    ensures EndIsFin(ApplyTask(o, t).0)
  {
    if t.TrailerTask? && t.trailers.Some? { TrailersEndIsFin(o, t.trailers.value, t.sent); }
  }

  lemma {:induction false} TasksEndIsFin(o: Out, tasks: seq<Task>)
    requires EndIsFin(o) && TasksSendFin(tasks)
    ensures EndIsFin(ApplyAll(o, tasks).0)
    decreases |tasks|
  {
    if tasks != [] {
      var last := |tasks| - 1;
      TasksEndIsFin(o, tasks[..last]);
      TaskEndIsFin(ApplyAll(o, tasks[..last]).0, tasks[last]);
    }
  }

  lemma StepEndIsFin(o: Out, c: Call)
    requires EndIsFin(o) && FinSent(c)
    ensures EndIsFin(H3SessionTrace.Step(o, c))
  {
    match c
    case DoTrailers(trailers, sent, _) => TrailersEndIsFin(o, trailers, sent);
    case DoDuplex(tasks, _) => TasksEndIsFin(o, tasks);
    case _ =>
  }

  /** For every call sequence in which no fin fails to be sent: the session regards the response
      as ended exactly when the last frame on the stream carries the fin. */
  lemma {:induction false} EndedMeansFin(calls: seq<Call>)
    requires forall i :: 0 <= i < |calls| ==> FinSent(calls[i])
    ensures EndIsFin(H3SessionTrace.Run(Fresh, calls))
    decreases |calls|
  {
    if calls != [] {
      var last := |calls| - 1;
      EndedMeansFin(calls[..last]);
      StepEndIsFin(H3SessionTrace.Run(Fresh, calls[..last]), calls[last]);
    }
  }

  /** Finishing a response that has its head, and shutting any session down, ends it. */
  lemma FinishEnds(o: Out)
    ensures Finish(o, true).1.Ok? && (o.written ==> Finish(o, true).0.ended) && Shutdown(o, true).ended
  {
  }

  // ----- the request body ------------------------------------------------------------------------------------

  /** The bytes still to come, up to and with the frame that carries fin. */
  function Rest(inbox: seq<Inbound>): seq<byte> {
    if inbox == [] then []
    else
      match inbox[0]
      case Datagram => Rest(inbox[1..])
      case Body(data, fin) => data + if fin then [] else Rest(inbox[1..])
  }

  function ToCome(s: In): seq<byte> {
    if s.requestFin then [] else Rest(s.inbox)
  }

  /** A read hands out the next bytes, or says that none are left: for good, or for now. */
  lemma {:induction false} ReadIsNext(s: In)
    ensures var (s1, r) := ReadBody(s);
            match r
            case Chunk(body) => body != [] && body + ToCome(s1) == ToCome(s) && s1.taken == s.taken + body
            case End => ToCome(s) == [] && s1.requestFin && s1.taken == s.taken
            case TimedOut => ToCome(s) == [] && !s.closed && !s1.requestFin && s1.inbox == [] && s1.taken == s.taken
    decreases |s.inbox|
  {
    if !s.requestFin && s.inbox != [] {
      var s1 := s.(inbox := s.inbox[1..]);
      match s.inbox[0]
      case Datagram => ReadIsNext(s1);
      case Body(data, fin) => if data == [] { ReadIsNext(s1.(requestFin := fin)); }
    }
  }

  /** After any number of reads, what was handed out and what is to come are the request body. */
  lemma {:induction false} ReadsAreTheBody(s: In, n: nat)
    ensures Reads(s, n).taken + ToCome(Reads(s, n)) == s.taken + ToCome(s)
    decreases n
  {
    if n > 0 {
      ReadsAreTheBody(s, n - 1);
      var before := Reads(s, n - 1);
      ReadIsNext(before);
      var (s1, r) := ReadBody(before);
      if r.Chunk? { assert before.taken + (r.body + ToCome(s1)) == (before.taken + r.body) + ToCome(s1); }
    }
  }
}
