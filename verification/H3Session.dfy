/**
  The downstream HTTP/3 session (src/h3_session.rs): the frames it puts on the response
  stream and the bytes it keeps for a retry.

  Each send to the stream's queue may fail; the outcomes are inputs.  A failed send delivers
  nothing.  Header blocks are lists of fields.
 */
module H3Session {
  import opened Common

  datatype Field = Field(name: string, value: string)

  type Block = seq<Field>

  /** `Head` and `Trailers` are both header blocks on the wire; the names say which call made them. */
  datatype Frame = Head(block: Block) | Trailers(block: Block) | Data(bytes: seq<byte>, fin: bool)

  datatype Error = StreamClosed | BodyBeforeHeaders | TrailersBeforeHeaders | Upgraded | TaskFailed | ReadTimedOut

  // ----- the response side -----------------------------------------------------------------------------

  datatype Out = Out(ended: bool, written: bool, bodySent: nat, frames: seq<Frame>)

  const Fresh := Out(false, false, 0, [])

  type Outcome = Result<(), Error>

  function Send(o: Out, f: Frame, sent: bool): Out {
    if sent then o.(frames := o.frames + [f]) else o
  }

  const FIN := Data([], true)

  /** `send_headers`: informational, repeated and late headers are ignored. */
  function SendHeaders(o: Out, block: Block, informational: bool, end: bool, sent: bool, finSent: bool): (Out, Outcome) {
    if o.ended || informational || o.written then (o, Ok(()))
    else if !sent then (o, Err(StreamClosed))
    else
      var o1 := Send(o, Head(block), true).(written := true, ended := end);
      if !end then (o1, Ok(()))
      else (Send(o1, FIN, finSent), if finSent then Ok(()) else Err(StreamClosed))
  }

  function SendBody(o: Out, data: seq<byte>, end: bool, sent: bool): (Out, Outcome) {
    if o.ended then (o, Ok(()))
    else if !o.written then (o, Err(BodyBeforeHeaders))
    else if data == [] && !end then (o, Ok(()))
    else if !sent then (o, Err(StreamClosed))
    else (Send(o, Data(data, end), true).(bodySent := o.bodySent + |data|, ended := end), Ok(()))
  }

  predicate HopByHop(name: string) {
    name in {"connection", "transfer-encoding", "upgrade", "trailer", "keep-alive", "proxy-connection"}
  }

  function EndToEnd(trailers: Block): Block {
    if trailers == [] then []
    else
      var last := |trailers| - 1;
      EndToEnd(trailers[..last]) + if HopByHop(trailers[last].name) then [] else [trailers[last]]
  }

  function WriteTrailers(o: Out, trailers: Block, sent: bool, finSent: bool): (Out, Outcome) {
    if o.ended then (o, Ok(()))
    else if !o.written then (o, Err(TrailersBeforeHeaders))
    else
      var block := EndToEnd(trailers);
      if block != [] && !sent then (o, Err(StreamClosed))
      else
        var o1 := if block == [] then o else Send(o, Trailers(block), true);
        if finSent then (Send(o1, FIN, true).(ended := true), Ok(())) else (o1, Err(StreamClosed))
  }

  function Finish(o: Out, sent: bool): (Out, Outcome) {
    if o.ended || !o.written then (o, Ok(()))
    else if sent then (Send(o, FIN, true).(ended := true), Ok(()))
    else (o, Err(StreamClosed))
  }

  function Shutdown(o: Out, sent: bool): Out {
    if o.ended then o else Send(o, FIN, sent).(ended := true)
  }

  datatype Task =
    | HeaderTask(block: Block, informational: bool, end: bool, sent: bool, finSent: bool)
    | BodyTask(data: Option<seq<byte>>, end: bool, sent: bool)
    | UpgradedTask
    | TrailerTask(trailers: Option<Block>, sent: bool, finSent: bool)
    | DoneTask
    | FailedTask

  /** `apply_task`: the new state and whether the response ends here. */
  function ApplyTask(o: Out, task: Task): (Out, Result<bool, Error>) {
    match task
    case HeaderTask(block, informational, end, sent, finSent) =>
      var (o1, r) := SendHeaders(o, block, informational, end, sent, finSent);
      (o1, Then(r, end))
    case BodyTask(data, end, sent) =>
      if data.Some? && data.value != [] then
        var (o1, r) := SendBody(o, data.value, end, sent); (o1, Then(r, end))
      else if end then
        var (o1, r) := SendBody(o, [], true, sent); (o1, Then(r, end))
      else (o, Ok(end))
    case UpgradedTask => (o, Err(Upgraded))
    case TrailerTask(trailers, sent, finSent) =>
      if trailers.None? then (o, Ok(true))
      else var (o1, r) := WriteTrailers(o, trailers.value, sent, finSent); (o1, Then(r, true))
    case DoneTask => (o, Ok(true))
    case FailedTask => (o, Err(TaskFailed))
  }

  function Then(r: Outcome, end: bool): Result<bool, Error> {
    match r case Ok(_) => Ok(end) case Err(e) => Err(e)
  }

  /** The tasks in order up to the first error; whether any of them ended the response. */
  function ApplyAll(o: Out, tasks: seq<Task>): (Out, Result<bool, Error>) {
    if tasks == [] then (o, Ok(false))
    else
      var last := |tasks| - 1;
      match ApplyAll(o, tasks[..last])
      case (o1, Err(e)) => (o1, Err(e))
      case (o1, Ok(ended)) =>
        match ApplyTask(o1, tasks[last])
        case (o2, Err(e)) => (o2, Err(e))
        case (o2, Ok(end)) => (o2, Ok(end || ended))
  }

  /** `response_duplex_vec` */
  function Duplex(o: Out, tasks: seq<Task>, finSent: bool): (Out, Result<bool, Error>) {
    match ApplyAll(o, tasks)
    case (o1, Err(e)) => (o1, Err(e))
    case (o1, Ok(end)) =>
      if !end then (o1, Ok(false))
      else var (o2, r) := Finish(o1, finSent); (o2, Then(r, true))
  }

  // ----- the request side ------------------------------------------------------------------------------

  const RETRY_BODY_LIMIT := 65536

  datatype Inbound = Body(data: seq<byte>, fin: bool) | Datagram

  /** `taken` is every byte handed to the caller; `since` how many of them came before retry
      buffering was switched on. */
  datatype In = In(
    inbox: seq<Inbound>,
    closed: bool,
    requestFin: bool,
    bodyRead: nat,
    retry: Option<seq<byte>>,
    truncated: bool,
    taken: seq<byte>,
    since: nat)

  datatype ReadResult = Chunk(body: seq<byte>) | End | TimedOut

  /** Keep the body for a retry, or give up keeping it. */
  function Keep(s: In, body: seq<byte>): In {
    if s.retry.None? || s.truncated then s
    else if |s.retry.value| + |body| > RETRY_BODY_LIMIT then s.(truncated := true, retry := Some([]))
    else s.(retry := Some(s.retry.value + body))
  }

  /** The next non-empty piece of the request body.  An empty inbox is the end of the stream
      once it is closed, and otherwise a wait that times out. */
  function ReadBody(s: In): (In, ReadResult)
    decreases |s.inbox|
  {
    if s.requestFin then (s, End)
    else if s.inbox == [] then if s.closed then (s.(requestFin := true), End) else (s, TimedOut)
    else
      var s1 := s.(inbox := s.inbox[1..]);
      match s.inbox[0]
      case Datagram => ReadBody(s1)
      case Body(data, fin) =>
        var s2 := s1.(requestFin := fin);
        if data == [] then ReadBody(s2)
        else (Keep(s2.(bodyRead := s.bodyRead + |data|, taken := s.taken + data), data), Chunk(data))
  }

  function EnableRetry(s: In): In {
    if s.retry.None? then s.(retry := Some([]), since := |s.taken|) else s
  }

  function RetryBuffer(s: In): Option<seq<byte>> {
    if s.truncated || s.retry.None? || s.retry.value == [] then None else s.retry
  }

  // ----- the program's own form --------------------------------------------------------------------------

  class Session {
    var ended: bool
    var responseWritten: bool
    var bodySent: nat
    var frames: seq<Frame>
    var inbound: In

    function Abs(): Out
      reads this
    {
      Out(ended, responseWritten, bodySent, frames)
    }

    method SendFrame(f: Frame, sent: bool) returns (r: Outcome)
      modifies `frames
      ensures Abs() == Send(old(Abs()), f, sent) && r == if sent then Ok(()) else Err(StreamClosed)
    {
      if !sent { return Err(StreamClosed); }
      frames := frames + [f];
      return Ok(());
    }

    method WriteResponseHeader(block: Block, informational: bool, end: bool, sent: bool, finSent: bool)
      returns (r: Outcome)
      modifies `ended, `responseWritten, `frames
      ensures (Abs(), r) == SendHeaders(old(Abs()), block, informational, end, sent, finSent)
    {
      if ended { return Ok(()); }
      if informational { return Ok(()); }
      if responseWritten { return Ok(()); }
      r := SendFrame(Head(block), sent);
      if r.Err? { return; }
      responseWritten := true;
      ended := end;
      if end { r := SendFrame(FIN, finSent); }
    }

    method WriteBody(data: seq<byte>, end: bool, sent: bool) returns (r: Outcome)
      modifies `ended, `bodySent, `frames
      ensures (Abs(), r) == SendBody(old(Abs()), data, end, sent)
    {
      if ended { return Ok(()); }
      if !responseWritten { return Err(BodyBeforeHeaders); }
      if data == [] && !end { return Ok(()); }
      r := SendFrame(Data(data, end), sent);
      if r.Err? { return; }
      bodySent := bodySent + |data|;
      ended := ended || end;
    }

    method PutTrailers(trailers: Block, sent: bool, finSent: bool) returns (r: Outcome)
      modifies `ended, `frames
      ensures (Abs(), r) == WriteTrailers(old(Abs()), trailers, sent, finSent)
    {
      if ended { return Ok(()); }
      if !responseWritten { return Err(TrailersBeforeHeaders); }
      var block: Block := [];
      for i := 0 to |trailers|
        invariant block == EndToEnd(trailers[..i])
      {
        assert trailers[..i + 1][..i] == trailers[..i];
        if !HopByHop(trailers[i].name) { block := block + [trailers[i]]; }
      }
      assert trailers[..|trailers|] == trailers;
      if block != [] {
        r := SendFrame(Trailers(block), sent);
        if r.Err? { return; }
      }
      r := SendFrame(FIN, finSent);
      if r.Err? { return; }
      ended := true;
    }

    method FinishStream(sent: bool) returns (r: Outcome)
      modifies `ended, `frames
      ensures (Abs(), r) == Finish(old(Abs()), sent)
    {
      if ended || !responseWritten { return Ok(()); }
      r := SendFrame(FIN, sent);
      if r.Err? { return; }
      ended := true;
    }

    method ShutdownStream(sent: bool)
      modifies `ended, `frames
      ensures Abs() == Shutdown(old(Abs()), sent)
    {
      if !ended {
        var _ := SendFrame(FIN, sent);
        ended := true;
      }
    }

    method Apply(task: Task) returns (r: Result<bool, Error>)
      modifies `ended, `responseWritten, `bodySent, `frames
      ensures (Abs(), r) == ApplyTask(old(Abs()), task)
    {
      match task
      case HeaderTask(block, informational, end, sent, finSent) =>
        var sentOk := WriteResponseHeader(block, informational, end, sent, finSent);
        return Then(sentOk, end);
      case BodyTask(data, end, sent) =>
        if data.Some? && data.value != [] {
          var sentOk := WriteBody(data.value, end, sent);
          return Then(sentOk, end);
        } else if end {
          var sentOk := WriteBody([], true, sent);
          return Then(sentOk, end);
        }
        return Ok(end);
      case UpgradedTask => return Err(Upgraded);
      case TrailerTask(trailers, sent, finSent) =>
        if trailers.None? { return Ok(true); }
        var sentOk := PutTrailers(trailers.value, sent, finSent);
        return Then(sentOk, true);
      case DoneTask => return Ok(true);
      case FailedTask => return Err(TaskFailed);
    }

    method ResponseDuplexVec(tasks: seq<Task>, finSent: bool) returns (r: Result<bool, Error>)
      modifies `ended, `responseWritten, `bodySent, `frames
      ensures (Abs(), r) == Duplex(old(Abs()), tasks, finSent)
    {
      var end := false;
      for i := 0 to |tasks|
        invariant (Abs(), Ok(end)) == ApplyAll(old(Abs()), tasks[..i])
      {
        assert tasks[..i + 1][..i] == tasks[..i];
        r := Apply(tasks[i]);
        if r.Err? {
          FirstErrorStands(old(Abs()), tasks, i + 1);
          return;
        }
        end := r.value || end;
      }
      assert tasks[..|tasks|] == tasks;
      if !end { return Ok(false); }
      var sentOk := FinishStream(finSent);
      return Then(sentOk, true);
    }

    method ReadBodyBytes() returns (r: ReadResult)
      modifies `inbound
      ensures (inbound, r) == ReadBody(old(inbound))
    {
      if inbound.requestFin { return End; }
      while inbound.inbox != []
        invariant !inbound.requestFin && ReadBody(inbound) == ReadBody(old(inbound))
        decreases |inbound.inbox|
      {
        var frame := inbound.inbox[0];
        inbound := inbound.(inbox := inbound.inbox[1..]);
        if frame.Body? {
          inbound := inbound.(requestFin := frame.fin);
          if frame.data == [] {
            if frame.fin { return End; }
          } else {
            inbound := inbound.(bodyRead := inbound.bodyRead + |frame.data|, taken := inbound.taken + frame.data);
            if inbound.retry.Some? && !inbound.truncated {
              if |inbound.retry.value| + |frame.data| > RETRY_BODY_LIMIT {
                inbound := inbound.(truncated := true, retry := Some([]));
              } else {
                inbound := inbound.(retry := Some(inbound.retry.value + frame.data));
              }
            }
            return Chunk(frame.data);
          }
        }
      }
      if inbound.closed {
        inbound := inbound.(requestFin := true);
        return End;
      }
      return TimedOut;
    }
  }

  lemma {:induction false} FirstErrorStands(o: Out, tasks: seq<Task>, i: nat)
    requires i <= |tasks| && ApplyAll(o, tasks[..i]).1.Err?
    ensures ApplyAll(o, tasks) == ApplyAll(o, tasks[..i])
    decreases |tasks|
  {
    if i == |tasks| {
      assert tasks[..i] == tasks;
    } else {
      var last := |tasks| - 1;
      assert tasks[..last][..i] == tasks[..i];
      FirstErrorStands(o, tasks[..last], i);
    }
  }
}
