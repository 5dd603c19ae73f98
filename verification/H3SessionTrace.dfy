/**
  What a downstream HTTP/3 session puts on the wire over all call sequences
  (src/h3_session.rs), against the message format of section 4.1 of RFC 9114.
 */
module H3SessionTrace {
  import opened Common
  import opened H3Session

  // ----- the message format ------------------------------------------------------------------------------

  /** Nothing, or a lone fin from a shutdown, or one response head and behind it data; trailers
      are followed by the fin alone and the fin by nothing. */
  ghost predicate WellFormed(frames: seq<Frame>) {
    || frames == [] || frames == [FIN]
    || (&& frames[0].Head?
        && forall i :: 0 < i < |frames| ==> InPlace(frames, i))
  }

  ghost predicate InPlace(frames: seq<Frame>, i: nat)
    requires i < |frames|
  {
    match frames[i]
    case Head(_) => false
    case Trailers(_) => i == |frames| - 1 || (i == |frames| - 2 && frames[i + 1] == FIN)
    case Data(_, fin) => fin ==> i == |frames| - 1
  }

  datatype Phase = Idle | Open | Trailing | Closed

  function After(p: Phase, f: Frame): Option<Phase> {
    match p
    case Idle => if f.Head? then Some(Open) else if f == FIN then Some(Closed) else None
    case Open =>
      (match f
       case Head(_) => None
       case Trailers(_) => Some(Trailing)
       case Data(_, fin) => Some(if fin then Closed else Open))
    case Trailing => if f == FIN then Some(Closed) else None
    case Closed => None
  }

  /** Where a frame sequence leaves the stream, if it is well formed. */
  function PhaseOf(frames: seq<Frame>): Option<Phase> {
    if frames == [] then Some(Idle)
    else
      var last := |frames| - 1;
      match PhaseOf(frames[..last])
      case None => None
      case Some(p) => After(p, frames[last])
  }

  lemma PhaseSnoc(frames: seq<Frame>, f: Frame)
    ensures PhaseOf(frames + [f]) == match PhaseOf(frames) case None => None case Some(p) => After(p, f)
  {
    assert (frames + [f])[..|frames|] == frames;
  }

  lemma {:induction false} NeverAgain(frames: seq<Frame>, more: seq<Frame>)
    requires PhaseOf(frames).None?
    ensures PhaseOf(frames + more).None?
    decreases |more|
  {
    if more == [] {
      assert frames + more == frames;
    } else {
      var last := |more| - 1;
      NeverAgain(frames, more[..last]);
      assert frames + more == (frames + more[..last]) + [more[last]];
      PhaseSnoc(frames + more[..last], more[last]);
    }
  }

  /** The phase of a well-formed sequence is told by its last frame. */
  function PhaseAt(frames: seq<Frame>): Phase {
    if frames == [] then Idle
    else
      match frames[|frames| - 1]
      case Head(_) => Open
      case Trailers(_) => Trailing
      case Data(_, fin) => if fin then Closed else Open
  }

  lemma WellFormedSnoc(frames: seq<Frame>)
    requires |frames| > 1
    ensures var last := |frames| - 1;
            WellFormed(frames) <==> WellFormed(frames[..last]) && After(PhaseAt(frames[..last]), frames[last]).Some?
  {
    var last := |frames| - 1;
    var before := frames[..last];
    if WellFormed(frames) {
      forall i | 0 < i < last ensures InPlace(before, i) { assert InPlace(frames, i); }
      assert InPlace(frames, last);
      if last > 1 { assert InPlace(frames, last - 1); }
    }
    if WellFormed(before) && After(PhaseAt(before), frames[last]).Some? {
      forall i | 0 < i < |frames| ensures InPlace(frames, i) { if i < last { assert InPlace(before, i); } }
    }
  }

  /** The automaton accepts exactly the well-formed sequences. */
  lemma {:induction false} AcceptsWellFormed(frames: seq<Frame>)
    ensures PhaseOf(frames) == if WellFormed(frames) then Some(PhaseAt(frames)) else None
    decreases |frames|
  {
    if |frames| == 1 {
      assert frames[..0] == [] && frames == [frames[0]];
    } else if |frames| > 1 {
      AcceptsWellFormed(frames[..|frames| - 1]);
      WellFormedSnoc(frames);
    }
  }

  // ----- runs ------------------------------------------------------------------------------------------------

  datatype Call =
    | DoHeaders(block: Block, informational: bool, end: bool, sent: bool, finSent: bool)
    | DoBody(data: seq<byte>, end: bool, sent: bool)
    | DoTrailers(trailers: Block, sent: bool, finSent: bool)
    | DoFinish(sent: bool)
    | DoShutdown(sent: bool)
    | DoDuplex(tasks: seq<Task>, finSent: bool)

  function Step(o: Out, c: Call): Out {
    match c
    case DoHeaders(block, informational, end, sent, finSent) =>
      SendHeaders(o, block, informational, end, sent, finSent).0
    case DoBody(data, end, sent) => SendBody(o, data, end, sent).0
    case DoTrailers(trailers, sent, finSent) => WriteTrailers(o, trailers, sent, finSent).0
    case DoFinish(sent) => Finish(o, sent).0
    case DoShutdown(sent) => Shutdown(o, sent)
    case DoDuplex(tasks, finSent) => Duplex(o, tasks, finSent).0
  }

  function Run(o: Out, calls: seq<Call>): Out {
    if calls == [] then o else var last := |calls| - 1; Step(Run(o, calls[..last]), calls[last])
  }

  function BodyBytes(frames: seq<Frame>): nat {
    if frames == [] then 0
    else
      var last := |frames| - 1;
      BodyBytes(frames[..last]) + if frames[last].Data? then |frames[last].bytes| else 0
  }

  lemma BodyBytesSnoc(frames: seq<Frame>, f: Frame)
    ensures BodyBytes(frames + [f]) == BodyBytes(frames) + if f.Data? then |f.bytes| else 0
  {
    assert (frames + [f])[..|frames|] == frames;
  }

  // ----- one call ------------------------------------------------------------------------------------------

  /** Trailers are out and their fin is not: its send failed and the session stays open. */
  predicate Dangling(o: Out) {
    !o.ended && o.frames != [] && o.frames[|o.frames| - 1].Trailers?
  }

  /** The calls that put more than a fin on a dangling stream. */
  ghost predicate Emits(c: Call) {
    match c
    case DoBody(data, _, sent) => data != [] && sent
    case DoTrailers(trailers, sent, _) => EndToEnd(trailers) != [] && sent
    case DoDuplex(tasks, _) => TasksEmit(tasks)
    case _ => false
  }

  predicate TaskEmits(t: Task) {
    match t
    case BodyTask(data, _, sent) => data.Some? && data.value != [] && sent
    case TrailerTask(trailers, sent, _) => trailers.Some? && EndToEnd(trailers.value) != [] && sent
    case _ => false
  }

  /** Tasks that leave a dangling stream as it is, without an error. */
  predicate Silent(t: Task) {
    match t
    case HeaderTask(_, _, _, _, _) => true
    case BodyTask(data, end, _) => (data.None? || data.value == []) && !end
    case TrailerTask(trailers, _, _) => trailers.None?
    case DoneTask => true
    case _ => false
  }

  predicate AllSilent(tasks: seq<Task>) {
    forall i :: 0 <= i < |tasks| ==> Silent(tasks[i])
  }

  ghost predicate TasksEmit(tasks: seq<Task>) {
    exists i :: 0 <= i < |tasks| && TaskEmits(tasks[i]) && AllSilent(tasks[..i])
  }

  ghost predicate Good(o: Out) {
    && PhaseOf(o.frames).Some?
    && (!o.ended ==> if o.written then PhaseOf(o.frames).value in {Open, Trailing} else PhaseOf(o.frames).value == Idle)
  }

  /** From a good session: the format is lost for good, or the session is good again. */
  ghost predicate Leads(o: Out, lost: bool) {
    if lost then PhaseOf(o.frames).None? else Good(o)
  }

  lemma DanglingPhase(o: Out)
    requires Good(o)
    ensures Dangling(o) <==> !o.ended && PhaseOf(o.frames) == Some(Trailing)
    ensures Dangling(o) ==> o.written
  {
    AcceptsWellFormed(o.frames);
  }

  lemma HeadersLead(o: Out, block: Block, informational: bool, end: bool, sent: bool, finSent: bool)
    requires Good(o)
    ensures Good(SendHeaders(o, block, informational, end, sent, finSent).0)
  {
    PhaseSnoc(o.frames, Head(block));
    PhaseSnoc(o.frames + [Head(block)], FIN);
  }

  lemma BodyLeads(o: Out, data: seq<byte>, end: bool, sent: bool)
    requires Good(o)
    ensures Leads(SendBody(o, data, end, sent).0, Dangling(o) && data != [] && sent)
  {
    DanglingPhase(o);
    PhaseSnoc(o.frames, Data(data, end));
  }

  lemma TrailersLead(o: Out, trailers: Block, sent: bool, finSent: bool)
    requires Good(o)
    ensures Leads(WriteTrailers(o, trailers, sent, finSent).0, Dangling(o) && EndToEnd(trailers) != [] && sent)
  {
    DanglingPhase(o);
    var block := EndToEnd(trailers);
    PhaseSnoc(o.frames, FIN);
    PhaseSnoc(o.frames, Trailers(block));
    PhaseSnoc(o.frames + [Trailers(block)], FIN);
  }

  lemma FinLeads(o: Out, sent: bool)
    requires Good(o)
    ensures Good(Finish(o, sent).0) && Good(Shutdown(o, sent))
  {
    PhaseSnoc(o.frames, FIN);
  }

  lemma TaskLeads(o: Out, t: Task)
    requires Good(o)
    ensures Leads(ApplyTask(o, t).0, Dangling(o) && TaskEmits(t))
  {
    match t
    case HeaderTask(block, informational, end, sent, finSent) => HeadersLead(o, block, informational, end, sent, finSent);
    case BodyTask(data, end, sent) =>
      if data.Some? && data.value != [] { BodyLeads(o, data.value, end, sent); } else { BodyLeads(o, [], true, sent); }
    case TrailerTask(trailers, sent, finSent) => if trailers.Some? { TrailersLead(o, trailers.value, sent, finSent); }
    case _ =>
  }

  /** Only a task that fails leaves a stream dangling that was not. */
  lemma TaskSettles(o: Out, t: Task)
    ensures var (o1, r) := ApplyTask(o, t);
            && o.frames <= o1.frames
            && (o.ended ==> o1 == o)
            && (!Dangling(o) && r.Ok? ==> !Dangling(o1))
            && (Dangling(o) && o.written && Silent(t) ==> o1 == o && r.Ok?)
            && (Dangling(o) && o.written && !Silent(t) && !TaskEmits(t) ==> r.Err? || o1.ended)
  {
  }

  lemma TasksEmitSnoc(tasks: seq<Task>)
    requires tasks != []
    ensures var last := |tasks| - 1;
            && (TasksEmit(tasks) <==> TasksEmit(tasks[..last]) || (AllSilent(tasks[..last]) && TaskEmits(tasks[last])))
            && (AllSilent(tasks) <==> AllSilent(tasks[..last]) && Silent(tasks[last]))
  {
    var last := |tasks| - 1;
    if TasksEmit(tasks[..last]) {
      var i :| 0 <= i < last && TaskEmits(tasks[..last][i]) && AllSilent(tasks[..last][..i]);
      assert tasks[..last][..i] == tasks[..i];
    }
    if TasksEmit(tasks) {
      var i :| 0 <= i < |tasks| && TaskEmits(tasks[i]) && AllSilent(tasks[..i]);
      if i < last { assert tasks[..last][i] == tasks[i] && tasks[..last][..i] == tasks[..i]; }
    }
  }

  lemma {:induction false} TasksLead(o: Out, tasks: seq<Task>)
    requires Good(o)
    ensures var (o1, r) := ApplyAll(o, tasks);
            && Leads(o1, Dangling(o) && TasksEmit(tasks))
            && (!Dangling(o) && r.Ok? ==> !Dangling(o1))
            && (Dangling(o) && AllSilent(tasks) ==> o1 == o && r.Ok?)
            && (Dangling(o) && !AllSilent(tasks) && !TasksEmit(tasks) ==> r.Err? || o1.ended)
    decreases |tasks|
  {
    DanglingPhase(o);
    if tasks != [] {
      var last := |tasks| - 1;
      TasksLead(o, tasks[..last]);
      TasksEmitSnoc(tasks);
      var (o1, r) := ApplyAll(o, tasks[..last]);
      if r.Ok? {
        TaskSettles(o1, tasks[last]);
        if PhaseOf(o1.frames).Some? {
          TaskLeads(o1, tasks[last]);
        } else {
          LostForGood(o1.frames, ApplyTask(o1, tasks[last]).0.frames);
        }
      }
    }
  }

  lemma LostForGood(frames: seq<Frame>, grown: seq<Frame>)
    requires PhaseOf(frames).None? && frames <= grown
    ensures PhaseOf(grown).None?
  {
    NeverAgain(frames, grown[|frames|..]);
    assert frames + grown[|frames|..] == grown;
  }

  /** One call of a good session: the format is lost exactly if the stream is dangling and the
      call emits more than a fin. */
  lemma StepLeads(o: Out, c: Call)
    requires Good(o)
    ensures Leads(Step(o, c), Dangling(o) && Emits(c))
  {
    match c
    case DoHeaders(block, informational, end, sent, finSent) => HeadersLead(o, block, informational, end, sent, finSent);
    case DoBody(data, end, sent) => BodyLeads(o, data, end, sent);
    case DoTrailers(trailers, sent, finSent) => TrailersLead(o, trailers, sent, finSent);
    case DoFinish(sent) => FinLeads(o, sent);
    case DoShutdown(sent) => FinLeads(o, sent);
    case DoDuplex(tasks, finSent) =>
      TasksLead(o, tasks);
      var o1 := ApplyAll(o, tasks).0;
      if PhaseOf(o1.frames).Some? { FinLeads(o1, finSent); } else { LostForGood(o1.frames, Step(o, c).frames); }
  }

  lemma {:induction false} TasksGrow(o: Out, tasks: seq<Task>)
    ensures o.frames <= ApplyAll(o, tasks).0.frames
    decreases |tasks|
  {
    if tasks != [] {
      var last := |tasks| - 1;
      TasksGrow(o, tasks[..last]);
      TaskSettles(ApplyAll(o, tasks[..last]).0, tasks[last]);
    }
  }

  lemma StepGrows(o: Out, c: Call)
    ensures o.frames <= Step(o, c).frames
  {
    if c.DoDuplex? { TasksGrow(o, c.tasks); }
  }

  // ----- all calls -----------------------------------------------------------------------------------------

  /** The call at `i` finds the stream dangling and emits more than a fin. */
  ghost predicate Tears(calls: seq<Call>, i: nat)
    requires i < |calls|
  {
    Dangling(Run(Fresh, calls[..i])) && Emits(calls[i])
  }

  ghost predicate AnyTears(calls: seq<Call>) {
    exists i :: 0 <= i < |calls| && Tears(calls, i)
  }

  lemma AnyTearsSnoc(calls: seq<Call>)
    requires calls != []
    ensures var last := |calls| - 1;
            AnyTears(calls) <==> AnyTears(calls[..last]) || (Dangling(Run(Fresh, calls[..last])) && Emits(calls[last]))
  {
    var last := |calls| - 1;
    forall i | 0 <= i < last ensures Tears(calls, i) <==> Tears(calls[..last], i) {
      assert calls[..last][..i] == calls[..i];
    }
    if AnyTears(calls[..last]) {
      var i :| 0 <= i < last && Tears(calls[..last], i);
      assert Tears(calls, i);
    }
    if Dangling(Run(Fresh, calls[..last])) && Emits(calls[last]) { assert Tears(calls, last); }
  }

  lemma {:induction false} RunLeads(calls: seq<Call>)
    ensures Leads(Run(Fresh, calls), AnyTears(calls))
    decreases |calls|
  {
    if calls != [] {
      var last := |calls| - 1;
      var o := Run(Fresh, calls[..last]);
      RunLeads(calls[..last]);
      AnyTearsSnoc(calls);
      if AnyTears(calls[..last]) {
        StepGrows(o, calls[last]);
        LostForGood(o.frames, Step(o, calls[last]).frames);
      } else {
        StepLeads(o, calls[last]);
      }
    }
  }

  /** For every call sequence, whatever sends fail: the frames are well formed exactly if no call
      that finds trailers without their fin on an open stream puts out more than a fin. */
  lemma FramesAreWellFormed(calls: seq<Call>)
    ensures WellFormed(Run(Fresh, calls).frames) <==> forall i :: 0 <= i < |calls| ==> !Tears(calls, i)
  {
    RunLeads(calls);
    AcceptsWellFormed(Run(Fresh, calls).frames);
  }

  // ----- what a caller can do about it ---------------------------------------------------------------------

  predicate Fails(o: Out, c: Call) {
    match c
    case DoHeaders(block, informational, end, sent, finSent) =>
      SendHeaders(o, block, informational, end, sent, finSent).1.Err?
    case DoBody(data, end, sent) => SendBody(o, data, end, sent).1.Err?
    case DoTrailers(trailers, sent, finSent) => WriteTrailers(o, trailers, sent, finSent).1.Err?
    case DoFinish(sent) => Finish(o, sent).1.Err?
    case DoShutdown(_) => false
    case DoDuplex(tasks, finSent) => Duplex(o, tasks, finSent).1.Err?
  }

  /** The call at `i` reports an error and may have sent trailers. */
  ghost predicate Warned(calls: seq<Call>, i: nat)
    requires i < |calls|
  {
    (calls[i].DoTrailers? || calls[i].DoDuplex?) && Fails(Run(Fresh, calls[..i]), calls[i])
  }

  predicate Harmless(c: Call) {
    c.DoHeaders? || c.DoFinish? || c.DoShutdown?
  }

  /** After an error from trailers or a duplex call, nothing but heads, finish and shutdown. */
  ghost predicate Careful(calls: seq<Call>) {
    forall i, j :: 0 <= i < j < |calls| && Warned(calls, i) ==> Harmless(calls[j])
  }

  lemma DanglingWarns(o: Out, c: Call)
    requires Good(o) && !Dangling(o) && Dangling(Step(o, c))
    ensures (c.DoTrailers? || c.DoDuplex?) && Fails(o, c)
  {
    if c.DoDuplex? { TasksLead(o, c.tasks); }
  }

  lemma {:induction false} DanglingWasWarned(calls: seq<Call>)
    requires Careful(calls)
    ensures Good(Run(Fresh, calls))
    ensures Dangling(Run(Fresh, calls)) ==> exists i :: 0 <= i < |calls| && Warned(calls, i)
    decreases |calls|
  {
    if calls != [] {
      var last := |calls| - 1;
      var before := calls[..last];
      forall i | 0 <= i < last ensures Warned(calls, i) <==> Warned(before, i) { assert before[..i] == calls[..i]; }
      DanglingWasWarned(before);
      var o := Run(Fresh, before);
      StepLeads(o, calls[last]);
      if Dangling(o) {
        var i :| 0 <= i < last && Warned(before, i);
        assert Warned(calls, i);
      } else if Dangling(Step(o, calls[last])) {
        DanglingWarns(o, calls[last]);
        assert Warned(calls, last);
      }
    }
  }

  /** A careful caller always gets a well-formed stream. */
  lemma CarefulCallersAreSafe(calls: seq<Call>)
    requires Careful(calls)
    ensures WellFormed(Run(Fresh, calls).frames)
  {
    DanglingWasWarned(calls);
    AcceptsWellFormed(Run(Fresh, calls).frames);
  }

  /** From any good open session, trailers that lose their fin fail, and any emitting call after
      them loses the format. */
  lemma CarelessCallsBreak(o: Out, trailers: Block, c: Call)
    requires Good(o) && o.written && !o.ended && EndToEnd(trailers) != [] && Emits(c)
    ensures Fails(o, DoTrailers(trailers, true, false))
    ensures !WellFormed(Step(Step(o, DoTrailers(trailers, true, false)), c).frames)
  {
    var torn := DoTrailers(trailers, true, false);
    var o1 := Step(o, torn);
    StepGrows(o1, c);
    if Dangling(o) {
      StepLeads(o, torn);
      LostForGood(o1.frames, Step(o1, c).frames);
    } else {
      StepLeads(o, torn);
      StepLeads(o1, c);
    }
    AcceptsWellFormed(Step(o1, c).frames);
  }

  // ----- up to the first failed send ----------------------------------------------------------------------

  /** No send of the task, or of the call, fails. */
  predicate TaskSent(t: Task) {
    match t
    case HeaderTask(_, _, _, sent, finSent) => sent && finSent
    case BodyTask(_, _, sent) => sent
    case TrailerTask(_, sent, finSent) => sent && finSent
    case _ => true
  }

  predicate AllSent(c: Call) {
    match c
    case DoHeaders(_, _, _, sent, finSent) => sent && finSent
    case DoBody(_, _, sent) => sent
    case DoTrailers(_, sent, finSent) => sent && finSent
    case DoFinish(sent) => sent
    case DoShutdown(sent) => sent
    case DoDuplex(tasks, finSent) => finSent && forall i :: 0 <= i < |tasks| ==> TaskSent(tasks[i])
  }

  lemma {:induction false} SentTasksDoNotDangle(o: Out, tasks: seq<Task>)
    requires !Dangling(o) && forall i :: 0 <= i < |tasks| ==> TaskSent(tasks[i])
    ensures !Dangling(ApplyAll(o, tasks).0)
    decreases |tasks|
  {
    if tasks != [] { SentTasksDoNotDangle(o, tasks[..|tasks| - 1]); }
  }

  lemma {:induction false} SentCallsDoNotDangle(calls: seq<Call>)
    requires forall i :: 0 <= i < |calls| ==> AllSent(calls[i])
    ensures !Dangling(Run(Fresh, calls))
    decreases |calls|
  {
    if calls != [] {
      var last := |calls| - 1;
      SentCallsDoNotDangle(calls[..last]);
      if calls[last].DoDuplex? { SentTasksDoNotDangle(Run(Fresh, calls[..last]), calls[last].tasks); }
    }
  }

  /** Every call sequence in which no send fails before the last call gives well-formed frames,
      whatever calls the session rejects on the way. */
  lemma UpToTheFirstFailedSend(calls: seq<Call>)
    requires forall i :: 0 <= i < |calls| - 1 ==> AllSent(calls[i])
    ensures WellFormed(Run(Fresh, calls).frames)
  {
    forall i | 0 <= i < |calls| ensures !Tears(calls, i) { SentCallsDoNotDangle(calls[..i]); }
    FramesAreWellFormed(calls);
  }

  // ----- the byte counter ----------------------------------------------------------------------------------

  /** The byte counter is the number of body bytes emitted, on every run. */
  lemma {:induction false} BytesAreCounted(calls: seq<Call>)
    ensures Run(Fresh, calls).bodySent == BodyBytes(Run(Fresh, calls).frames)
    decreases |calls|
  {
    if calls != [] {
      BytesAreCounted(calls[..|calls| - 1]);
      StepCounts(Run(Fresh, calls[..|calls| - 1]), calls[|calls| - 1]);
    }
  }

  ghost predicate Counted(o: Out) {
    o.bodySent == BodyBytes(o.frames)
  }

  lemma SendCounts(o: Out, f: Frame, sent: bool)
    ensures BodyBytes(Send(o, f, sent).frames) == BodyBytes(o.frames) + if sent && f.Data? then |f.bytes| else 0
  {
    if sent { BodyBytesSnoc(o.frames, f); }
  }

  lemma HeadersCount(o: Out, block: Block, informational: bool, end: bool, sent: bool, finSent: bool)
    requires Counted(o)
    ensures Counted(SendHeaders(o, block, informational, end, sent, finSent).0)
  {
    SendCounts(o, Head(block), true);
    SendCounts(Send(o, Head(block), true).(written := true, ended := end), FIN, finSent);
  }

  lemma BodyCounts(o: Out, data: seq<byte>, end: bool, sent: bool)
    requires Counted(o)
    ensures Counted(SendBody(o, data, end, sent).0)
  {
    SendCounts(o, Data(data, end), true);
  }

  lemma TrailersCount(o: Out, trailers: Block, sent: bool, finSent: bool)
    requires Counted(o)
    ensures Counted(WriteTrailers(o, trailers, sent, finSent).0)
  {
    var block := EndToEnd(trailers);
    SendCounts(o, Trailers(block), true);
    SendCounts(if block == [] then o else Send(o, Trailers(block), true), FIN, true);
  }

  lemma FinCounts(o: Out, sent: bool)
    requires Counted(o)
    ensures Counted(Finish(o, sent).0) && Counted(Shutdown(o, sent))
  {
    SendCounts(o, FIN, sent);
  }

  lemma TaskCounts(o: Out, t: Task)
    requires Counted(o)
    ensures Counted(ApplyTask(o, t).0)
  {
    match t
    case HeaderTask(block, informational, end, sent, finSent) => HeadersCount(o, block, informational, end, sent, finSent);
    case BodyTask(data, end, sent) =>
      if data.Some? && data.value != [] { BodyCounts(o, data.value, end, sent); } else { BodyCounts(o, [], true, sent); }
    case TrailerTask(trailers, sent, finSent) => if trailers.Some? { TrailersCount(o, trailers.value, sent, finSent); }
    case _ =>
  }

  lemma {:induction false} TasksCount(o: Out, tasks: seq<Task>)
    requires Counted(o)
    ensures Counted(ApplyAll(o, tasks).0)
    decreases |tasks|
  {
    if tasks != [] {
      TasksCount(o, tasks[..|tasks| - 1]);
      TaskCounts(ApplyAll(o, tasks[..|tasks| - 1]).0, tasks[|tasks| - 1]);
    }
  }

  lemma StepCounts(o: Out, c: Call)
    requires Counted(o)
    ensures Counted(Step(o, c))
  {
    match c
    case DoHeaders(block, informational, end, sent, finSent) => HeadersCount(o, block, informational, end, sent, finSent);
    case DoBody(data, end, sent) => BodyCounts(o, data, end, sent);
    case DoTrailers(trailers, sent, finSent) => TrailersCount(o, trailers, sent, finSent);
    case DoFinish(sent) => FinCounts(o, sent);
    case DoShutdown(sent) => FinCounts(o, sent);
    case DoDuplex(tasks, finSent) =>
      TasksCount(o, tasks);
      FinCounts(ApplyAll(o, tasks).0, finSent);
  }

  // ----- the retry buffer -----------------------------------------------------------------------------------

  /** The buffer is everything read since it was switched on, unless that is too much. */
  ghost predicate RetryOk(s: In) {
    && s.bodyRead == |s.taken| && s.since <= |s.taken|
    && (s.retry.None? ==> !s.truncated)
    && (s.retry.Some? ==>
          var all := s.taken[s.since..];
          && (s.truncated <==> |all| > RETRY_BODY_LIMIT)
          && s.retry.value == if s.truncated then [] else all)
  }

  lemma KeepOk(s: In, data: seq<byte>)
    requires RetryOk(s)
    ensures RetryOk(Keep(s.(bodyRead := s.bodyRead + |data|, taken := s.taken + data), data))
  {
    assert (s.taken + data)[s.since..] == s.taken[s.since..] + data;
  }

  lemma {:induction false} ReadOk(s: In)
    requires RetryOk(s)
    ensures RetryOk(ReadBody(s).0)
    ensures var (s1, r) := ReadBody(s);
            && s1.since == s.since && s1.retry.Some? == s.retry.Some?
            && s1.taken == s.taken + (if r.Chunk? then r.body else []) && (r.Chunk? ==> r.body != [])
    decreases |s.inbox|
  {
    if s.requestFin || s.inbox == [] {
      assert s.taken + [] == s.taken;
    } else {
      var s1 := s.(inbox := s.inbox[1..]);
      match s.inbox[0]
      case Datagram => ReadOk(s1);
      case Body(data, fin) =>
        var s2 := s1.(requestFin := fin);
        if data == [] { ReadOk(s2); } else { KeepOk(s2, data); }
    }
  }

  /** The session after `n` reads. */
  function Reads(s: In, n: nat): In {
    if n == 0 then s else ReadBody(Reads(s, n - 1)).0
  }

  lemma {:induction false} ReadsOk(s: In, n: nat)
    requires RetryOk(s)
    ensures RetryOk(Reads(s, n)) && Reads(s, n).since == s.since && Reads(s, n).retry.Some? == s.retry.Some?
    decreases n
  {
    if n > 0 {
      ReadsOk(s, n - 1);
      ReadOk(Reads(s, n - 1));
    }
  }

  /** Enabled before the first read, the retry buffer is exactly all request bytes read as long
      as these fit the limit, and is gone for good once they do not. */
  lemma RetryBufferIsWholeBody(inbox: seq<Inbound>, closed: bool, n: nat)
    ensures var s := Reads(EnableRetry(In(inbox, closed, false, 0, None, false, [], 0)), n);
            RetryBuffer(s) == if s.taken == [] || |s.taken| > RETRY_BODY_LIMIT then None else Some(s.taken)
  {
    var s0 := EnableRetry(In(inbox, closed, false, 0, None, false, [], 0));
    assert s0.taken[s0.since..] == [];
    ReadsOk(s0, n);
    var s := Reads(s0, n);
    assert s.taken[0..] == s.taken;
  }
}
