/**
  Order among the requests of one connection (src/upstream_h3.rs): streams are opened in the
  order of arrival, and one pass over the queued writes offers each of them to quiche once.
 */
module UpstreamH3Fairness {
  import opened Common
  import opened UpstreamH3
  import Indexes = UpstreamH3Indexes
  import Order = UpstreamH3Order
  import opened Effects = UpstreamH3Effects
  import opened Progress = UpstreamH3Progress

  // ----- arrival -------------------------------------------------------------------------------

  function Commands(cmds: seq<Command>): seq<Action> {
    seq(|cmds|, i requires 0 <= i < |cmds| => Commanded(cmds[i]))
  }

  lemma CommandsCons(cmds: seq<Command>)
    requires cmds != []
    ensures Commands(cmds)[0] == Commanded(cmds[0]) && Commands(cmds)[1..] == Commands(cmds[1..])
  {
  }

  ghost predicate AllOpen(cmds: seq<Command>) {
    forall i :: 0 <= i < |cmds| ==> cmds[i].Open?
  }

  /** Request `cmds[i]` waits at place `from + i`, without a stream. */
  ghost predicate Queued(s: State, from: nat, cmds: seq<Command>) {
    && |s.waiting| == from + |cmds|
    && forall i :: 0 <= i < |cmds| ==> InLine(s, from + i, cmds[i].id)
  }

  predicate InLine(s: State, at: nat, id: nat) {
    at < |s.waiting| && s.waiting[at] == id && id in s.requests && s.requests[id].stream.None?
  }

  lemma OpenQueues(s: State, cmd: Command)
    requires Indexes.Inv(s) && !s.draining && cmd.Open? && Allowed(s, Commanded(cmd))
    ensures var s1 := Step(s, Commanded(cmd));
            && Indexes.Inv(s1) && !s1.draining && s1.waiting == s.waiting + [cmd.id] && InLine(s1, |s.waiting|, cmd.id)
            && Behind(s, s1)
  {
    assert Indexes.IdOk(s, cmd.id);
    Indexes.CommandKeeps(s, cmd);
  }

  /** Nobody who waits is moved, and no request is changed. */
  ghost predicate Behind(s: State, s1: State) {
    s.waiting <= s1.waiting && forall id :: id in s.requests ==> id in s1.requests && s1.requests[id] == s.requests[id]
  }

  lemma BehindBoth(a: State, b: State, c: State)
    requires Behind(a, b) && Behind(b, c)
    ensures Behind(a, c)
  {
  }

  lemma StaysInLine(s: State, s1: State, at: nat, id: nat)
    requires Behind(s, s1) && InLine(s, at, id)
    ensures InLine(s1, at, id)
  {
  }

  lemma QueuedCons(s1: State, s2: State, from: nat, cmds: seq<Command>)
    requires cmds != [] && |s1.waiting| == from + 1 && InLine(s1, from, cmds[0].id)
    requires Behind(s1, s2) && Queued(s2, from + 1, cmds[1..])
    ensures Queued(s2, from, cmds)
  {
    StaysInLine(s1, s2, from, cmds[0].id);
    forall i | 0 <= i < |cmds| ensures InLine(s2, from + i, cmds[i].id) {
      if i > 0 { assert InLine(s2, (from + 1) + (i - 1), cmds[1..][i - 1].id); }
    }
  }

  lemma {:induction false} OpensQueue(s: State, cmds: seq<Command>)
    requires Indexes.Inv(s) && !s.draining && AllOpen(cmds) && RunAllowed(s, Commands(cmds))
    ensures var s1 := Run(s, Commands(cmds));
            Indexes.Inv(s1) && !s1.draining && Behind(s, s1) && Queued(s1, |s.waiting|, cmds)
    decreases |cmds|
  {
    if cmds != [] {
      CommandsCons(cmds);
      OpenQueues(s, cmds[0]);
      var s1 := Step(s, Commanded(cmds[0]));
      OpensQueue(s1, cmds[1..]);
      var s2 := Run(s1, Commands(cmds[1..]));
      BehindBoth(s, s1, s2);
      QueuedCons(s1, s2, |s.waiting|, cmds);
    }
  }

  /** Requests that arrive one after the other get the streams that are opened one after the
      other, behind those that were waiting before. */
  lemma FirstComeFirstServed(s: State, cmds: seq<Command>, conn: Conn, answers: seq<Opening>)
    requires Indexes.Inv(s) && !s.draining && AllOpen(cmds) && RunAllowed(s, Commands(cmds))
    requires conn.established && AllOpened(answers) && |answers| == |s.waiting| + |cmds|
    requires DispatchAllowed(Run(s, Commands(cmds)), conn, answers)
    ensures var s1 := DispatchWaiting(Run(s, Commands(cmds)), conn, answers);
            forall i :: 0 <= i < |cmds| ==>
              cmds[i].id in s1.requests && s1.requests[cmds[i].id].stream == Some(answers[|s.waiting| + i].sid)
  {
    OpensQueue(s, cmds);
    var w := Run(s, Commands(cmds));
    EveryoneGetsAStream(w, conn, answers);
    var s1 := DispatchWaiting(w, conn, answers);
    forall i | 0 <= i < |cmds|
      ensures cmds[i].id in s1.requests && s1.requests[cmds[i].id].stream == Some(answers[|s.waiting| + i].sid)
    {
      assert InLine(w, |s.waiting| + i, cmds[i].id);
      assert GotStream(w, s1, answers, |s.waiting| + i);
    }
  }

  // ----- sharing ---------------------------------------------------------------------------------

  function Sid(s: State, id: nat): nat
    requires Writes(s, id)
  {
    s.requests[id].stream.value
  }

  /** How much of what is left quiche takes. */
  function Share(s: State, id: nat, a: Acceptance): nat {
    if a.Took? then Min(a.n, |Rest(s, id)|) else 0
  }

  /** The stream has got this many more bytes of the write, and the rest is kept. */
  ghost predicate Got(s: State, s1: State, id: nat, n: nat)
    requires n <= |Rest(s, id)|
  {
    Writes(s, id) ==>
      && Sid(s, id) in s1.streams && s1.streams[Sid(s, id)].up == s.streams[Sid(s, id)].up + Rest(s, id)[..n]
      && id in s1.requests && s1.requests[id].stream == s.requests[id].stream && Rest(s1, id) == Rest(s, id)[n..]
  }

  predicate Untouched(s: State, s1: State, id: nat, sid: nat) {
    && id in s1.requests && id in s.requests && s1.requests[id] == s.requests[id]
    && sid in s1.streams && sid in s.streams && s1.streams[sid] == s.streams[sid]
  }

  lemma SendShares(st: Stream, rest: seq<byte>, fin: bool, a: Acceptance, n: nat)
    requires !st.fin && !a.Rejected? && n == if a.Took? then Min(a.n, |rest|) else 0
    ensures var (st1, answer) := SendBody(st, rest, fin, a);
            st1.up == st.up + rest[..n] && answer == if a.Took? then Took(n) else Full
  {
    assert st.up + rest[..0] == st.up;
  }

  lemma AfterSendKeepsRest(s: State, id: nat, answer: Acceptance, n: nat)
    requires id in s.requests && s.requests[id].write.Some? && n <= |Rest(s, id)|
    requires answer == Took(n) || (answer == Full && n == 0)
    ensures var s1 := AfterSend(s, id, answer);
            && id in s1.requests && s1.requests == s.requests[id := s1.requests[id]] && s1.streams == s.streams
            && s1.requests[id].stream == s.requests[id].stream && Rest(s1, id) == Rest(s, id)[n..]
            && s.pendingWrites <= s1.pendingWrites
            && (Rest(s, id)[n..] != [] ==> s1.pendingWrites == s.pendingWrites + [id])
  {
    var r, rest := s.requests[id], Rest(s, id);
    var w := r.write.value;
    var s1 := AfterSend(s, id, answer);
    if answer.Full? {
      assert s1 == s.(pendingWrites := s.pendingWrites + [id]) && rest[0..] == rest;
    } else if n < |rest| {
      assert s1.requests == s.requests[id := r.(write := Some(BodyWrite(rest[n..], w.fin, w.token)))];
    } else {
      assert s1.requests == s.requests[id := r.(write := None)] && rest[n..] == [];
    }
  }

  lemma FrontGets(s: State, a: Acceptance)
    requires s.pendingWrites != [] && Writes(s, s.pendingWrites[0]) && !a.Rejected?
    ensures var s1 := DriveOne(s, a);
            var id := s.pendingWrites[0];
            && Got(s, s1, id, Share(s, id, a))
            && s.pendingWrites[1..] <= s1.pendingWrites
            && s1.requests == s.requests[id := s1.requests[id]]
            && s1.streams == s.streams[Sid(s, id) := s1.streams[Sid(s, id)]]
            && (Rest(s, id)[Share(s, id, a)..] != [] ==> s1.pendingWrites == s.pendingWrites[1..] + [id])
  {
    var id := s.pendingWrites[0];
    var (rest, fin) := Unsent(s.requests[id].write.value);
    DriveOneIs(s, a);
    SendShares(s.streams[Sid(s, id)], rest, fin, a, Share(s, id, a));
    AfterSendKeepsRest(Offered(s, a).0, id, Offered(s, a).1, Share(s, id, a));
  }

  lemma FrontLeavesOthers(s: State, a: Acceptance, id: nat, sid: nat)
    requires Indexes.Inv(s) && s.pendingWrites != [] && id != s.pendingWrites[0] && !a.Rejected?
    requires Serves(s) ==> Writes(s, s.pendingWrites[0])
    requires id in s.requests && s.requests[id].stream == Some(sid) && sid in s.streams
    ensures Untouched(s, DriveOne(s, a), id, sid)
  {
    assert Indexes.IdOk(s, id) && Indexes.IdOk(s, s.pendingWrites[0]);
    DriveOneIs(s, a);
    if Writes(s, s.pendingWrites[0]) { FrontGets(s, a); }
  }

  ghost predicate NoneRejected(answers: seq<Acceptance>) {
    forall i :: 0 <= i < |answers| ==> !answers[i].Rejected?
  }

  lemma StillOpenSides(s: State, a: Acceptance)
    requires Indexes.Inv(s) && s.pendingWrites != [] && OpenSides(s) && !a.Rejected?
    ensures OpenSides(DriveOne(s, a)) && s.pendingWrites[1..] <= DriveOne(s, a).pendingWrites
  {
    var s1 := DriveOne(s, a);
    var front := s.pendingWrites[0];
    DriveOneIs(s, a);
    if Serves(s) { FrontGets(s, a); }
    forall id | id in s1.requests && s1.requests[id].write.Some? ensures Writes(s1, id) {
      if id != front {
        assert id in s.requests;
        FrontLeavesOthers(s, a, id, s.requests[id].stream.value);
      }
    }
  }

  lemma Taken(s: State, a: Acceptance)
    requires Indexes.Inv(s) && s.pendingWrites != [] && OpenSides(s) && !a.Rejected?
    ensures Indexes.Inv(DriveOne(s, a)) && OpenSides(DriveOne(s, a))
    ensures s.pendingWrites[1..] <= DriveOne(s, a).pendingWrites
    ensures Got(s, DriveOne(s, a), s.pendingWrites[0], Share(s, s.pendingWrites[0], a))
  {
    Indexes.DriveOneKeeps(s, a);
    StillOpenSides(s, a);
    if Writes(s, s.pendingWrites[0]) { FrontGets(s, a); }
  }

  /** A pass does nothing to a request that is not among those it comes to. */
  lemma {:induction false} PassLeavesOthers(s: State, answers: seq<Acceptance>, id: nat, sid: nat)
    requires Indexes.Inv(s) && OpenSides(s) && NoneRejected(answers) && |answers| <= |s.pendingWrites|
    requires id !in s.pendingWrites[..|answers|]
    requires id in s.requests && s.requests[id].stream == Some(sid) && sid in s.streams
    ensures Untouched(s, DrivePendingWrites(s, answers), id, sid)
    decreases |answers|
  {
    if answers != [] {
      var s1 := DriveOne(s, answers[0]);
      Taken(s, answers[0]);
      assert s.pendingWrites[0] in s.pendingWrites[..|answers|];
      FrontLeavesOthers(s, answers[0], id, sid);
      assert s1.pendingWrites[..|answers| - 1] == s.pendingWrites[..|answers|][1..];
      PassLeavesOthers(s1, answers[1..], id, sid);
    }
  }

  lemma NotAgain(s: State, a: Acceptance, n: nat)
    requires Indexes.Inv(s) && s.pendingWrites != [] && OpenSides(s) && !a.Rejected? && n < |s.pendingWrites|
    requires Writes(s, s.pendingWrites[0])
    ensures n <= |DriveOne(s, a).pendingWrites| && s.pendingWrites[0] !in DriveOne(s, a).pendingWrites[..n]
  {
    Taken(s, a);
    var s1 := DriveOne(s, a);
    forall i | 0 <= i < n ensures s1.pendingWrites[..n][i] != s.pendingWrites[0] {
      assert s1.pendingWrites[i] == s.pendingWrites[1..][i] == s.pendingWrites[i + 1];
      if s.pendingWrites[i + 1] == s.pendingWrites[0] { WriterIsOnce(s, i + 1); }
    }
  }

  lemma GotLater(s: State, s1: State, s2: State, id: nat, a: Acceptance)
    requires Writes(s, id) && Untouched(s, s1, id, Sid(s, id)) && Got(s1, s2, id, Share(s1, id, a))
    ensures Got(s, s2, id, Share(s, id, a))
  {
  }

  lemma FirstKeepsItsShare(s: State, a: Acceptance, rest: seq<Acceptance>)
    requires Indexes.Inv(s) && s.pendingWrites != [] && OpenSides(s) && !a.Rejected?
    requires NoneRejected(rest) && |rest| < |s.pendingWrites|
    ensures Got(s, DrivePendingWrites(DriveOne(s, a), rest), s.pendingWrites[0], Share(s, s.pendingWrites[0], a))
  {
    var id := s.pendingWrites[0];
    Taken(s, a);
    if Writes(s, id) {
      NotAgain(s, a, |rest|);
      PassLeavesOthers(DriveOne(s, a), rest, id, Sid(s, id));
    }
  }

  lemma LaterGetsItsShare(s: State, a: Acceptance, i: nat, s2: State, later: Acceptance)
    requires Indexes.Inv(s) && OpenSides(s) && !a.Rejected? && 0 < i < |s.pendingWrites|
    requires var id := s.pendingWrites[i]; Got(DriveOne(s, a), s2, id, Share(DriveOne(s, a), id, later))
    ensures Got(s, s2, s.pendingWrites[i], Share(s, s.pendingWrites[i], later))
  {
    var id := s.pendingWrites[i];
    if Writes(s, id) {
      WriterIsOnce(s, i);
      FrontLeavesOthers(s, a, id, Sid(s, id));
      GotLater(s, DriveOne(s, a), s2, id, later);
    }
  }

  ghost predicate GotAt(s: State, s1: State, answers: seq<Acceptance>, i: nat)
    requires i < |answers| <= |s.pendingWrites|
  {
    Got(s, s1, s.pendingWrites[i], Share(s, s.pendingWrites[i], answers[i]))
  }

  lemma OneMoreGot(s: State, s2: State, answers: seq<Acceptance>, i: nat)
    requires Indexes.Inv(s) && OpenSides(s) && NoneRejected(answers) && i < |answers| <= |s.pendingWrites|
    requires var s1, rest := DriveOne(s, answers[0]), answers[1..];
             && s2 == DrivePendingWrites(s1, rest) && |rest| <= |s1.pendingWrites|
             && forall j :: 0 <= j < |rest| ==> GotAt(s1, s2, rest, j)
    ensures GotAt(s, s2, answers, i)
  {
    var s1, rest := DriveOne(s, answers[0]), answers[1..];
    if i == 0 {
      FirstKeepsItsShare(s, answers[0], rest);
    } else {
      Taken(s, answers[0]);
      assert s1.pendingWrites[i - 1] == s.pendingWrites[1..][i - 1];
      assert GotAt(s1, s2, rest, i - 1);
      LaterGetsItsShare(s, answers[0], i, s2, answers[i]);
    }
  }

  /** One pass over the queue offers every queued write to quiche once, in order: answer `i`
      says how much of write `i` its stream gets, and the rest of it is kept. */
  lemma {:induction false} EachWriteGetsItsShare(s: State, answers: seq<Acceptance>)
    requires Indexes.Inv(s) && OpenSides(s) && NoneRejected(answers) && |answers| <= |s.pendingWrites|
    ensures forall i :: 0 <= i < |answers| ==> GotAt(s, DrivePendingWrites(s, answers), answers, i)
    decreases |answers|
  {
    if answers != [] {
      Taken(s, answers[0]);
      var s1 := DriveOne(s, answers[0]);
      EachWriteGetsItsShare(s1, answers[1..]);
      var s2 := DrivePendingWrites(s1, answers[1..]);
      forall i | 0 <= i < |answers| ensures GotAt(s, s2, answers, i) { OneMoreGot(s, s2, answers, i); }
    }
  }

  /** A write that arrives takes its turn behind those that were queued before it. */
  lemma NewWriteWaitsItsTurn(s: State, id: nat, data: seq<byte>, fin: bool, token: nat, answers: seq<Acceptance>)
    requires var cmd := Body(id, data, fin, token);
             && Indexes.Inv(s) && Allowed(s, Commanded(cmd)) && OpenSides(HandleCommand(s, cmd))
             && id in s.requests && s.requests[id].stream.Some? && s.requests[id].write.None?
    requires NoneRejected(answers) && |answers| == |s.pendingWrites| + 1
    ensures var s1 := HandleCommand(s, Body(id, data, fin, token));
            && Writes(s1, id) && Rest(s1, id) == data
            && Got(s1, DrivePendingWrites(s1, answers), id, Share(s1, id, answers[|s.pendingWrites|]))
  {
    var cmd := Body(id, data, fin, token);
    var s1 := HandleCommand(s, cmd);
    Indexes.CommandKeeps(s, cmd);
    EachWriteGetsItsShare(s1, answers);
    assert GotAt(s1, DrivePendingWrites(s1, answers), answers, |s.pendingWrites|);
  }
}
