/**
  The client side of the worker (src/upstream_h3_connector.rs): the request body writer and
  the response body reader, as the objects they are in the program.
 */
module UpstreamH3Connector {
  import opened Common
  import opened UpstreamH3
  import opened Download = UpstreamH3Download
  import opened Upload = H3Upload

  /** `H3RequestBodyWriter`.  Its methods await the worker; what the worker answers is given
      as `opens` (the stream opened) and `accepts` (the command was completed). */
  class RequestBodyWriter {
    const id: nat
    const expectsBody: bool
    var open: bool
    var pending: seq<byte>
    // What the caller has passed in and what went out in commands.
    var written: seq<byte>
    var handed: seq<byte>
    var finished: bool
    var nextToken: nat

    function View(phase: Phase): Writer
      reads this
    {
      Writer(open, pending, phase, written, handed, finished, nextToken)
    }

    constructor (id: nat, expectsBody: bool)
      ensures this.id == id && this.expectsBody == expectsBody
      ensures View(Idle) == Writer(true, [], Idle, [], [], false, 0)
    {
      this.id, this.expectsBody := id, expectsBody;
      open, pending, written, handed, finished, nextToken := true, [], [], [], false, 0;
    }

    method SendBodyCommand(data: seq<byte>, fin: bool, accepts: bool) returns (ok: bool, command: Option<Command>)
      modifies this`handed, this`nextToken
      ensures ok == accepts && command == Some(Body(id, data, fin, old(nextToken)))
      ensures handed == old(handed) + data && nextToken == old(nextToken) + 1
    {
      command := Some(Body(id, data, fin, nextToken));
      handed := handed + data;
      nextToken := nextToken + 1;
      ok := accepts;
    }

    method FlushPending(fin: bool, accepts: bool) returns (ok: bool, command: Option<Command>)
      modifies this`pending, this`handed, this`nextToken
      ensures old(pending) == [] ==>
                ok && command == None && pending == [] && handed == old(handed) && nextToken == old(nextToken)
      ensures old(pending) != [] ==>
                && ok == accepts && pending == [] && command == Some(Body(id, old(pending), fin, old(nextToken)))
                && handed == old(handed) + old(pending) && nextToken == old(nextToken) + 1
    {
      if pending == [] { return true, None; }
      var chunk := pending;
      pending := [];
      ok, command := SendBodyCommand(chunk, fin, accepts);
    }

    /** Unless the stream fails to open, the writer moves exactly as `Upload.Proceed` says. */
    method WriteAllBuf(data: seq<byte>, opens: bool, accepts: bool) returns (ok: bool, command: Option<Command>)
      modifies this
      ensures old(open) && !opens ==> !ok && command == None && handed == old(handed) && pending == old(pending)
      ensures !old(open) || opens ==>
                var w := old(View(Idle)).(written := old(written) + data, open := false);
                var g := Proceed(Upload.System(Start, id, w, None), Call.WriteAllBuf(data));
                && View(g.w.phase) == g.w && command == g.inbox
                && ok == (command.Some? ==> accepts)
      ensures command.None? || |data| + |old(pending)| >= UPSTREAM_BODY_BATCH_THRESHOLD
    {
      ok, command := true, None;
      written := written + data;
      if open {
        open := false;
        if !opens { return false, None; }
      }
      if data == [] { return; }
      if pending == [] && |data| >= UPSTREAM_BODY_BATCH_THRESHOLD {
        ok, command := SendBodyCommand(data, false, accepts);
        return;
      }
      pending := pending + data;
      if |pending| >= UPSTREAM_BODY_BATCH_THRESHOLD {
        ok, command := FlushPending(false, accepts);
      }
    }

    method Finish(opens: bool, accepts: bool) returns (ok: bool, command: Option<Command>)
      modifies this
      ensures !expectsBody ==> ok && command == None && View(Idle) == old(View(Idle))
      ensures expectsBody && old(open) && !opens ==>
                !ok && command == None && handed == old(handed) && pending == old(pending)
      ensures expectsBody && (!old(open) || opens) ==>
                var w := old(View(Idle)).(finished := true, open := false);
                var g := Proceed(Upload.System(Start, id, w, None), Call.Finish);
                && View(g.w.phase) == g.w && command == g.inbox && ok == accepts
    {
      ok, command := true, None;
      if !expectsBody { return; }
      finished := true;
      if open {
        open := false;
        if !opens { return false, None; }
      }
      if pending == [] {
        ok, command := SendBodyCommand([], true, accepts);
      } else {
        ok, command := FlushPending(true, accepts);
      }
    }
  }

  // ----- reading the response body ---------------------------------------------------------

  /** `H3UpstreamSession::read_response_body` over the frames its channel carries, of which `at`
      have been dealt with by earlier reads that `returned` some bytes.  A read is one step of
      `Download.ReadOnce`. */
  class ResponseReader {
    var bodyDone: bool
    var pendingTrailers: Option<nat>

    constructor ()
      ensures !bodyDone && pendingTrailers == None
    {
      bodyDone, pendingTrailers := false, None;
    }

    method ReadResponseBody(ch: Channel, at: nat, senderGone: bool, ghost returned: seq<byte>)
      returns (result: ReadResult, next: nat)
      requires at <= |ch.sent|
      modifies this
      ensures old(bodyDone) ==> result == End(None) && next == at && bodyDone && pendingTrailers == old(pendingTrailers)
      ensures !old(bodyDone) ==> (result, next) == Next(ch, at, senderGone) && bodyDone == result.End?
      ensures !old(bodyDone) ==>
                pendingTrailers == (if result.End? && result.trailers.Some? then result.trailers else old(pendingTrailers))
      ensures !old(bodyDone) && old(pendingTrailers) == None ==>
                Reader(next, if result.Chunk? then returned + result.bytes else returned, bodyDone, pendingTrailers)
                == Advance(ch, Reader(at, returned, false, None), senderGone)
    {
      next := at;
      if bodyDone { return End(None), next; }
      while next < |ch.sent|
        invariant at <= next <= |ch.sent|
        invariant Next(ch, next, senderGone) == Next(ch, at, senderGone)
        invariant !bodyDone && pendingTrailers == old(pendingTrailers)
      {
        var frame := ch.sent[next];
        next := next + 1;
        match frame
        case Data(bytes) => if bytes != [] { return Chunk(bytes), next; }
        case Trailers(block) =>
          pendingTrailers, bodyDone := Some(block), true;
          return End(Some(block)), next;
        case Failure => return ReadError, next;
      }
      if !senderGone { return StillOpen, next; }
      if ch.finished {
        bodyDone := true;
        return End(None), next;
      }
      return ReadError, next;
    }
  }
}
